/** Safety of the log system in every run. */
module LogSystemSafety {
  import opened Prelude
  import opened Ids
  import opened LogSystem
  import opened LogSystemProofs
  import Paxos
  import LocalLogs
  import BatchLogs

  // ---------------------------------------------------------------------
  // Invariants
  // ---------------------------------------------------------------------

  predicate Known(log: seq<Machine>, made: map<Machine, nat>, i: Item) {
    match i
    case IData(g, pos) => g in made && pos < made[g]
    case ILocal(k) => k < |log|
    case IRemote(k) => k < |log|
  }

  ghost predicate IsTarget(log: seq<Machine>, id: BatchId) {
    exists k: nat :: k < |log| && id == Target(log, k)
  }

  /** Who sends an ack to m: the entry of another region to the leader, and from there on the
      tree of the home region with entry partition 0. */
  function AckFrom(c: Cluster, m: Machine): Machine {
    TreeFrom(0, LeaderOf(c), m)
  }

  ghost predicate GoodMsg(c: Cluster, log: seq<Machine>, made: map<Machine, nat>, m: Msg)
    requires ValidCluster(c)
  {
    if m.Ack? then
      && AtHome(c, m.to) && IsTarget(log, m.id)
      && (m.to == LeaderOf(c) ==>
            m.from.region < |c.replicas| && m.from.region != c.home && NeedAck(c, m.from.region) &&
              m.from == Entry(c, m.from.region))
      && (m.to != LeaderOf(c) ==> m.from == AckFrom(c, m.to))
    else
      Concerns(c, ItemOf(m), m.to) && Known(log, made, ItemOf(m)) && m == InMsg(c, log, ItemOf(m), m.to)
  }

  ghost predicate MsgsGood(c: Cluster, log: seq<Machine>, made: map<Machine, nat>, sent: multiset<Msg>)
    requires ValidCluster(c)
  {
    forall m :: m in sent ==> GoodMsg(c, log, made, m)
  }

  function Decision(c: Cluster, log: seq<Machine>, m: Machine, k: nat): Paxos.Msg<Machine> {
    Paxos.Commit(LeaderOf(c), m, k, At(log, k), LeaderOf(c))
  }

  /** How often the item should have been sent to m: as often as its sender received it, and at
      a root as often as it was originated. */
  ghost function Supply(c: Cluster, log: seq<Machine>, decided: multiset<Paxos.Msg<Machine>>, ordered: nat,
                        delivered: multiset<Msg>, i: Item, m: Machine): nat
    requires ValidCluster(c)
  {
    if !IsRoot(c, i, m) then delivered[InMsg(c, log, i, Source(c, i, m))]
    else
      match i
      case IData(_, _) => 1
      case ILocal(k) => decided[Decision(c, log, m, k)]
      case IRemote(k) => if k < ordered then 1 else 0
  }

  ghost predicate TreeCounts(c: Cluster, log: seq<Machine>, made: map<Machine, nat>,
      decided: multiset<Paxos.Msg<Machine>>,
                             ordered: nat, sent: multiset<Msg>, delivered: multiset<Msg>)
    requires ValidCluster(c)
  {
    forall i, m :: Concerns(c, i, m) && Known(log, made, i) ==>
      sent[InMsg(c, log, i, m)] == Supply(c, log, decided, ordered, delivered, i, m)
  }

  /** The regions whose ack for slot k reached the leader. */
  ghost function AckedBy(c: Cluster, log: seq<Machine>, delivered: multiset<Msg>, k: nat): set<nat>
    requires ValidCluster(c)
  {
    set r | 0 <= r < |c.replicas| && NeedAck(c, r) && Ack(Entry(c, r), LeaderOf(c), Target(log, k)) in delivered
  }

  /** A region acks a slot as often as its entry machine received the order. */
  ghost predicate AckRoots(c: Cluster, log: seq<Machine>, sent: multiset<Msg>, delivered: multiset<Msg>)
    requires ValidCluster(c)
  {
    forall r: nat, k: nat :: r < |c.replicas| && NeedAck(c, r) && k < |log| ==>
      sent[Ack(Entry(c, r), LeaderOf(c), Target(log, k))] == delivered[InMsg(c, log, IRemote(k), Entry(c, r))]
  }

  ghost predicate AckEdges(c: Cluster, nodes: map<Machine, Node>, sent: multiset<Msg>) {
    forall m, id :: AtHome(c, m) && m != LeaderOf(c) && AckFrom(c, m) in nodes ==>
      sent[Ack(AckFrom(c, m), m, id)] == nodes[AckFrom(c, m)].log.seen.acks[id]
  }

  ghost predicate LocalReceived(c: Cluster, log: seq<Machine>, made: map<Machine, nat>, delivered: multiset<Msg>,
                                m: Machine, seen: LocalLogs.Seen<Machine>)
    requires ValidCluster(c)
  {
    && (forall k: nat :: k in seen.slots <==> k < |log| && InMsg(c, log, ILocal(k), m) in delivered)
    && (forall g, pos :: (g, pos) in seen.ids <==>
          AtHome(c, g) && g in made && pos < made[g] && InMsg(c, log, IData(g, pos), m) in delivered)
  }

  ghost predicate AcksReceived(c: Cluster, log: seq<Machine>, delivered: multiset<Msg>, m: Machine,
      acks: multiset<BatchId>)
    requires ValidCluster(c)
  {
    && (forall id :: id in acks ==> IsTarget(log, id))
    && (if m == LeaderOf(c) then forall k: nat :: k < |log| ==> acks[Target(log, k)] == |AckedBy(c, log, delivered, k)|
        else forall id :: acks[id] == delivered[Ack(AckFrom(c, m), m, id)])
  }

  ghost predicate HomeGood(c: Cluster, log: seq<Machine>, made: map<Machine, nat>, delivered: multiset<Msg>,
      m: Machine, n: Node)
    requires ValidCluster(c)
  {
    && HomeMid(c, log, n) && n.local.log.ready == [] && n.log.log.ready == []
    && LocalReceived(c, log, made, delivered, m, n.local.seen)
    && AcksReceived(c, log, delivered, m, n.log.seen.acks)
  }

  /** The slots a machine outside the home region was given are those whose order reached it. */
  ghost predicate RemoteSlots(c: Cluster, log: seq<Machine>, delivered: multiset<Msg>, m: Machine,
      seen: BatchLogs.Seen<()>)
    requires ValidCluster(c)
  {
    && (forall k: nat :: k in seen.slots <==> k < |log| && InMsg(c, log, IRemote(k), m) in delivered)
    && (forall k :: k in seen.slots ==> seen.slots[k] == Target(log, k))
    && seen.acks == multiset{}
  }

  ghost predicate RemoteGood(c: Cluster, log: seq<Machine>, delivered: multiset<Msg>, m: Machine, n: Node)
    requires ValidCluster(c)
  {
    && n.local.log.ready == []
    && TraceGood(n.log) && n.log.log.ready == []
    && RemoteSlots(c, log, delivered, m, n.log.seen)
  }

  ghost predicate NodesGood(c: Cluster, log: seq<Machine>, made: map<Machine, nat>, delivered: multiset<Msg>,
      nodes: map<Machine, Node>)
    requires ValidCluster(c)
  {
    && (forall m :: AtHome(c, m) ==> m in nodes && HomeGood(c, log, made, delivered, m, nodes[m]))
    && (forall m :: IsMachine(c, m) && m.region != c.home ==> m in nodes && RemoteGood(c, log, delivered, m, nodes[m]))
  }

  ghost predicate ProposalsHome(c: Cluster, px: Paxos.State<Machine>) {
    && HomeLog(c, px.log)
    && (forall p :: p in px.sent && p.Propose? ==> AtHome(c, p.value))
  }

  ghost predicate Inv(c: Cluster, s: State)
    requires ValidCluster(c)
  {
    && Paxos.Inv(Group(c), s.px) && ProposalsHome(c, s.px)
    && (forall g :: AtHome(c, g) ==> g in s.made)
    && s.delivered <= s.sent
    && MsgsGood(c, s.px.log, s.made, s.sent)
    && NodesGood(c, s.px.log, s.made, s.delivered, s.nodes)
    && LeaderOf(c) in s.nodes
    && TreeCounts(c, s.px.log, s.made, s.px.delivered, |s.nodes[LeaderOf(c)].local.out|, s.sent, s.delivered)
    && AckRoots(c, s.px.log, s.sent, s.delivered)
    && AckEdges(c, s.nodes, s.sent)
  }

  // ---------------------------------------------------------------------
  // Each item is sent to each machine at most once
  // ---------------------------------------------------------------------

  lemma SourceConcerned(c: Cluster, i: Item, m: Machine)
    requires ValidCluster(c) && Concerns(c, i, m) && !IsRoot(c, i, m)
    ensures Concerns(c, i, Source(c, i, m))
  {
    PartitionInRange(c, if i.IData? then i.gen else m, if i.IData? then i.pos else 0, m);
  }

  /** Steps from the origin of the item to m. */
  function Depth(c: Cluster, i: Item, m: Machine): nat
    requires ValidCluster(c)
  {
    if IsRoot(c, i, m) then 0 else if IsRoot(c, i, Source(c, i, m)) then 1 else 2
  }

  lemma SourceCloser(c: Cluster, i: Item, m: Machine)
    requires ValidCluster(c) && Concerns(c, i, m) && !IsRoot(c, i, m)
    ensures Depth(c, i, Source(c, i, m)) < Depth(c, i, m)
  {
  }

  ghost predicate DecidedOnce(c: Cluster, log: seq<Machine>, decided: multiset<Paxos.Msg<Machine>>) {
    forall m, k: nat :: k < |log| && IsLearner(c, m) ==> decided[Decision(c, log, m, k)] <= 1
  }

  lemma {:induction false} AtMostOnce(c: Cluster, log: seq<Machine>, made: map<Machine, nat>,
      decided: multiset<Paxos.Msg<Machine>>,
                                      ordered: nat, sent: multiset<Msg>, delivered: multiset<Msg>, i: Item, m: Machine)
    requires ValidCluster(c) && TreeCounts(c, log, made, decided, ordered, sent, delivered)
    requires DecidedOnce(c, log, decided) && delivered <= sent
    requires Concerns(c, i, m) && Known(log, made, i)
    ensures sent[InMsg(c, log, i, m)] <= 1
    decreases Depth(c, i, m)
  {
    if !IsRoot(c, i, m) {
      SourceConcerned(c, i, m);
      SourceCloser(c, i, m);
      AtMostOnce(c, log, made, decided, ordered, sent, delivered, i, Source(c, i, m));
      var up := InMsg(c, log, i, Source(c, i, m));
      assert delivered[up] <= sent[up];
    }
  }

  // ---------------------------------------------------------------------
  // Delivering one message of a tree
  // ---------------------------------------------------------------------

  /** x passes item i on from m to one of its children. */
  ghost predicate IsChild(c: Cluster, log: seq<Machine>, i: Item, m: Machine, x: Msg)
    requires ValidCluster(c)
  {
    && !x.Ack? && ItemOf(x) == i && x == InMsg(c, log, i, x.to)
    && Concerns(c, i, x.to) && !IsRoot(c, i, x.to) && Source(c, i, x.to) == m
  }

  lemma RelayData(c: Cluster, log: seq<Machine>, n: Node, m: Msg)
    requires ValidCluster(c) && m.Data? && Concerns(c, ItemOf(m), m.to) && m == InMsg(c, log, ItemOf(m), m.to)
    ensures forall x :: OnData(c, n, m).1[x] == if IsChild(c, log, ItemOf(m), m.to, x) then 1 else 0
  {
    RelayIsChildren(c, ItemOf(m), m.to);
    assert forall d :: d in Relay(c, m.to, m.from) ==> d.region == m.to.region;
  }

  lemma RelayRemoteOrder(c: Cluster, log: seq<Machine>, n: Node, m: Msg)
    requires ValidCluster(c) && m.RemoteOrder? && Concerns(c, ItemOf(m), m.to) && m == InMsg(c, log, ItemOf(m), m.to)
    ensures forall x: Msg ::
      !x.Ack? ==> OnRemoteOrder(c, n, m).1[x] == if IsChild(c, log, ItemOf(m), m.to, x) then 1 else 0
    ensures forall x: Msg :: x.Ack? ==>
              (OnRemoteOrder(c, n, m).1[x] ==
               if NeedAck(c, m.to.region) && IsRoot(c, ItemOf(m), m.to) && x == Ack(m.to, LeaderOf(c), m.id) then 1
                 else 0)
  {
    RelayIsChildren(c, ItemOf(m), m.to);
    assert forall d :: d in Relay(c, m.to, m.from) ==> d.region == m.to.region;
  }

  lemma RelayLocalOrder(c: Cluster, log: seq<Machine>, n: Node, m: Msg)
    requires ValidCluster(c) && m.LocalOrder? && Concerns(c, ItemOf(m), m.to) && m == InMsg(c, log, ItemOf(m), m.to)
    ensures forall x :: OnLocalOrder(c, n, m).1[x] == if IsChild(c, log, ItemOf(m), m.to, x) then 1 else 0
  {
    LocalRelayIsChildren(c, m.slot, m.to);
  }

  /** Acks are passed on along the home region's tree. */
  lemma RelayAck(c: Cluster, log: seq<Machine>, made: map<Machine, nat>, n: Node, m: Msg)
    requires ValidCluster(c) && m.Ack? && GoodMsg(c, log, made, m)
    ensures forall x :: OnAck(c, n, m).1[x] ==
              if x.Ack? && AtHome(c, x.to) && x.to != LeaderOf(c) && AckFrom(c, x.to) == m.to &&
                x == Ack(m.to, x.to, m.id) then 1 else 0
  {
  }

  ghost predicate Relayed(c: Cluster, log: seq<Machine>, i: Item, m: Machine, ordered: nat, ordered': nat,
      out: multiset<Msg>)
    requires ValidCluster(c)
  {
    forall x: Msg :: !x.Ack? ==>
      out[x] == (if IsChild(c, log, i, m, x) then 1 else 0) +
        (if IsNewOrder(c, log, x, ordered, ordered') then 1 else 0)
  }

  lemma TreeDelivered(c: Cluster, log: seq<Machine>, made: map<Machine, nat>, decided: multiset<Paxos.Msg<Machine>>,
                      ordered: nat, ordered': nat, sent: multiset<Msg>, delivered: multiset<Msg>, i: Item,
                        m: Machine, out: multiset<Msg>)
    requires ValidCluster(c) && TreeCounts(c, log, made, decided, ordered, sent, delivered)
    requires Concerns(c, i, m) && ordered <= ordered' && Relayed(c, log, i, m, ordered, ordered', out)
    ensures TreeCounts(c, log, made, decided, ordered', sent + out, delivered + multiset{InMsg(c, log, i, m)})
  {
    var msg := InMsg(c, log, i, m);
    forall i', m' | Concerns(c, i', m') && Known(log, made, i')
      ensures (sent + out)[InMsg(c, log, i', m')] ==
        Supply(c, log, decided, ordered', delivered + multiset{msg}, i', m')
    {
      var x := InMsg(c, log, i', m');
      assert ItemOf(x) == i' && x.to == m';
      assert sent[x] == Supply(c, log, decided, ordered, delivered, i', m');
      if !IsRoot(c, i', m') {
        var up := InMsg(c, log, i', Source(c, i', m'));
        assert ItemOf(up) == i' && up.to == Source(c, i', m');
        assert up == msg <==> i' == i && Source(c, i', m') == m;
      }
    }
  }

  /** Acks and root messages of other kinds leave the trees alone. */
  lemma TreeSame(c: Cluster, log: seq<Machine>, made: map<Machine, nat>, decided: multiset<Paxos.Msg<Machine>>,
                 ordered: nat, sent: multiset<Msg>, delivered: multiset<Msg>, out: multiset<Msg>, m: Msg)
    requires ValidCluster(c) && TreeCounts(c, log, made, decided, ordered, sent, delivered)
    requires m.Ack? && forall x :: x in out ==> x.Ack?
    ensures TreeCounts(c, log, made, decided, ordered, sent + out, delivered + multiset{m})
  {
    forall i', m' | Concerns(c, i', m') && Known(log, made, i')
      ensures (sent + out)[InMsg(c, log, i', m')] == Supply(c, log, decided, ordered, delivered + multiset{m}, i', m')
    {
      var x := InMsg(c, log, i', m');
      assert x !in out;
      assert sent[x] == Supply(c, log, decided, ordered, delivered, i', m');
    }
  }

  /** What a machine sends when a message of a tree arrives: to its children, new orders if it
      is the leader, and an ack if it is the entry of a region that must ack. */
  ghost predicate OutGood(c: Cluster, log: seq<Machine>, m: Msg, ordered: nat, ordered': nat, out: multiset<Msg>)
    requires ValidCluster(c)
  {
    && !m.Ack? && Relayed(c, log, ItemOf(m), m.to, ordered, ordered', out)
    && (forall x: Msg :: x.Ack? ==> out[x] == if IsRegionAck(c, m, x) then 1 else 0)
  }

  ghost predicate IsRegionAck(c: Cluster, m: Msg, x: Msg)
    requires ValidCluster(c)
  {
    m.RemoteOrder? && NeedAck(c, m.to.region) && IsRoot(c, ItemOf(m), m.to) && x == Ack(m.to, LeaderOf(c), m.id)
  }

  lemma OutMsgsGood(c: Cluster, log: seq<Machine>, made: map<Machine, nat>, m: Msg, ordered: nat, ordered': nat,
      out: multiset<Msg>)
    requires ValidCluster(c) && GoodMsg(c, log, made, m) && OutGood(c, log, m, ordered, ordered', out) &&
      ordered' <= |log|
    ensures MsgsGood(c, log, made, out)
  {
    forall x | x in out
      ensures GoodMsg(c, log, made, x)
    {
      if x.Ack? {
        assert m.id == Target(log, m.slot);
      }
    }
  }

  lemma MsgsMore(c: Cluster, log: seq<Machine>, made: map<Machine, nat>, sent: multiset<Msg>, out: multiset<Msg>)
    requires ValidCluster(c) && MsgsGood(c, log, made, sent) && MsgsGood(c, log, made, out)
    ensures MsgsGood(c, log, made, sent + out)
  {
  }

  lemma AckRootsDelivered(c: Cluster, log: seq<Machine>, made: map<Machine, nat>, sent: multiset<Msg>,
      delivered: multiset<Msg>,
                          m: Msg, ordered: nat, ordered': nat, out: multiset<Msg>)
    requires ValidCluster(c) && HomeLog(c, log) && AckRoots(c, log, sent, delivered)
    requires GoodMsg(c, log, made, m) && OutGood(c, log, m, ordered, ordered', out)
    ensures AckRoots(c, log, sent + out, delivered + multiset{m})
  {
    forall r: nat, k: nat | r < |c.replicas| && NeedAck(c, r) && k < |log|
      ensures (sent + out)[Ack(Entry(c, r), LeaderOf(c), Target(log, k))] ==
        (delivered + multiset{m})[InMsg(c, log, IRemote(k), Entry(c, r))]
    {
      var order := InMsg(c, log, IRemote(k), Entry(c, r));
      assert ItemOf(order) == IRemote(k) && order.to == Entry(c, r);
      if m.RemoteOrder? && m.slot != k {
        if m.slot < k { TargetInjective(c, log, m.slot, k); } else { TargetInjective(c, log, k, m.slot); }
      }
      NeededRegion(c, r);
      PartitionInRange(c, LeaderOf(c), 0, Entry(c, r));
    }
  }

  lemma NeededRegion(c: Cluster, r: nat)
    requires ValidCluster(c) && NeedAck(c, r)
    ensures r < |c.replicas| && r != c.home
  {
  }

  ghost predicate SameAcks(c: Cluster, nodes: map<Machine, Node>, nodes': map<Machine, Node>) {
    forall m :: AtHome(c, m) && m in nodes ==> m in nodes' && nodes'[m].log.seen.acks == nodes[m].log.seen.acks
  }

  lemma AckEdgesDelivered(c: Cluster, log: seq<Machine>, nodes: map<Machine, Node>, nodes': map<Machine, Node>,
      sent: multiset<Msg>,
                          m: Msg, ordered: nat, ordered': nat, out: multiset<Msg>)
    requires ValidCluster(c) && AckEdges(c, nodes, sent) && SameAcks(c, nodes, nodes') && nodes.Keys == nodes'.Keys
    requires OutGood(c, log, m, ordered, ordered', out)
    ensures AckEdges(c, nodes', sent + out)
  {
    forall m', id | AtHome(c, m') && m' != LeaderOf(c) && AckFrom(c, m') in nodes'
      ensures (sent + out)[Ack(AckFrom(c, m'), m', id)] == nodes'[AckFrom(c, m')].log.seen.acks[id]
    {
      assert out[Ack(AckFrom(c, m'), m', id)] == 0;
      assert AtHome(c, AckFrom(c, m'));
    }
  }

  // ---------------------------------------------------------------------
  // Machines other than the receiver
  // ---------------------------------------------------------------------

  lemma HomeFrame(c: Cluster, log: seq<Machine>, made: map<Machine, nat>, delivered: multiset<Msg>, m: Machine,
      n: Node, msg: Msg)
    requires ValidCluster(c) && HomeGood(c, log, made, delivered, m, n) && msg.to != m
    ensures HomeGood(c, log, made, delivered + multiset{msg}, m, n)
  {
    hide HomeMid;
    LocalFrame(c, log, made, delivered, m, n.local.seen, msg);
    AcksFrame(c, log, delivered, m, n.log.seen.acks, msg);
  }

  lemma LocalFrame(c: Cluster, log: seq<Machine>, made: map<Machine, nat>, delivered: multiset<Msg>, m: Machine,
      seen: LocalLogs.Seen<Machine>, msg: Msg)
    requires ValidCluster(c) && LocalReceived(c, log, made, delivered, m, seen) && (msg.to != m || msg.Ack?)
    ensures LocalReceived(c, log, made, delivered + multiset{msg}, m, seen)
  {
    assert forall i :: InMsg(c, log, i, m) != msg;
  }

  lemma AcksFrame(c: Cluster, log: seq<Machine>, delivered: multiset<Msg>, m: Machine, acks: multiset<BatchId>,
      msg: Msg)
    requires ValidCluster(c) && AcksReceived(c, log, delivered, m, acks) && (msg.to != m || !msg.Ack?)
    ensures AcksReceived(c, log, delivered + multiset{msg}, m, acks)
  {
    if m == LeaderOf(c) {
      forall k: nat
        ensures AckedBy(c, log, delivered + multiset{msg}, k) == AckedBy(c, log, delivered, k)
      {
      }
    }
  }

  lemma RemoteFrame(c: Cluster, log: seq<Machine>, delivered: multiset<Msg>, m: Machine, n: Node, msg: Msg)
    requires ValidCluster(c) && RemoteGood(c, log, delivered, m, n) && msg.to != m
    ensures RemoteGood(c, log, delivered + multiset{msg}, m, n)
  {
    hide TraceGood;
    assert forall i :: InMsg(c, log, i, m) != msg;
  }

  lemma NodesUpdated(c: Cluster, log: seq<Machine>, made: map<Machine, nat>, delivered: multiset<Msg>,
      nodes: map<Machine, Node>, msg: Msg, n: Node)
    requires ValidCluster(c) && NodesGood(c, log, made, delivered, nodes)
    requires AtHome(c, msg.to) ==> HomeGood(c, log, made, delivered + multiset{msg}, msg.to, n)
    requires msg.to.region != c.home ==> RemoteGood(c, log, delivered + multiset{msg}, msg.to, n)
    ensures NodesGood(c, log, made, delivered + multiset{msg}, nodes[msg.to := n])
  {
    hide HomeGood, RemoteGood;
    forall m | AtHome(c, m) && m != msg.to
      ensures HomeGood(c, log, made, delivered + multiset{msg}, m, nodes[m])
    {
      HomeFrame(c, log, made, delivered, m, nodes[m], msg);
    }
    forall m | IsMachine(c, m) && m.region != c.home && m != msg.to
      ensures RemoteGood(c, log, delivered + multiset{msg}, m, nodes[m])
    {
      RemoteFrame(c, log, delivered, m, nodes[m], msg);
    }
  }

  // ---------------------------------------------------------------------
  // The receiver
  // ---------------------------------------------------------------------

  /** The number of slots the leader ordered abroad, after machine m changed to n. */
  function OrderedAfter(c: Cluster, m: Machine, n: Node, ordered: nat): nat {
    if m == LeaderOf(c) then |n.local.out| else ordered
  }

  lemma OutCombined(c: Cluster, log: seq<Machine>, m: Msg, ordered: nat, ordered': nat, out1: multiset<Msg>,
      out2: multiset<Msg>)
    requires ValidCluster(c) && !m.Ack?
    requires forall x: Msg :: !x.Ack? ==> out1[x] == if IsChild(c, log, ItemOf(m), m.to, x) then 1 else 0
    requires forall x: Msg :: x.Ack? ==> out1[x] == if IsRegionAck(c, m, x) then 1 else 0
    requires forall x: Msg :: out2[x] == if IsNewOrder(c, log, x, ordered, ordered') then 1 else 0
    ensures OutGood(c, log, m, ordered, ordered', out1 + out2)
  {
  }

  lemma NodeAfterData(c: Cluster, log: seq<Machine>, made: map<Machine, nat>, delivered: multiset<Msg>, m: Msg,
      n: Node, ordered: nat)
    requires ValidCluster(c) && HomeLog(c, log) && AtHome(c, m.to) && HomeGood(c, log, made, delivered, m.to, n)
    requires m.Data? && GoodMsg(c, log, made, m) && m !in delivered
    requires ordered == OrderedAfter(c, m.to, n, ordered)
    ensures var (n', out) := Handle(c, n, m);
            && HomeGood(c, log, made, delivered + multiset{m}, m.to, n') && n'.log.seen.acks == n.log.seen.acks
            && n.log.out <= n'.log.out
            && ordered <= OrderedAfter(c, m.to, n', ordered)
            && OutGood(c, log, m, ordered, OrderedAfter(c, m.to, n', ordered), out)
  {
    hide HomeMid, IsChild, IsNewOrder, OutGood, AcksReceived, Advance;
    var (n1, out1) := OnData(c, n, m);
    DataAtHome(c, log, n, m.gen, m.pos);
    RelayData(c, log, n, m);
    AdvanceHome(c, log, m.to, n1);
    var (n2, out2) := Advance(c, m.to, n1);
    DataReceived(c, log, made, delivered, m, n.local.seen);
    AcksFrame(c, log, delivered, m.to, n.log.seen.acks, m);
    NoNewOrders(c, log, ordered);
    OutCombined(c, log, m, ordered, OrderedAfter(c, m.to, n2, ordered), out1, out2);
  }

  lemma NoNewOrders(c: Cluster, log: seq<Machine>, ordered: nat)
    requires ValidCluster(c)
    ensures forall x :: !IsNewOrder(c, log, x, ordered, ordered)
  {
  }

  lemma DataReceived(c: Cluster, log: seq<Machine>, made: map<Machine, nat>, delivered: multiset<Msg>, m: Msg,
      seen: LocalLogs.Seen<Machine>)
    requires ValidCluster(c) && LocalReceived(c, log, made, delivered, m.to, seen)
    requires m.Data? && GoodMsg(c, log, made, m)
    ensures LocalReceived(c, log, made, delivered + multiset{m}, m.to,
      LocalLogs.WithId(seen, m.gen, m.pos, IdOf(m.gen, m.pos)))
    ensures m !in delivered ==> (m.gen, m.pos) !in seen.ids
  {
    forall i | InMsg(c, log, i, m.to) == m
      ensures i == ItemOf(m)
    {
    }
  }

  lemma OrderReceived(c: Cluster, log: seq<Machine>, made: map<Machine, nat>, delivered: multiset<Msg>, m: Msg,
      seen: LocalLogs.Seen<Machine>)
    requires ValidCluster(c) && LocalReceived(c, log, made, delivered, m.to, seen)
    requires m.LocalOrder? && GoodMsg(c, log, made, m)
    ensures LocalReceived(c, log, made, delivered + multiset{m}, m.to,
      LocalLogs.WithSlot(seen, m.slot, LocalLogs.Choice(m.gen, m.leader)))
    ensures m !in delivered ==> m.slot !in seen.slots
  {
    forall i | InMsg(c, log, i, m.to) == m
      ensures i == ItemOf(m)
    {
    }
  }

  lemma NodeAfterLocalOrder(c: Cluster, log: seq<Machine>, made: map<Machine, nat>, delivered: multiset<Msg>, m: Msg,
      n: Node, ordered: nat)
    requires ValidCluster(c) && HomeLog(c, log) && AtHome(c, m.to) && HomeGood(c, log, made, delivered, m.to, n)
    requires m.LocalOrder? && GoodMsg(c, log, made, m) && m !in delivered
    requires ordered == OrderedAfter(c, m.to, n, ordered)
    ensures var (n', out) := Handle(c, n, m);
            && HomeGood(c, log, made, delivered + multiset{m}, m.to, n') && n'.log.seen.acks == n.log.seen.acks
            && n.log.out <= n'.log.out
            && ordered <= OrderedAfter(c, m.to, n', ordered)
            && OutGood(c, log, m, ordered, OrderedAfter(c, m.to, n', ordered), out)
  {
    hide HomeMid, IsChild, IsNewOrder, OutGood, AcksReceived, Advance;
    var (n1, out1) := OnLocalOrder(c, n, m);
    OrderReceived(c, log, made, delivered, m, n.local.seen);
    OrderAtHome(c, log, n, m.slot);
    RelayLocalOrder(c, log, n, m);
    AdvanceHome(c, log, m.to, n1);
    var (n2, out2) := Advance(c, m.to, n1);
    AcksFrame(c, log, delivered, m.to, n.log.seen.acks, m);
    NoNewOrders(c, log, ordered);
    OutCombined(c, log, m, ordered, OrderedAfter(c, m.to, n2, ordered), out1, out2);
  }

  lemma NodeAfterDataAbroad(c: Cluster, log: seq<Machine>, made: map<Machine, nat>, delivered: multiset<Msg>, m: Msg,
      n: Node, ordered: nat)
    requires ValidCluster(c) && m.to.region != c.home && RemoteGood(c, log, delivered, m.to, n)
    requires m.Data? && GoodMsg(c, log, made, m)
    ensures var (n', out) := Handle(c, n, m);
            && RemoteGood(c, log, delivered + multiset{m}, m.to, n') && n.log.out <= n'.log.out
            && OutGood(c, log, m, ordered, ordered, out)
  {
    hide TraceGood, IsChild, IsNewOrder, OutGood, Advance;
    var (n1, out1) := OnData(c, n, m);
    DataAbroadArrives(n.log, m.id);
    RelayData(c, log, n, m);
    AdvanceRemote(c, m.to, n1);
    NoNewOrders(c, log, ordered);
    OutCombined(c, log, m, ordered, ordered, out1, multiset{});
    assert forall k :: InMsg(c, log, IRemote(k), m.to) != m;
  }

  lemma NodeAfterRemoteOrder(c: Cluster, log: seq<Machine>, made: map<Machine, nat>, delivered: multiset<Msg>,
      m: Msg, n: Node, ordered: nat)
    requires ValidCluster(c) && HomeLog(c, log) && m.to.region != c.home && RemoteGood(c, log, delivered, m.to, n)
    requires m.RemoteOrder? && GoodMsg(c, log, made, m) && m !in delivered
    ensures var (n', out) := Handle(c, n, m);
            && RemoteGood(c, log, delivered + multiset{m}, m.to, n') && n.log.out <= n'.log.out
            && OutGood(c, log, m, ordered, ordered, out)
  {
    hide TraceGood, IsChild, IsNewOrder, OutGood, Advance;
    var (n1, out1) := OnRemoteOrder(c, n, m);
    assert n.log.seen.acks[Target(log, m.slot)] == 0;
    SlotAdded(c, log, n.log, m.slot, 0);
    RelayRemoteOrder(c, log, n, m);
    AdvanceRemote(c, m.to, n1);
    NoNewOrders(c, log, ordered);
    OutCombined(c, log, m, ordered, ordered, out1, multiset{});
    RemoteOrderReceived(c, log, delivered, m, n.log.seen);
  }

  lemma RemoteOrderReceived(c: Cluster, log: seq<Machine>, delivered: multiset<Msg>, m: Msg, seen: BatchLogs.Seen<()>)
    requires ValidCluster(c) && RemoteSlots(c, log, delivered, m.to, seen)
    requires m.RemoteOrder? && m == InMsg(c, log, ItemOf(m), m.to) && m.slot < |log|
    ensures RemoteSlots(c, log, delivered + multiset{m}, m.to,
      BatchLogs.WithOrder(seen, m.slot, Target(log, m.slot), 0))
  {
    forall i | InMsg(c, log, i, m.to) == m
      ensures i == ItemOf(m)
    {
    }
  }

  // ---------------------------------------------------------------------
  // Acks
  // ---------------------------------------------------------------------

  lemma AckedAreAsked(c: Cluster, log: seq<Machine>, delivered: multiset<Msg>, k: nat)
    requires ValidCluster(c)
    ensures AckedBy(c, log, delivered, k) <= Asked(c) && |AckedBy(c, log, delivered, k)| <= |Asked(c)|
  {
    hide NeedAck, Entry, EntryPartition, Target, Asked;
    forall r | r in AckedBy(c, log, delivered, k) ensures r in Asked(c) {
      MarkedAreAsked(c, r);
    }
    SubsetSize(AckedBy(c, log, delivered, k), Asked(c));
  }

  /** At most factor - 1 regions are asked to ack. */
  lemma AckedByBounded(c: Cluster, log: seq<Machine>, delivered: multiset<Msg>, k: nat)
    requires ValidCluster(c)
    ensures |AckedBy(c, log, delivered, k)| <= c.factor - 1
  {
    AckedAreAsked(c, log, delivered, k);
    EnoughAsked(c);
  }

  /** One more ack at the leader adds its region to those that acked the slot, and to no other. */
  lemma AckedByMore(c: Cluster, log: seq<Machine>, made: map<Machine, nat>, delivered: multiset<Msg>, m: Msg, k: nat)
    requires ValidCluster(c) && HomeLog(c, log) && k < |log|
    requires m.Ack? && m.to == LeaderOf(c) && GoodMsg(c, log, made, m) && m !in delivered
    ensures AckedBy(c, log, delivered + multiset{m}, k) ==
      if m.id == Target(log, k) then AckedBy(c, log, delivered, k) + {m.from.region} else AckedBy(c, log, delivered, k)
    ensures m.id == Target(log, k) ==> m.from.region !in AckedBy(c, log, delivered, k)
  {
    hide NeedAck, EntryPartition, Target;
  }

  /** One more region's ack at the leader. */
  lemma LeaderAcked(c: Cluster, log: seq<Machine>, made: map<Machine, nat>, delivered: multiset<Msg>,
      acks: multiset<BatchId>, m: Msg)
    requires ValidCluster(c) && HomeLog(c, log) && AcksReceived(c, log, delivered, LeaderOf(c), acks)
    requires m.Ack? && m.to == LeaderOf(c) && GoodMsg(c, log, made, m) && m !in delivered
    ensures AcksReceived(c, log, delivered + multiset{m}, LeaderOf(c), acks + multiset{m.id})
    ensures AcksBounded(log, acks + multiset{m.id}, c.factor - 1)
  {
    hide NeedAck, EntryPartition, Target, AckedBy;
    forall k: nat | k < |log|
      ensures (acks + multiset{m.id})[Target(log, k)] == |AckedBy(c, log, delivered + multiset{m}, k)|
      ensures |AckedBy(c, log, delivered + multiset{m}, k)| <= c.factor - 1
    {
      AckedByBounded(c, log, delivered + multiset{m}, k);
      AckedByMore(c, log, made, delivered, m, k);
    }
  }

  lemma FollowerAcked(c: Cluster, log: seq<Machine>, made: map<Machine, nat>, delivered: multiset<Msg>,
      acks: multiset<BatchId>, m: Msg,
                      above: multiset<BatchId>)
    requires ValidCluster(c) && AcksReceived(c, log, delivered, m.to, acks)
    requires m.Ack? && m.to != LeaderOf(c) && GoodMsg(c, log, made, m) && delivered[m] < above[m.id]
    requires AcksBounded(log, acks, c.factor - 1) && AcksBounded(log, above, c.factor - 1)
    ensures AcksReceived(c, log, delivered + multiset{m}, m.to, acks + multiset{m.id})
    ensures AcksBounded(log, acks + multiset{m.id}, c.factor - 1)
  {
    assert acks[m.id] == delivered[m];
    forall k: nat | k < |log|
      ensures (acks + multiset{m.id})[Target(log, k)] <= c.factor - 1
    {
      assert acks[Target(log, k)] <= c.factor - 1 && above[Target(log, k)] <= c.factor - 1;
    }
  }

  lemma NodeAfterAck(c: Cluster, log: seq<Machine>, made: map<Machine, nat>, delivered: multiset<Msg>, m: Msg, n: Node)
    requires ValidCluster(c) && HomeLog(c, log) && AtHome(c, m.to) && HomeGood(c, log, made, delivered, m.to, n)
    requires m.Ack? && GoodMsg(c, log, made, m)
    requires AcksReceived(c, log, delivered + multiset{m}, m.to, n.log.seen.acks + multiset{m.id})
    requires AcksBounded(log, n.log.seen.acks + multiset{m.id}, c.factor - 1)
    ensures var (n', out) := Handle(c, n, m);
            && HomeGood(c, log, made, delivered + multiset{m}, m.to, n') &&
              n'.log.seen.acks == n.log.seen.acks + multiset{m.id}
            && n.log.out <= n'.log.out && n'.local.out == n.local.out
            && out == OnAck(c, n, m).1
  {
    hide HomeMid, IsNewOrder, AcksReceived, LocalReceived, AcksBounded, Advance, Relay;
    var (n1, out1) := OnAck(c, n, m);
    AckAtHome(c, log, n, m.id);
    AdvanceHome(c, log, m.to, n1);
    var (n2, out2) := Advance(c, m.to, n1);
    assert n.local.out + [] == n.local.out;
    NoNewOrders(c, log, |n.local.out|);
    assert out2 == multiset{};
    LocalFrame(c, log, made, delivered, m.to, n.local.seen, m);
  }

  lemma AckRootsKept(c: Cluster, log: seq<Machine>, sent: multiset<Msg>, delivered: multiset<Msg>, m: Msg,
      out: multiset<Msg>)
    requires ValidCluster(c) && AckRoots(c, log, sent, delivered) && m.Ack?
    requires forall x :: x in out ==> x.to != LeaderOf(c)
    ensures AckRoots(c, log, sent + out, delivered + multiset{m})
  {
    forall r: nat, k: nat | r < |c.replicas| && NeedAck(c, r) && k < |log|
      ensures (sent + out)[Ack(Entry(c, r), LeaderOf(c), Target(log, k))] ==
        (delivered + multiset{m})[InMsg(c, log, IRemote(k), Entry(c, r))]
    {
      assert Ack(Entry(c, r), LeaderOf(c), Target(log, k)) !in out;
      assert InMsg(c, log, IRemote(k), Entry(c, r)) != m;
    }
  }

  lemma AckEdgesAcked(c: Cluster, log: seq<Machine>, made: map<Machine, nat>, nodes: map<Machine, Node>, n: Node,
      n0: Node, sent: multiset<Msg>, m: Msg)
    requires ValidCluster(c) && AckEdges(c, nodes, sent) && m.Ack? && GoodMsg(c, log, made, m) && m.to in nodes
    requires n.log.seen.acks == nodes[m.to].log.seen.acks + multiset{m.id}
    ensures AckEdges(c, nodes[m.to := n], sent + OnAck(c, n0, m).1)
  {
    RelayAck(c, log, made, n0, m);
  }

  lemma AcksGood(c: Cluster, log: seq<Machine>, made: map<Machine, nat>, n: Node, m: Msg)
    requires ValidCluster(c) && m.Ack? && GoodMsg(c, log, made, m)
    ensures MsgsGood(c, log, made, OnAck(c, n, m).1)
    ensures forall x :: x in OnAck(c, n, m).1 ==> x.Ack? && x.to != LeaderOf(c)
  {
    RelayAck(c, log, made, n, m);
  }
}
