/** Every run of the log system: the steps keep the invariant, and what follows from it. */
module LogSystemRuns {
  import opened Ids
  import opened LogSystem
  import opened LogSystemProofs
  import opened LogSystemSafety
  import Paxos
  import LocalLogs
  import BatchLogs

  lemma GroupValid(c: Cluster)
    requires ValidCluster(c)
    ensures Paxos.ValidConfig(Group(c))
    ensures forall m :: m in Group(c).learners <==> IsLearner(c, m)
    ensures forall m :: m in Group(c).machines <==> AtHome(c, m)
  {
  }

  /** Paxos reports each slot to each learner at most once. */
  lemma PaxosDecidedOnce(c: Cluster, px: Paxos.State<Machine>)
    requires ValidCluster(c) && Paxos.Inv(Group(c), px)
    ensures DecidedOnce(c, px.log, px.delivered)
  {
    forall m, k: nat | k < |px.log| && IsLearner(c, m)
      ensures px.delivered[Decision(c, px.log, m, k)] <= 1
    {
      GroupValid(c);
      var d := Decision(c, px.log, m, k);
      assert px.delivered[d] <= px.sent[d];
      assert m in Group(c).learners;
    }
  }

  /** A tree message in flight was not delivered before. */
  lemma FirstTime(c: Cluster, s: State, m: Msg)
    requires ValidCluster(c) && Inv(c, s) && !m.Ack? && s.delivered[m] < s.sent[m]
    ensures GoodMsg(c, s.px.log, s.made, m) && m !in s.delivered
  {
    hide NodesGood, Paxos.Inv, AckEdges, AckRoots, ProposalsHome, TreeCounts, Concerns, InMsg;
    PaxosDecidedOnce(c, s.px);
    assert m in s.sent;
    AtMostOnce(c, s.px.log, s.made, s.px.delivered, |s.nodes[LeaderOf(c)].local.out|, s.sent, s.delivered, ItemOf(m),
      m.to);
  }

  /** The network after a tree message was delivered and the receiver became n. */
  lemma TreeMsgHandled(c: Cluster, s: State, m: Msg, n: Node, out: multiset<Msg>)
    requires ValidCluster(c) && Inv(c, s) && GoodMsg(c, s.px.log, s.made, m) && !m.Ack? && m.to in s.nodes &&
      s.delivered[m] < s.sent[m]
    requires AtHome(c, m.to) ==>
               HomeGood(c, s.px.log, s.made, s.delivered + multiset{m}, m.to, n) &&
                 n.log.seen.acks == s.nodes[m.to].log.seen.acks
    requires m.to.region != c.home ==> RemoteGood(c, s.px.log, s.delivered + multiset{m}, m.to, n)
    requires var ordered := |s.nodes[LeaderOf(c)].local.out|;
             ordered <= OrderedAfter(c, m.to, n, ordered) &&
               OutGood(c, s.px.log, m, ordered, OrderedAfter(c, m.to, n, ordered), out)
    ensures Inv(c, s.(nodes := s.nodes[m.to := n], sent := s.sent + out, delivered := s.delivered + multiset{m}))
  {
    hide NodesGood, Paxos.Inv, AckEdges, AckRoots, ProposalsHome, TreeCounts, MsgsGood, OutGood, HomeGood,
      RemoteGood, GoodMsg;
    var log, ordered := s.px.log, |s.nodes[LeaderOf(c)].local.out|;
    var ordered' := OrderedAfter(c, m.to, n, ordered);
    var nodes' := s.nodes[m.to := n];
    NodesUpdated(c, log, s.made, s.delivered, s.nodes, m, n);
    OrderedWithinLog(c, log, s.made, s.delivered + multiset{m}, nodes');
    assert |nodes'[LeaderOf(c)].local.out| == ordered';
    OutMsgsGood(c, log, s.made, m, ordered, ordered', out);
    MsgsMore(c, log, s.made, s.sent, out);
    TreeMsgShape(c, log, s.made, m, ordered, ordered', out);
    TreeDelivered(c, log, s.made, s.px.delivered, ordered, ordered', s.sent, s.delivered, ItemOf(m), m.to, out);
    HomeLogOf(c, s.px);
    AckRootsDelivered(c, log, s.made, s.sent, s.delivered, m, ordered, ordered', out);
    AckEdgesDelivered(c, log, s.nodes, nodes', s.sent, m, ordered, ordered', out);
  }

  lemma HomeLogOf(c: Cluster, px: Paxos.State<Machine>)
    requires ProposalsHome(c, px)
    ensures HomeLog(c, px.log)
  {
  }

  lemma TreeMsgShape(c: Cluster, log: seq<Machine>, made: map<Machine, nat>, m: Msg, ordered: nat, ordered': nat,
      out: multiset<Msg>)
    requires ValidCluster(c) && !m.Ack? && GoodMsg(c, log, made, m) && OutGood(c, log, m, ordered, ordered', out)
    ensures Concerns(c, ItemOf(m), m.to) && m == InMsg(c, log, ItemOf(m), m.to)
    ensures Relayed(c, log, ItemOf(m), m.to, ordered, ordered', out)
  {
  }

  lemma OrderedWithinLog(c: Cluster, log: seq<Machine>, made: map<Machine, nat>, delivered: multiset<Msg>,
      nodes: map<Machine, Node>)
    requires ValidCluster(c) && NodesGood(c, log, made, delivered, nodes)
    ensures LeaderOf(c) in nodes && |nodes[LeaderOf(c)].local.out| <= |log|
  {
    assert AtHome(c, LeaderOf(c));
    assert HomeGood(c, log, made, delivered, LeaderOf(c), nodes[LeaderOf(c)]);
  }

  lemma NodeOf(c: Cluster, log: seq<Machine>, made: map<Machine, nat>, delivered: multiset<Msg>,
      nodes: map<Machine, Node>, m: Machine)
    requires ValidCluster(c) && NodesGood(c, log, made, delivered, nodes) && IsMachine(c, m)
    ensures m in nodes
    ensures AtHome(c, m) ==> HomeGood(c, log, made, delivered, m, nodes[m])
    ensures m.region != c.home ==> RemoteGood(c, log, delivered, m, nodes[m])
  {
  }

  lemma DeliverTree(c: Cluster, s: State, m: Msg)
    requires ValidCluster(c) && Inv(c, s) && Enabled(c, s, LogDelivery(m)) && !m.Ack?
    ensures Inv(c, Step(c, s, LogDelivery(m)))
    ensures s.nodes[m.to].log.out <= Step(c, s, LogDelivery(m)).nodes[m.to].log.out
  {
    hide NodesGood, Paxos.Inv, AckEdges, AckRoots, TreeCounts, MsgsGood, OutGood, HomeGood, RemoteGood, Handle;
    var log, n := s.px.log, s.nodes[m.to];
    var ordered := |s.nodes[LeaderOf(c)].local.out|;
    FirstTime(c, s, m);
    NodeOf(c, log, s.made, s.delivered, s.nodes, m.to);
    if m.to.region == c.home {
      if m.Data? {
        NodeAfterData(c, log, s.made, s.delivered, m, n, ordered);
      } else {
        NodeAfterLocalOrder(c, log, s.made, s.delivered, m, n, ordered);
      }
    } else {
      if m.Data? {
        NodeAfterDataAbroad(c, log, s.made, s.delivered, m, n, ordered);
      } else {
        NodeAfterRemoteOrder(c, log, s.made, s.delivered, m, n, ordered);
      }
    }
    var (n', out) := Handle(c, n, m);
    TreeMsgHandled(c, s, m, n', out);
  }

  // ---------------------------------------------------------------------
  // Acks
  // ---------------------------------------------------------------------

  /** An ack in flight to the leader was not delivered before; one to another machine is
      covered by what its sender counted. */
  lemma AckCounted(c: Cluster, s: State, m: Msg)
    requires ValidCluster(c) && Inv(c, s) && m.Ack? && s.delivered[m] < s.sent[m] && m.to in s.nodes
    ensures GoodMsg(c, s.px.log, s.made, m) && AtHome(c, m.to)
    ensures AcksReceived(c, s.px.log, s.delivered + multiset{m}, m.to, s.nodes[m.to].log.seen.acks + multiset{m.id})
    ensures AcksBounded(s.px.log, s.nodes[m.to].log.seen.acks + multiset{m.id}, c.factor - 1)
  {
    hide Paxos.Inv, TreeCounts, HomeMid, LocalReceived, NodesGood, AckEdges, AcksReceived, AcksBounded, RemoteGood;
    var log := s.px.log;
    assert m in s.sent;
    NodeOf(c, log, s.made, s.delivered, s.nodes, m.to);
    if m.to == LeaderOf(c) {
      LeaderAckFirst(c, s, m);
      LeaderAcked(c, log, s.made, s.delivered, s.nodes[m.to].log.seen.acks, m);
    } else {
      var up := AckFrom(c, m.to);
      assert AtHome(c, up);
      NodeOf(c, log, s.made, s.delivered, s.nodes, up);
      EdgeCount(c, s.nodes, s.sent, m);
      BoundedAt(c, log, s.nodes[up]);
      BoundedAt(c, log, s.nodes[m.to]);
      FollowerAcked(c, log, s.made, s.delivered, s.nodes[m.to].log.seen.acks, m, s.nodes[up].log.seen.acks);
    }
  }

  lemma BoundedAt(c: Cluster, log: seq<Machine>, n: Node)
    requires HomeMid(c, log, n)
    ensures AcksBounded(log, n.log.seen.acks, c.factor - 1)
  {
  }

  lemma EdgeCount(c: Cluster, nodes: map<Machine, Node>, sent: multiset<Msg>, m: Msg)
    requires AckEdges(c, nodes, sent) && m.Ack? && AtHome(c, m.to) && m.to != LeaderOf(c) &&
      m.from == AckFrom(c, m.to) && m.from in nodes
    ensures sent[m] == nodes[m.from].log.seen.acks[m.id]
  {
  }

  lemma LeaderAckFirst(c: Cluster, s: State, m: Msg)
    requires ValidCluster(c) && Inv(c, s) && m.Ack? && m.to == LeaderOf(c) && GoodMsg(c, s.px.log, s.made, m) &&
      s.delivered[m] < s.sent[m]
    ensures m !in s.delivered
  {
    hide Paxos.Inv, TreeCounts, NodesGood, AckEdges, MsgsGood, Target, InMsg;
    var log, r := s.px.log, m.from.region;
    var k: nat :| k < |log| && m.id == Target(log, k);
    var order := InMsg(c, log, IRemote(k), Entry(c, r));
    assert s.sent[m] == s.delivered[order];
    PaxosDecidedOnce(c, s.px);
    PartitionInRange(c, LeaderOf(c), 0, Entry(c, r));
    AtMostOnce(c, log, s.made, s.px.delivered, |s.nodes[LeaderOf(c)].local.out|, s.sent, s.delivered, IRemote(k),
      Entry(c, r));
    assert s.delivered[order] <= s.sent[order];
  }

  lemma DeliverAck(c: Cluster, s: State, m: Msg)
    requires ValidCluster(c) && Inv(c, s) && Enabled(c, s, LogDelivery(m)) && m.Ack?
    ensures Inv(c, Step(c, s, LogDelivery(m)))
    ensures s.nodes[m.to].log.out <= Step(c, s, LogDelivery(m)).nodes[m.to].log.out
  {
    hide NodesGood, Paxos.Inv, AckEdges, AckRoots, TreeCounts, MsgsGood, HomeGood, RemoteGood, GoodMsg, AcksReceived,
      AcksBounded, OnAck;
    var log, n := s.px.log, s.nodes[m.to];
    NodeOf(c, log, s.made, s.delivered, s.nodes, m.to);
    AckCounted(c, s, m);
    NodeAfterAck(c, log, s.made, s.delivered, m, n);
    var (n', out) := Handle(c, n, m);
    NodesUpdated(c, log, s.made, s.delivered, s.nodes, m, n');
    AcksGood(c, log, s.made, n, m);
    MsgsMore(c, log, s.made, s.sent, out);
    TreeSame(c, log, s.made, s.px.delivered, |s.nodes[LeaderOf(c)].local.out|, s.sent, s.delivered, out, m);
    AckRootsKept(c, log, s.sent, s.delivered, m, out);
    AckEdgesAcked(c, log, s.made, s.nodes, n', n, s.sent, m);
    assert AtHome(c, LeaderOf(c));
  }

  // ---------------------------------------------------------------------
  // Steps of Paxos
  // ---------------------------------------------------------------------

  /** A slot reported to a learner starts its tree there. */
  lemma TreeDecided(c: Cluster, log: seq<Machine>, made: map<Machine, nat>, decided: multiset<Paxos.Msg<Machine>>,
                    ordered: nat, sent: multiset<Msg>, delivered: multiset<Msg>, m: Machine, k: nat)
    requires ValidCluster(c) && TreeCounts(c, log, made, decided, ordered, sent, delivered)
    requires IsLearner(c, m) && k < |log|
    ensures TreeCounts(c, log, made, decided + multiset{Decision(c, log, m, k)}, ordered,
                       sent + multiset{InMsg(c, log, ILocal(k), m)}, delivered)
  {
    var decided' := decided + multiset{Decision(c, log, m, k)};
    var msg := InMsg(c, log, ILocal(k), m);
    forall i', m' | Concerns(c, i', m') && Known(log, made, i')
      ensures (sent + multiset{msg})[InMsg(c, log, i', m')] == Supply(c, log, decided', ordered, delivered, i', m')
    {
      var x := InMsg(c, log, i', m');
      assert ItemOf(x) == i' && x.to == m' && ItemOf(msg) == ILocal(k) && msg.to == m;
      assert sent[x] == Supply(c, log, decided, ordered, delivered, i', m');
    }
  }

  lemma TreeUndecided(c: Cluster, log: seq<Machine>, made: map<Machine, nat>, decided: multiset<Paxos.Msg<Machine>>,
                      ordered: nat, sent: multiset<Msg>, delivered: multiset<Msg>, p: Paxos.Msg<Machine>)
    requires ValidCluster(c) && TreeCounts(c, log, made, decided, ordered, sent, delivered) && !p.Commit?
    ensures TreeCounts(c, log, made, decided + multiset{p}, ordered, sent, delivered)
  {
    forall i', m' | Concerns(c, i', m') && Known(log, made, i')
      ensures sent[InMsg(c, log, i', m')] == Supply(c, log, decided + multiset{p}, ordered, delivered, i', m')
    {
      assert sent[InMsg(c, log, i', m')] == Supply(c, log, decided, ordered, delivered, i', m');
    }
  }

  lemma PaxosMsgGood(c: Cluster, px: Paxos.State<Machine>, p: Paxos.Msg<Machine>)
    requires ValidCluster(c) && Paxos.Inv(Group(c), px) && p in px.sent
    ensures Paxos.GoodMsg(Group(c), px.log, p)
  {
  }

  lemma PaxosCommits(c: Cluster, s: State, p: Paxos.Msg<Machine>)
    requires ValidCluster(c) && Inv(c, s) && Enabled(c, s, PaxosDelivery(p)) && p.Commit?
    ensures Inv(c, Step(c, s, PaxosDelivery(p)))
  {
    hide NodesGood, Paxos.Inv, AckEdges, AckRoots, TreeCounts;
    GroupValid(c);
    PaxosMsgGood(c, s.px, p);
    var log, msg := s.px.log, InMsg(c, s.px.log, ILocal(p.slot), p.to);
    assert IsLearner(c, p.to) && p == Decision(c, log, p.to, p.slot);
    assert msg == LocalOrder(p.to, p.to, p.slot, p.value, p.leader);
    TreeDecided(c, log, s.made, s.px.delivered, |s.nodes[LeaderOf(c)].local.out|, s.sent, s.delivered, p.to, p.slot);
    Paxos.StepInv(Group(c), s.px, Paxos.EvDeliver(p));
    AckRootsMore(c, log, s.sent, s.delivered, msg);
    AckEdgesMore(c, s.nodes, s.sent, multiset{msg});
  }

  lemma AckRootsMore(c: Cluster, log: seq<Machine>, sent: multiset<Msg>, delivered: multiset<Msg>, msg: Msg)
    requires ValidCluster(c) && AckRoots(c, log, sent, delivered) && !msg.Ack?
    ensures AckRoots(c, log, sent + multiset{msg}, delivered)
  {
  }

  lemma AckEdgesMore(c: Cluster, nodes: map<Machine, Node>, sent: multiset<Msg>, out: multiset<Msg>)
    requires AckEdges(c, nodes, sent) && forall x :: x in out ==> !x.Ack?
    ensures AckEdges(c, nodes, sent + out)
  {
    forall m, id | AtHome(c, m) && m != LeaderOf(c) && AckFrom(c, m) in nodes
      ensures (sent + out)[Ack(AckFrom(c, m), m, id)] == nodes[AckFrom(c, m)].log.seen.acks[id]
    {
      assert Ack(AckFrom(c, m), m, id) !in out;
    }
  }

  lemma PaxosTalks(c: Cluster, s: State, p: Paxos.Msg<Machine>)
    requires ValidCluster(c) && Inv(c, s) && Enabled(c, s, PaxosDelivery(p)) && !p.Commit? &&
      !(p.Propose? && p.to == LeaderOf(c))
    ensures Inv(c, Step(c, s, PaxosDelivery(p)))
  {
    hide NodesGood, Paxos.Inv, AckEdges, AckRoots, TreeCounts, MsgsGood;
    GroupValid(c);
    TreeUndecided(c, s.px.log, s.made, s.px.delivered, |s.nodes[LeaderOf(c)].local.out|, s.sent, s.delivered, p);
    Paxos.StepInv(Group(c), s.px, Paxos.EvDeliver(p));
    assert s.sent + multiset{} == s.sent;
  }

  // ---------------------------------------------------------------------
  // One more slot agreed on
  // ---------------------------------------------------------------------

  lemma InMsgKept(c: Cluster, log: seq<Machine>, v: Machine, i: Item, m: Machine)
    requires ValidCluster(c) && (i.ILocal? || i.IRemote? ==> i.slot < |log|)
    ensures InMsg(c, log + [v], i, m) == InMsg(c, log, i, m)
  {
    if i.IRemote? {
      TargetKept(log, v, i.slot);
    }
  }

  lemma FreshId(c: Cluster, log: seq<Machine>, v: Machine)
    requires ValidCluster(c) && HomeLog(c, log + [v])
    ensures !IsTarget(log, Target(log + [v], |log|))
  {
    forall k: nat | k < |log|
      ensures Target(log, k) != Target(log + [v], |log|)
    {
      TargetKept(log, v, k);
      TargetInjective(c, log + [v], k, |log|);
    }
  }

  lemma TargetsKept(log: seq<Machine>, v: Machine)
    ensures forall id :: IsTarget(log, id) ==> IsTarget(log + [v], id)
    ensures forall k: nat :: k < |log| ==> Target(log + [v], k) == Target(log, k)
  {
    forall k: nat | k < |log|
      ensures Target(log + [v], k) == Target(log, k)
    {
      TargetKept(log, v, k);
    }
  }

  lemma MsgsGoodLonger(c: Cluster, log: seq<Machine>, made: map<Machine, nat>, sent: multiset<Msg>, v: Machine)
    requires ValidCluster(c) && MsgsGood(c, log, made, sent)
    ensures MsgsGood(c, log + [v], made, sent)
  {
    TargetsKept(log, v);
    forall m | m in sent
      ensures GoodMsg(c, log + [v], made, m)
    {
      assert GoodMsg(c, log, made, m);
      if !m.Ack? {
        InMsgKept(c, log, v, ItemOf(m), m.to);
      }
    }
  }

  /** Nothing was sent yet for a slot not agreed on. */
  lemma NothingYet(c: Cluster, log: seq<Machine>, made: map<Machine, nat>, sent: multiset<Msg>, m: Msg)
    requires ValidCluster(c) && MsgsGood(c, log, made, sent) && !m.Ack? && !Known(log, made, ItemOf(m))
    ensures m !in sent
  {
    assert !GoodMsg(c, log, made, m);
  }

  lemma TreeLonger(c: Cluster, log: seq<Machine>, made: map<Machine, nat>, px: Paxos.State<Machine>,
                   ordered: nat, sent: multiset<Msg>, delivered: multiset<Msg>, v: Machine)
    requires ValidCluster(c) && TreeCounts(c, log, made, px.delivered, ordered, sent, delivered)
    requires MsgsGood(c, log, made, sent) && delivered <= sent && ordered <= |log|
    requires px.log == log && Paxos.Inv(Group(c), px)
    ensures TreeCounts(c, log + [v], made, px.delivered, ordered, sent, delivered)
  {
    hide Paxos.Inv, MsgsGood, InMsg, Supply;
    var log' := log + [v];
    forall i, m | Concerns(c, i, m) && Known(log', made, i)
      ensures sent[InMsg(c, log', i, m)] == Supply(c, log', px.delivered, ordered, delivered, i, m)
    {
      if Known(log, made, i) {
        InMsgKept(c, log, v, i, m);
        SupplyKept(c, log, px.delivered, ordered, delivered, v, i, m);
        assert sent[InMsg(c, log, i, m)] == Supply(c, log, px.delivered, ordered, delivered, i, m);
      } else {
        NewSlotUnsent(c, log, made, px, ordered, sent, delivered, v, i, m);
      }
    }
  }

  lemma SupplyKept(c: Cluster, log: seq<Machine>, decided: multiset<Paxos.Msg<Machine>>, ordered: nat,
      delivered: multiset<Msg>, v: Machine, i: Item, m: Machine)
    requires ValidCluster(c) && (i.ILocal? || i.IRemote? ==> i.slot < |log|)
    ensures Supply(c, log + [v], decided, ordered, delivered, i, m) == Supply(c, log, decided, ordered, delivered, i, m)
  {
    hide InMsg, Source;
    InMsgKept(c, log, v, i, Source(c, i, m));
  }

  lemma NewSlotUnsent(c: Cluster, log: seq<Machine>, made: map<Machine, nat>, px: Paxos.State<Machine>, ordered: nat,
      sent: multiset<Msg>, delivered: multiset<Msg>, v: Machine, i: Item, m: Machine)
    requires ValidCluster(c) && MsgsGood(c, log, made, sent) && delivered <= sent && ordered <= |log|
    requires px.log == log && Paxos.Inv(Group(c), px)
    requires Concerns(c, i, m) && Known(log + [v], made, i) && !Known(log, made, i)
    ensures sent[InMsg(c, log + [v], i, m)] == Supply(c, log + [v], px.delivered, ordered, delivered, i, m) == 0
  {
    hide Paxos.Inv, MsgsGood, Source;
    var x, up := InMsg(c, log + [v], i, m), InMsg(c, log + [v], i, Source(c, i, m));
    assert ItemOf(x) == i && ItemOf(up) == i;
    NothingYet(c, log, made, sent, x);
    NothingYet(c, log, made, sent, up);
    assert delivered[up] <= sent[up];
    NotDecided(c, px, m, v);
  }

  lemma NotDecided(c: Cluster, px: Paxos.State<Machine>, m: Machine, v: Machine)
    requires ValidCluster(c) && Paxos.Inv(Group(c), px)
    ensures Decision(c, px.log + [v], m, |px.log|) !in px.delivered
  {
    var d := Decision(c, px.log + [v], m, |px.log|);
    assert !Paxos.GoodMsg(Group(c), px.log, d);
    assert px.delivered[d] <= px.sent[d];
  }

  lemma AckRootsLonger(c: Cluster, log: seq<Machine>, made: map<Machine, nat>, sent: multiset<Msg>,
      delivered: multiset<Msg>, v: Machine)
    requires ValidCluster(c) && HomeLog(c, log + [v]) && AckRoots(c, log, sent, delivered)
    requires MsgsGood(c, log, made, sent) && delivered <= sent
    ensures AckRoots(c, log + [v], sent, delivered)
  {
    hide MsgsGood, InMsg, Target, Entry, NeedAck;
    var log' := log + [v];
    forall r: nat, k: nat | r < |c.replicas| && NeedAck(c, r) && k < |log'|
      ensures sent[Ack(Entry(c, r), LeaderOf(c), Target(log', k))] == delivered[InMsg(c, log', IRemote(k), Entry(c, r))]
    {
      if k < |log| {
        TargetKept(log, v, k);
        InMsgKept(c, log, v, IRemote(k), Entry(c, r));
      } else {
        NewSlotUnacked(c, log, made, sent, delivered, v, r);
      }
    }
  }

  lemma NewSlotUnacked(c: Cluster, log: seq<Machine>, made: map<Machine, nat>, sent: multiset<Msg>,
      delivered: multiset<Msg>, v: Machine, r: nat)
    requires ValidCluster(c) && HomeLog(c, log + [v]) && MsgsGood(c, log, made, sent) && delivered <= sent
    ensures sent[Ack(Entry(c, r), LeaderOf(c), Target(log + [v], |log|))] == 0
    ensures delivered[InMsg(c, log + [v], IRemote(|log|), Entry(c, r))] == 0
  {
    hide Target, Entry;
    var order, ack := InMsg(c, log + [v], IRemote(|log|), Entry(c, r)),
      Ack(Entry(c, r), LeaderOf(c), Target(log + [v], |log|));
    FreshId(c, log, v);
    assert !GoodMsg(c, log, made, ack);
    NothingYet(c, log, made, sent, order);
    assert delivered[order] <= sent[order];
  }

  lemma HomeMidLonger(c: Cluster, log: seq<Machine>, n: Node, v: Machine)
    requires ValidCluster(c) && HomeLog(c, log + [v]) && HomeMid(c, log, n)
    requires forall id :: id in n.log.seen.acks ==> IsTarget(log, id)
    ensures HomeMid(c, log + [v], n)
  {
    hide LocalLogs.Inv, TraceGood, Target;
    TargetsKept(log, v);
    FreshId(c, log, v);
    var id := Target(log + [v], |log|);
    assert id !in n.log.seen.acks;
    assert n.log.seen.acks[id] == 0;
  }

  lemma LocalReceivedLonger(c: Cluster, log: seq<Machine>, made: map<Machine, nat>, sent: multiset<Msg>,
      delivered: multiset<Msg>,
                            m: Machine, seen: LocalLogs.Seen<Machine>, v: Machine)
    requires ValidCluster(c) && LocalReceived(c, log, made, delivered, m, seen)
    requires MsgsGood(c, log, made, sent) && delivered <= sent
    ensures LocalReceived(c, log + [v], made, delivered, m, seen)
  {
    var log' := log + [v];
    forall i: Item
      ensures i.IData? || i.slot < |log| ==> InMsg(c, log', i, m) == InMsg(c, log, i, m)
      ensures i.ILocal? && i.slot == |log| ==> InMsg(c, log', i, m) !in delivered
    {
      if i.IData? || i.slot < |log| {
        InMsgKept(c, log, v, i, m);
      } else if i.ILocal? {
        var x := InMsg(c, log', i, m);
        NothingYet(c, log, made, sent, x);
        assert delivered[x] <= sent[x];
      }
    }
  }

  lemma AcksReceivedLonger(c: Cluster, log: seq<Machine>, made: map<Machine, nat>, sent: multiset<Msg>,
      delivered: multiset<Msg>,
                           m: Machine, acks: multiset<BatchId>, v: Machine)
    requires ValidCluster(c) && HomeLog(c, log + [v]) && AcksReceived(c, log, delivered, m, acks)
    requires MsgsGood(c, log, made, sent) && delivered <= sent
    ensures AcksReceived(c, log + [v], delivered, m, acks)
  {
    hide Target, NeedAck;
    var log' := log + [v];
    TargetsKept(log, v);
    FreshId(c, log, v);
    if m == LeaderOf(c) {
      var id := Target(log', |log|);
      assert AckedBy(c, log', delivered, |log|) == {} by {
        forall r: nat | r < |c.replicas|
          ensures Ack(Entry(c, r), LeaderOf(c), id) !in delivered
        {
          var x := Ack(Entry(c, r), LeaderOf(c), id);
          assert !GoodMsg(c, log, made, x) && delivered[x] <= sent[x];
        }
      }
      forall k: nat | k < |log|
        ensures AckedBy(c, log', delivered, k) == AckedBy(c, log, delivered, k)
      {
      }
    }
  }

  lemma RemoteSlotsLonger(c: Cluster, log: seq<Machine>, made: map<Machine, nat>, sent: multiset<Msg>,
      delivered: multiset<Msg>,
                          m: Machine, seen: BatchLogs.Seen<()>, v: Machine)
    requires ValidCluster(c) && RemoteSlots(c, log, delivered, m, seen)
    requires MsgsGood(c, log, made, sent) && delivered <= sent
    ensures RemoteSlots(c, log + [v], delivered, m, seen)
  {
    hide Target;
    var log' := log + [v];
    TargetsKept(log, v);
    forall k: nat | k <= |log|
      ensures k < |log| ==> InMsg(c, log', IRemote(k), m) == InMsg(c, log, IRemote(k), m)
      ensures k == |log| ==> InMsg(c, log', IRemote(k), m) !in delivered
    {
      var x := InMsg(c, log', IRemote(k), m);
      if k < |log| {
        InMsgKept(c, log, v, IRemote(k), m);
      } else {
        NothingYet(c, log, made, sent, x);
        assert delivered[x] <= sent[x];
      }
    }
  }

  lemma NodesLonger(c: Cluster, log: seq<Machine>, made: map<Machine, nat>, sent: multiset<Msg>,
      delivered: multiset<Msg>, nodes: map<Machine, Node>, v: Machine)
    requires ValidCluster(c) && HomeLog(c, log + [v]) && NodesGood(c, log, made, delivered, nodes)
    requires MsgsGood(c, log, made, sent) && delivered <= sent
    ensures NodesGood(c, log + [v], made, delivered, nodes)
  {
    hide HomeMid, LocalReceived, RemoteSlots, TraceGood, MsgsGood;
    forall m | AtHome(c, m)
      ensures m in nodes && HomeGood(c, log + [v], made, delivered, m, nodes[m])
    {
      HomeMidLonger(c, log, nodes[m], v);
      LocalReceivedLonger(c, log, made, sent, delivered, m, nodes[m].local.seen, v);
      AcksReceivedLonger(c, log, made, sent, delivered, m, nodes[m].log.seen.acks, v);
    }
    forall m | IsMachine(c, m) && m.region != c.home
      ensures m in nodes && RemoteGood(c, log + [v], delivered, m, nodes[m])
    {
      RemoteSlotsLonger(c, log, made, sent, delivered, m, nodes[m].log.seen, v);
    }
  }

  lemma PaxosOpens(c: Cluster, s: State, p: Paxos.Msg<Machine>)
    requires ValidCluster(c) && Inv(c, s) && Enabled(c, s, PaxosDelivery(p)) && p.Propose? && p.to == LeaderOf(c)
    ensures Inv(c, Step(c, s, PaxosDelivery(p)))
  {
    hide NodesGood, Paxos.Inv, AckEdges, AckRoots, TreeCounts, MsgsGood;
    var log, log' := s.px.log, s.px.log + [p.value];
    GroupValid(c);
    assert AtHome(c, p.value);
    assert HomeLog(c, log');
    OrderedWithinLog(c, log, s.made, s.delivered, s.nodes);
    var ordered := |s.nodes[LeaderOf(c)].local.out|;
    TreeLonger(c, log, s.made, s.px, ordered, s.sent, s.delivered, p.value);
    TreeUndecided(c, log', s.made, s.px.delivered, ordered, s.sent, s.delivered, p);
    AckRootsLonger(c, log, s.made, s.sent, s.delivered, p.value);
    NodesLonger(c, log, s.made, s.sent, s.delivered, s.nodes, p.value);
    MsgsGoodLonger(c, log, s.made, s.sent, p.value);
    Paxos.StepInv(Group(c), s.px, Paxos.EvDeliver(p));
    assert s.sent + multiset{} == s.sent;
  }

  // ---------------------------------------------------------------------
  // A new batch
  // ---------------------------------------------------------------------

  ghost predicate IsDataRoot(c: Cluster, log: seq<Machine>, i: Item, x: Msg)
    requires ValidCluster(c)
  {
    x.Data? && ItemOf(x) == i && Concerns(c, i, x.to) && IsRoot(c, i, x.to) && x == InMsg(c, log, i, x.to)
  }

  /** The sequencer sends the batch to exactly the roots of its trees. */
  lemma DataAbroadCounts(c: Cluster, log: seq<Machine>, g: Machine, pos: nat)
    requires ValidCluster(c) && AtHome(c, g)
    ensures forall x :: DataAbroad(c, g, pos)[x] == if IsDataRoot(c, log, IData(g, pos), x) then 1 else 0
  {
    forall x: Msg
      ensures DataAbroad(c, g, pos)[x] == if IsDataRoot(c, log, IData(g, pos), x) then 1 else 0
    {
      PartitionInRange(c, g, pos, x.to);
      if x.Data? && x.to.region == c.home {
        assert DataPartition(c, g, pos, Machine(c.home, x.to.replica, 0)) == DataPartition(c, g, pos, x.to);
      }
      if x.Data? && x.to.region != c.home {
        assert DataPartition(c, g, pos, Machine(x.to.region, 0, 0)) == DataPartition(c, g, pos, x.to);
      }
    }
  }

  lemma TreeMade(c: Cluster, log: seq<Machine>, made: map<Machine, nat>, decided: multiset<Paxos.Msg<Machine>>,
                 ordered: nat, sent: multiset<Msg>, delivered: multiset<Msg>, g: Machine)
    requires ValidCluster(c) && TreeCounts(c, log, made, decided, ordered, sent, delivered)
    requires MsgsGood(c, log, made, sent) && delivered <= sent && AtHome(c, g) && g in made
    ensures TreeCounts(c, log, made[g := made[g] + 1], decided, ordered, sent + DataAbroad(c, g, made[g]), delivered)
  {
    hide MsgsGood, DataAbroad;
    var item := IData(g, made[g]);
    DataAbroadCounts(c, log, g, made[g]);
    forall i, m | Concerns(c, i, m) && Known(log, made[g := made[g] + 1], i)
      ensures (sent + DataAbroad(c, g, made[g]))[InMsg(c, log, i, m)] ==
        Supply(c, log, decided, ordered, delivered, i, m)
    {
      var x, up := InMsg(c, log, i, m), InMsg(c, log, i, Source(c, i, m));
      assert ItemOf(x) == i && x.to == m && ItemOf(up) == i;
      if i == item {
        NothingYet(c, log, made, sent, x);
        NothingYet(c, log, made, sent, up);
        assert delivered[up] <= sent[up];
      } else {
        assert sent[x] == Supply(c, log, decided, ordered, delivered, i, m);
      }
    }
  }

  lemma MsgsMade(c: Cluster, log: seq<Machine>, made: map<Machine, nat>, sent: multiset<Msg>, g: Machine)
    requires ValidCluster(c) && MsgsGood(c, log, made, sent) && AtHome(c, g) && g in made
    ensures MsgsGood(c, log, made[g := made[g] + 1], sent + DataAbroad(c, g, made[g]))
    ensures forall x :: x in DataAbroad(c, g, made[g]) ==> !x.Ack?
  {
    hide DataAbroad;
    DataAbroadCounts(c, log, g, made[g]);
    forall m | m in sent
      ensures GoodMsg(c, log, made[g := made[g] + 1], m)
    {
      assert GoodMsg(c, log, made, m);
    }
  }

  lemma NodesMade(c: Cluster, log: seq<Machine>, made: map<Machine, nat>, sent: multiset<Msg>,
      delivered: multiset<Msg>, nodes: map<Machine, Node>, g: Machine)
    requires ValidCluster(c) && NodesGood(c, log, made, delivered, nodes)
    requires MsgsGood(c, log, made, sent) && delivered <= sent && AtHome(c, g) && g in made
    ensures NodesGood(c, log, made[g := made[g] + 1], delivered, nodes)
  {
    hide HomeMid, RemoteGood, MsgsGood, AcksReceived;
    var made' := made[g := made[g] + 1];
    forall m | AtHome(c, m)
      ensures m in nodes && HomeGood(c, log, made', delivered, m, nodes[m])
    {
      var x := InMsg(c, log, IData(g, made[g]), m);
      NothingYet(c, log, made, sent, x);
      assert delivered[x] <= sent[x];
      assert HomeGood(c, log, made, delivered, m, nodes[m]);
    }
  }

  lemma MakeInv(c: Cluster, s: State, g: Machine)
    requires ValidCluster(c) && Inv(c, s) && Enabled(c, s, Make(g))
    ensures Inv(c, Step(c, s, Make(g)))
  {
    hide NodesGood, Paxos.Inv, AckEdges, AckRoots, TreeCounts, MsgsGood, DataAbroad;
    GroupValid(c);
    var out := DataAbroad(c, g, s.made[g]);
    Paxos.SubmitInv(Group(c), s.px, g, g);
    TreeMade(c, s.px.log, s.made, s.px.delivered, |s.nodes[LeaderOf(c)].local.out|, s.sent, s.delivered, g);
    MsgsMade(c, s.px.log, s.made, s.sent, g);
    NodesMade(c, s.px.log, s.made, s.sent, s.delivered, s.nodes, g);
    AckRootsBulk(c, s.px.log, s.sent, s.delivered, out);
    AckEdgesMore(c, s.nodes, s.sent, out);
  }

  lemma AckRootsBulk(c: Cluster, log: seq<Machine>, sent: multiset<Msg>, delivered: multiset<Msg>, out: multiset<Msg>)
    requires ValidCluster(c) && AckRoots(c, log, sent, delivered) && forall x :: x in out ==> !x.Ack?
    ensures AckRoots(c, log, sent + out, delivered)
  {
    forall r: nat, k: nat | r < |c.replicas| && NeedAck(c, r) && k < |log|
      ensures (sent + out)[Ack(Entry(c, r), LeaderOf(c), Target(log, k))] ==
        delivered[InMsg(c, log, IRemote(k), Entry(c, r))]
    {
      assert Ack(Entry(c, r), LeaderOf(c), Target(log, k)) !in out;
    }
  }

  lemma EmptyNodeGood(c: Cluster, made: map<Machine, nat>, m: Machine)
    requires ValidCluster(c) && IsMachine(c, m) && forall g :: g in made ==> made[g] == 0
    ensures m.region == c.home ==> HomeGood(c, [], made, multiset{}, m, EmptyNode())
    ensures m.region != c.home ==> RemoteGood(c, [], multiset{}, m, EmptyNode())
  {
    hide Concerns, IsRoot, Source, NeedAck;
    assert !BatchLogs.Complete(EmptyNode().log.seen, 0);
    assert TraceGood(EmptyNode().log);
  }

  lemma InitInv(c: Cluster)
    requires ValidCluster(c)
    ensures Inv(c, Init(c))
  {
    hide HomeGood, RemoteGood, Paxos.Inv, EmptyNode, InMsg, Supply;
    GroupValid(c);
    Paxos.InitInv<Machine>(Group(c));
    var s := Init(c);
    forall m | IsMachine(c, m)
      ensures m in s.nodes && s.nodes[m] == EmptyNode()
    {
    }
    assert s.nodes[LeaderOf(c)] == EmptyNode();
    assert NodesGood(c, [], s.made, multiset{}, s.nodes) by {
      forall m | IsMachine(c, m)
        ensures m.region == c.home ==> HomeGood(c, [], s.made, multiset{}, m, s.nodes[m])
        ensures m.region != c.home ==> RemoteGood(c, [], multiset{}, m, s.nodes[m])
      {
        EmptyNodeGood(c, s.made, m);
      }
    }
    InitNet(c, s);
  }

  lemma InitNet(c: Cluster, s: State)
    requires ValidCluster(c) && s == Init(c) && LeaderOf(c) in s.nodes && s.nodes[LeaderOf(c)] == EmptyNode()
    requires forall m :: AtHome(c, m) ==> m in s.nodes && s.nodes[m] == EmptyNode()
    ensures TreeCounts(c, [], s.made, multiset{}, |s.nodes[LeaderOf(c)].local.out|, multiset{}, multiset{})
    ensures AckEdges(c, s.nodes, multiset{})
  {
    forall i, m | Concerns(c, i, m)
      ensures !Known([], s.made, i)
    {
    }
    forall m | AtHome(c, m) && m != LeaderOf(c)
      ensures AtHome(c, AckFrom(c, m))
    {
    }
  }

  lemma StepInv(c: Cluster, s: State, e: Event)
    requires ValidCluster(c) && Inv(c, s) && Enabled(c, s, e)
    ensures Inv(c, Step(c, s, e))
  {
    hide Inv, Step;
    match e
    case Make(g) => MakeInv(c, s, g);
    case PaxosDelivery(p) =>
      if p.Commit? { PaxosCommits(c, s, p); }
      else if p.Propose? && p.to == LeaderOf(c) { PaxosOpens(c, s, p); }
      else { PaxosTalks(c, s, p); }
    case LogDelivery(m) =>
      if m.Ack? { DeliverAck(c, s, m); } else { DeliverTree(c, s, m); }
  }

  // ---------------------------------------------------------------------
  // Main results, over every run
  // ---------------------------------------------------------------------

  ghost predicate IsRun(c: Cluster, states: seq<State>, events: seq<Event>)
    requires ValidCluster(c)
  {
    && |states| == |events| + 1 && states[0] == Init(c)
    && (forall i ::
      0 <= i < |events| ==> Enabled(c, states[i], events[i]) && states[i + 1] == Step(c, states[i], events[i]))
  }

  lemma {:induction false} RunInv(c: Cluster, states: seq<State>, events: seq<Event>, i: nat)
    requires ValidCluster(c) && IsRun(c, states, events) && i < |states|
    ensures Inv(c, states[i])
  {
    hide Inv, Enabled, Step;
    if i == 0 {
      InitInv(c);
    } else {
      RunInv(c, states, events, i - 1);
      StepInv(c, states[i - 1], events[i - 1]);
    }
  }

  lemma {:induction false} AgreedGrows(c: Cluster, states: seq<State>, events: seq<Event>, i: nat, j: nat)
    requires ValidCluster(c) && IsRun(c, states, events) && i <= j < |states|
    ensures states[i].px.log <= states[j].px.log
    decreases j
  {
    hide Enabled, Step;
    if i < j {
      AgreedGrows(c, states, events, i, j - 1);
      StepAgrees(c, states[j - 1], events[j - 1]);
    }
  }

  lemma StepAgrees(c: Cluster, s: State, e: Event)
    requires ValidCluster(c) && Enabled(c, s, e)
    ensures s.px.log <= Step(c, s, e).px.log
  {
    hide Handle, DataAbroad, Group, Paxos.Handle, Paxos.Completes;
  }

  lemma {:induction false} TargetStable(log: seq<Machine>, log': seq<Machine>, k: nat)
    requires log <= log' && k < |log|
    ensures Target(log', k) == Target(log, k)
    decreases |log'|
  {
    if |log| < |log'| {
      var shorter := log'[..|log'| - 1];
      TargetStable(log, shorter, k);
      TargetKept(shorter, log'[|log'| - 1], k);
      assert shorter + [log'[|log'| - 1]] == log';
    } else {
      assert log == log';
    }
  }

  /** The batch ids machine m has emitted for the home region, in order. */
  function Emitted(s: State, m: Machine): seq<BatchId>
    requires m in s.nodes
  {
    seq(|s.nodes[m].log.out|, k requires 0 <= k < |s.nodes[m].log.out| => s.nodes[m].log.out[k].1)
  }

  lemma EmittedAreSlots(t: BatchLogs.Trace<()>)
    requires TraceGood(t)
    ensures forall k :: 0 <= k < |t.out| ==> k in t.seen.slots && t.out[k] == (k, t.seen.slots[k])
  {
    assert forall k :: 0 <= k < |t.out| ==> (t.out + t.log.ready)[k] == t.out[k];
  }

  lemma EmittedAreAgreed(log: seq<Machine>, t: BatchLogs.Trace<()>)
    requires TraceGood(t) && forall k :: k in t.seen.slots ==> k < |log| && t.seen.slots[k] == Target(log, k)
    ensures |t.out| <= |log| && forall k :: 0 <= k < |t.out| ==> t.out[k].1 == Target(log, k)
  {
    hide Target, TraceGood;
    EmittedAreSlots(t);
    assert |t.out| > 0 ==> |t.out| - 1 in t.seen.slots;
  }

  /** Everything emitted anywhere is a prefix of one sequence: the batches of the agreed slots. */
  lemma EmitsAgreedPrefix(c: Cluster, s: State, m: Machine)
    requires ValidCluster(c) && Inv(c, s) && IsMachine(c, m)
    ensures m in s.nodes && |Emitted(s, m)| <= |s.px.log|
    ensures forall k :: 0 <= k < |Emitted(s, m)| ==> Emitted(s, m)[k] == Target(s.px.log, k)
  {
    hide Paxos.Inv, AckEdges, AckRoots, TreeCounts, MsgsGood, NodesGood, Target, TraceGood;
    NodeOf(c, s.px.log, s.made, s.delivered, s.nodes, m);
    EmittedAreAgreed(s.px.log, s.nodes[m].log);
  }

  /** End-to-end agreement: in any run, whatever two machines of any regions, replicas and
      partitions have emitted for the home region at any two moments, one is a prefix of the other. */
  lemma EmittedLogsAgree(c: Cluster, states: seq<State>, events: seq<Event>, i: nat, j: nat, m1: Machine, m2: Machine)
    requires ValidCluster(c) && IsRun(c, states, events) && i < |states| && j < |states|
    requires IsMachine(c, m1) && IsMachine(c, m2)
    ensures m1 in states[i].nodes && m2 in states[j].nodes
    ensures Emitted(states[i], m1) <= Emitted(states[j], m2) || Emitted(states[j], m2) <= Emitted(states[i], m1)
  {
    hide Inv, IsRun, Emitted;
    RunInv(c, states, events, i);
    RunInv(c, states, events, j);
    EmitsAgreedPrefix(c, states[i], m1);
    EmitsAgreedPrefix(c, states[j], m2);
    var e1, e2 := Emitted(states[i], m1), Emitted(states[j], m2);
    var log1, log2 := states[i].px.log, states[j].px.log;
    if i <= j { AgreedGrows(c, states, events, i, j); } else { AgreedGrows(c, states, events, j, i); }
    forall k | 0 <= k < |e1| && k < |e2|
      ensures e1[k] == e2[k]
    {
      if i <= j { TargetStable(log1, log2, k); } else { TargetStable(log2, log1, k); }
    }
  }

  /** Exactly once: in every reachable state an order, a decided slot or a batch was sent to a
      machine at most once, so no log position is ever filled twice, and each region's ack for a
      batch was sent to the leader at most once. */
  lemma SentAtMostOnce(c: Cluster, states: seq<State>, events: seq<Event>, i: nat, m: Msg)
    requires ValidCluster(c) && IsRun(c, states, events) && i < |states|
    requires m.Ack? ==> m.to == LeaderOf(c)
    ensures states[i].sent[m] <= 1
  {
    hide IsRun;
    RunInv(c, states, events, i);
    var s := states[i];
    if m in s.sent {
      if m.Ack? {
        AckSentOnce(c, s, m);
      } else {
        hide NodesGood, Paxos.Inv, AckEdges, AckRoots, TreeCounts;
        TreeMsgSentOnce(c, s, ItemOf(m), m.to);
      }
    }
  }

  lemma TreeMsgSentOnce(c: Cluster, s: State, i: Item, m: Machine)
    requires ValidCluster(c) && Inv(c, s) && Concerns(c, i, m) && Known(s.px.log, s.made, i)
    ensures s.sent[InMsg(c, s.px.log, i, m)] <= 1
  {
    hide NodesGood, Paxos.Inv, AckEdges, AckRoots, TreeCounts;
    PaxosDecidedOnce(c, s.px);
    AtMostOnce(c, s.px.log, s.made, s.px.delivered, |s.nodes[LeaderOf(c)].local.out|, s.sent, s.delivered, i, m);
  }

  lemma AckSentOnce(c: Cluster, s: State, m: Msg)
    requires ValidCluster(c) && Inv(c, s) && m.Ack? && m.to == LeaderOf(c) && m in s.sent
    ensures s.sent[m] == 1
  {
    hide NodesGood, Paxos.Inv, AckEdges, TreeCounts, InMsg, Target;
    assert GoodMsg(c, s.px.log, s.made, m);
    var r := m.from.region;
    var k: nat :| k < |s.px.log| && m.id == Target(s.px.log, k);
    PartitionInRange(c, LeaderOf(c), 0, Entry(c, r));
    TreeMsgSentOnce(c, s, IRemote(k), Entry(c, r));
    var x := InMsg(c, s.px.log, IRemote(k), Entry(c, r));
    assert s.sent[m] == s.delivered[x] <= s.sent[x];
  }

  /** Machines of the home region pass acks on without naming the region. None of them ever
      counts more than one per region whose ack reached the leader, and none is passed on to a
      machine more often than its sender counted it. */
  lemma AcksAtMostOnce(c: Cluster, states: seq<State>, events: seq<Event>, i: nat, m: Machine, k: nat)
    requires ValidCluster(c) && IsRun(c, states, events) && i < |states|
    requires AtHome(c, m) && k < |states[i].px.log|
    ensures m in states[i].nodes
    ensures var s := states[i]; var id := Target(s.px.log, k);
      && s.nodes[m].log.seen.acks[id] <= |AckedBy(c, s.px.log, s.delivered, k)| <= c.factor - 1
      && (m != LeaderOf(c) ==> s.nodes[m].log.seen.acks[id] == s.delivered[Ack(AckFrom(c, m), m, id)])
  {
    hide IsRun, Paxos.Inv, AckEdges, AckRoots, TreeCounts, MsgsGood, NodesGood, AckedBy, Target, HomeMid, LocalReceived;
    RunInv(c, states, events, i);
    NodeOf(c, states[i].px.log, states[i].made, states[i].delivered, states[i].nodes, m);
    AckedUpTo(c, states[i], m, k);
    AckedByBounded(c, states[i].px.log, states[i].delivered, k);
  }

  /** Once the network has drained, everything that entered a tree reached every machine of it. */
  lemma {:induction false} TreesDrained(c: Cluster, s: State, i: Item, m: Machine)
    requires ValidCluster(c) && Inv(c, s) && s.sent == s.delivered
    requires Concerns(c, i, m) && Known(s.px.log, s.made, i)
    ensures i.IData? ==> s.delivered[InMsg(c, s.px.log, i, m)] == 1
    ensures i.IRemote? ==>
      s.delivered[InMsg(c, s.px.log, i, m)] == if i.slot < |s.nodes[LeaderOf(c)].local.out| then 1 else 0
    ensures i.ILocal? ==> exists l :: IsLearner(c, l) && l.replica == m.replica &&
                            s.delivered[InMsg(c, s.px.log, i, m)] == s.px.delivered[Decision(c, s.px.log, l, i.slot)]
    decreases Depth(c, i, m)
  {
    hide NodesGood, Paxos.Inv, AckEdges, AckRoots, MsgsGood;
    var log := s.px.log;
    assert s.sent[InMsg(c, log, i, m)] ==
      Supply(c, log, s.px.delivered, |s.nodes[LeaderOf(c)].local.out|, s.delivered, i, m);
    if !IsRoot(c, i, m) {
      SourceConcerned(c, i, m);
      SourceCloser(c, i, m);
      TreesDrained(c, s, i, Source(c, i, m));
    }
  }

  /** A machine of the home region emits a batch only after exactly factor - 1 distinct regions
      have received the order and acked it. */
  lemma EmittedWasReplicated(c: Cluster, states: seq<State>, events: seq<Event>, i: nat, m: Machine, k: nat)
    requires ValidCluster(c) && IsRun(c, states, events) && i < |states|
    requires AtHome(c, m) && m in states[i].nodes && k < |states[i].nodes[m].log.out|
    ensures |AckedBy(c, states[i].px.log, states[i].delivered, k)| == c.factor - 1
    ensures forall r :: r in AckedBy(c, states[i].px.log, states[i].delivered, k) ==>
              r != c.home && InMsg(c, states[i].px.log, IRemote(k), Entry(c, r)) in states[i].delivered
  {
    hide IsRun, Inv, AckedBy, InMsg, Target;
    RunInv(c, states, events, i);
    var s := states[i];
    EmittedHasAcks(c, s, m, k);
    AckedUpTo(c, s, m, k);
    AckedByBounded(c, s.px.log, s.delivered, k);
    forall r | r in AckedBy(c, s.px.log, s.delivered, k)
      ensures r != c.home && InMsg(c, s.px.log, IRemote(k), Entry(c, r)) in s.delivered
    {
      AckMeansOrdered(c, s, r, k);
    }
  }

  lemma EmittedHasAcks(c: Cluster, s: State, m: Machine, k: nat)
    requires ValidCluster(c) && Inv(c, s) && AtHome(c, m) && m in s.nodes && k < |s.nodes[m].log.out|
    ensures k < |s.px.log| && s.nodes[m].log.seen.acks[Target(s.px.log, k)] == c.factor - 1
  {
    hide Paxos.Inv, AckEdges, AckRoots, TreeCounts, MsgsGood, NodesGood;
    NodeOf(c, s.px.log, s.made, s.delivered, s.nodes, m);
    var t := s.nodes[m].log;
    EmittedAreSlots(t);
    assert t.out[k].0 == k;
    assert |t.out| <= t.log.slots.next;
    assert BatchLogs.Complete(t.seen, k);
  }

  /** No machine counts more acks for a batch than the leader received. */
  lemma AckedUpTo(c: Cluster, s: State, m: Machine, k: nat)
    requires ValidCluster(c) && Inv(c, s) && AtHome(c, m) && m in s.nodes && k < |s.px.log|
    ensures s.nodes[m].log.seen.acks[Target(s.px.log, k)] <= |AckedBy(c, s.px.log, s.delivered, k)|
    decreases m.replica + m.partition
  {
    hide Paxos.Inv, AckRoots, TreeCounts, MsgsGood, NodesGood, HomeMid, LocalReceived, Target;
    NodeOf(c, s.px.log, s.made, s.delivered, s.nodes, m);
    if m != LeaderOf(c) {
      var up := AckFrom(c, m);
      assert AtHome(c, up);
      NodeOf(c, s.px.log, s.made, s.delivered, s.nodes, up);
      AckedUpTo(c, s, up, k);
      var x := Ack(up, m, Target(s.px.log, k));
      assert s.delivered[x] <= s.sent[x];
    }
  }

  lemma AckMeansOrdered(c: Cluster, s: State, r: nat, k: nat)
    requires ValidCluster(c) && Inv(c, s) && k < |s.px.log| && r in AckedBy(c, s.px.log, s.delivered, k)
    ensures r != c.home && InMsg(c, s.px.log, IRemote(k), Entry(c, r)) in s.delivered
  {
    hide Paxos.Inv, AckEdges, TreeCounts, MsgsGood, NodesGood, Target, InMsg;
    NeededRegion(c, r);
    var x := Ack(Entry(c, r), LeaderOf(c), Target(s.px.log, k));
    assert s.delivered[x] <= s.sent[x];
    assert s.sent[x] == s.delivered[InMsg(c, s.px.log, IRemote(k), Entry(c, r))];
  }

  /** The log managers never hit their failure branches: no log position is already taken, and
      a data message carries all partitions exactly when it enters the receiver's replica. */
  lemma NeverFails(c: Cluster, states: seq<State>, events: seq<Event>, i: nat)
    requires ValidCluster(c) && IsRun(c, states, events) && i < |events| && events[i].LogDelivery?
    ensures var m := events[i].m;
            && m.to in states[i].nodes
            && var n := states[i].nodes[m.to];
            && (m.Data? ==> (m.full <==> m.from.region != m.to.region || m.from.replica != m.to.replica))
            && (m.Data? && m.to.region == c.home ==> LocalLogs.AddBatchId(n.local.log, m.gen, m.pos, m.id).Some?)
            && (m.LocalOrder? ==> LocalLogs.AddSlot(n.local.log, m.slot, LocalLogs.Choice(m.gen, m.leader)).Some?)
            && (m.RemoteOrder? ==> BatchLogs.AddSlot(n.log.log, m.slot, m.id, 0).Some?)
  {
    hide IsRun;
    EnabledAt(c, states, events, i);
    RunInv(c, states, events, i);
    var s, m := states[i], events[i].m;
    if !m.Ack? {
      hide NodesGood, Paxos.Inv, AckEdges, AckRoots, TreeCounts, MsgsGood;
      FirstTime(c, s, m);
      NodeOf(c, s.px.log, s.made, s.delivered, s.nodes, m.to);
      PositionFree(c, s.px.log, s.made, s.delivered, m, s.nodes[m.to]);
    }
  }

  lemma EnabledAt(c: Cluster, states: seq<State>, events: seq<Event>, i: nat)
    requires ValidCluster(c) && IsRun(c, states, events) && i < |events|
    ensures i < |states| && Enabled(c, states[i], events[i])
  {
  }

  lemma PositionFree(c: Cluster, log: seq<Machine>, made: map<Machine, nat>, delivered: multiset<Msg>, m: Msg, n: Node)
    requires ValidCluster(c) && HomeLog(c, log) && !m.Ack? && GoodMsg(c, log, made, m) && m !in delivered
    requires AtHome(c, m.to) ==> HomeGood(c, log, made, delivered, m.to, n)
    requires m.to.region != c.home ==> RemoteGood(c, log, delivered, m.to, n)
    ensures m.Data? && m.to.region == c.home ==> LocalLogs.AddBatchId(n.local.log, m.gen, m.pos, m.id).Some?
    ensures m.LocalOrder? ==> LocalLogs.AddSlot(n.local.log, m.slot, LocalLogs.Choice(m.gen, m.leader)).Some?
    ensures m.RemoteOrder? ==> BatchLogs.AddSlot(n.log.log, m.slot, m.id, 0).Some?
  {
    hide LocalLogs.Inv, BatchLogs.Consistent;
    if m.Data? && m.to.region == c.home {
      DataReceived(c, log, made, delivered, m, n.local.seen);
      LocalLogs.AddBatchIdInv(n.local.log, n.local.seen, n.local.out, m.gen, m.pos, m.id);
    } else if m.LocalOrder? {
      OrderReceived(c, log, made, delivered, m, n.local.seen);
      LocalLogs.AddSlotInv(n.local.log, n.local.seen, n.local.out, m.slot, LocalLogs.Choice(m.gen, m.leader));
    } else if m.RemoteOrder? {
      BatchLogs.TraceBijective(n.log);
      FreshTarget(c, log, n.log.seen, m.slot);
      BatchLogs.AddSlotInv(n.log.log, n.log.seen, n.log.out, m.slot, m.id, 0);
    }
  }
}
