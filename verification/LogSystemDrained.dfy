/** What has happened in the log system once nothing is in flight: every batch that was made
    has been ordered, acked and emitted everywhere, unless slot 0 was lost. */
module LogSystemDrained {
  import opened Ids
  import opened LogSystem
  import opened LogSystemProofs
  import opened LogSystemSafety
  import opened LogSystemRuns
  import Paxos
  import PaxosDrained
  import LocalLogs
  import BatchLogs

  // ---------------------------------------------------------------------
  // Proposals are neither lost nor repeated
  // ---------------------------------------------------------------------

  function Own(g: Machine): Paxos.Msg<Machine> {
    Paxos.Propose(g, g, g)
  }

  function ToLeader(c: Cluster, g: Machine): Paxos.Msg<Machine> {
    Paxos.Propose(g, LeaderOf(c), g)
  }

  ghost predicate ProposalShape(c: Cluster, sent: multiset<Paxos.Msg<Machine>>) {
    forall p :: p in sent && p.Propose? ==> AtHome(c, p.from) && (p == Own(p.from) || p == ToLeader(c, p.from))
  }

  /** A generator proposes once per batch, each proposal goes on to the leader once, and the
      leader opens one slot for each. */
  ghost predicate Proposed(c: Cluster, sent: multiset<Paxos.Msg<Machine>>, delivered: multiset<Paxos.Msg<Machine>>,
                           log: seq<Machine>, made: map<Machine, nat>)
  {
    && ProposalShape(c, sent)
    && forall g :: AtHome(c, g) ==>
         && g in made && sent[Own(g)] == made[g]
         && (g != LeaderOf(c) ==> sent[ToLeader(c, g)] == delivered[Own(g)])
         && Earlier(log, |log|, g) == delivered[ToLeader(c, g)]
  }

  lemma InitProposed(c: Cluster)
    requires ValidCluster(c)
    ensures var s := Init(c); Proposed(c, s.px.sent, s.px.delivered, s.px.log, s.made)
  {
  }

  /** What a delivery does to the proposals. */
  lemma ProposalCounts(g: Paxos.Config, px: Paxos.State<Machine>, p: Paxos.Msg<Machine>)
    requires p.to in px.procs
    ensures var px' := Paxos.Deliver(g, px, p);
      && px'.delivered == px.delivered + multiset{p}
      && px'.log == (if p.Propose? && p.to == g.leader then px.log + [p.value] else px.log)
      && forall x: Paxos.Msg<Machine> :: x.Propose? ==>
           px'.sent[x] == px.sent[x] + if p.Propose? && p.to != g.leader &&
             x == Paxos.Propose(p.to, g.leader, p.value) then 1 else 0
  {
  }

  lemma EarlierPush(log: seq<Machine>, v: Machine, g: Machine)
    ensures Earlier(log + [v], |log| + 1, g) == Earlier(log, |log|, g) + if v == g then 1 else 0
  {
    EarlierKept(log, v, |log|, g);
  }

  lemma ProposedStep(c: Cluster, s: State, e: Event)
    requires ValidCluster(c) && Inv(c, s) && Proposed(c, s.px.sent, s.px.delivered, s.px.log, s.made) &&
      Enabled(c, s, e)
    ensures var s' := Step(c, s, e); Proposed(c, s'.px.sent, s'.px.delivered, s'.px.log, s'.made)
  {
    hide Inv, Handle, DataAbroad, Paxos.Deliver, Earlier, Group;
    match e
    case Make(_) =>
    case PaxosDelivery(p) => ProposalDelivered(c, s.px, s.made, p);
    case LogDelivery(_) =>
  }

  lemma ProposalDelivered(c: Cluster, px: Paxos.State<Machine>, made: map<Machine, nat>, p: Paxos.Msg<Machine>)
    requires ValidCluster(c) && p.to in px.procs && Paxos.InFlight(px, p)
    requires Proposed(c, px.sent, px.delivered, px.log, made)
    ensures var px' := Paxos.Deliver(Group(c), px, p); Proposed(c, px'.sent, px'.delivered, px'.log, made)
  {
    hide Paxos.Deliver, Earlier;
    ProposalCounts(Group(c), px, p);
    if p.Propose? && p.to == LeaderOf(c) {
      forall g | AtHome(c, g)
        ensures Earlier(px.log + [p.value], |px.log| + 1, g) == Earlier(px.log, |px.log|, g) + if p.value == g then 1
          else 0 {
        EarlierPush(px.log, p.value, g);
      }
    }
  }

  // ---------------------------------------------------------------------
  // What a machine has been given
  // ---------------------------------------------------------------------

  /** Data that reached a machine is in its log, and other regions wait for no acks. */
  ghost predicate Keeps(c: Cluster, delivered: multiset<Msg>, m: Machine, log: BatchLogs.Trace<()>) {
    && (forall x :: x in delivered && x.Data? && x.to == m ==> x.id in log.seen.data)
    && (m.region != c.home ==> forall id :: id in log.seen.orders ==> log.seen.orders[id].acksNeeded == 0)
  }

  ghost predicate AllKeep(c: Cluster, delivered: multiset<Msg>, nodes: map<Machine, Node>) {
    forall m :: m in nodes ==> Keeps(c, delivered, m, nodes[m].log)
  }

  lemma {:induction false} DrainLocalKeepsData(c: Cluster, me: Machine, n: Node)
    requires c.home < |c.replicas| && 0 < c.partitions
    ensures DrainLocal(c, me, n).0.log.seen.data == n.log.seen.data
    ensures n.local.log.ready == [] ==> DrainLocal(c, me, n).0 == n
    decreases |n.local.log.ready|
  {
    if n.local.log.ready != [] {
      hide OrderAbroad, BatchLogs.AddSlot;
      var e := n.local.log.ready[0];
      DrainLocalKeepsData(c, me, Node(LocalLogs.Step(n.local, LocalLogs.OpNext),
                                      BatchLogs.Step(n.log, BatchLogs.OpAddSlot(e.slot, e.id, c.factor - 1))));
    }
  }

  lemma AdvanceKeeps(c: Cluster, me: Machine, n: Node)
    requires c.home < |c.replicas| && 0 < c.partitions
    ensures var n' := Advance(c, me, n).0;
      && n'.log.seen.data == n.log.seen.data
      && (n.local.log.ready == [] ==> n'.log.seen.orders == n.log.seen.orders)
  {
    hide DrainLocal, BatchLogs.Drain;
    DrainLocalKeepsData(c, me, n);
    BatchLogs.DrainKeepsSeen(DrainLocal(c, me, n).0.log);
  }

  lemma ProcessKeeps(c: Cluster, delivered: multiset<Msg>, n: Node, m: Msg)
    requires IsMachine(c, m.to) && Keeps(c, delivered, m.to, n.log) && (m.LocalOrder? ==> m.to.region == c.home)
    ensures Keeps(c, delivered + multiset{m}, m.to, Process(c, n, m).0.log)
    ensures m.to.region != c.home ==> Process(c, n, m).0.local == n.local
  {
    hide Relay, OtherPartitions, BatchLogs.AddSlot, BatchLogs.AddBatch, BatchLogs.AckReplication;
  }

  lemma HandleKeeps(c: Cluster, delivered: multiset<Msg>, n: Node, m: Msg)
    requires IsMachine(c, m.to) && c.home < |c.replicas| && 0 < c.partitions && Keeps(c, delivered, m.to, n.log)
    requires (m.LocalOrder? ==> m.to.region == c.home) && (m.to.region != c.home ==> n.local.log.ready == [])
    ensures Keeps(c, delivered + multiset{m}, m.to, Handle(c, n, m).0.log)
  {
    hide Process, Advance;
    ProcessKeeps(c, delivered, n, m);
    AdvanceKeeps(c, m.to, Process(c, n, m).0);
  }

  lemma KeepsFrame(c: Cluster, delivered: multiset<Msg>, x: Machine, log: BatchLogs.Trace<()>, m: Msg)
    requires Keeps(c, delivered, x, log) && m.to != x
    ensures Keeps(c, delivered + multiset{m}, x, log)
  {
  }

  lemma DeliveryShape(c: Cluster, s: State, m: Msg)
    requires ValidCluster(c) && Inv(c, s) && Enabled(c, s, LogDelivery(m))
    ensures (m.LocalOrder? ==> m.to.region == c.home) && (m.to.region != c.home ==> s.nodes[m.to].local.log.ready == [])
  {
    hide Paxos.Inv, TreeCounts, AckRoots, AckEdges, NodesGood;
    assert GoodMsg(c, s.px.log, s.made, m);
    NodeOf(c, s.px.log, s.made, s.delivered, s.nodes, m.to);
  }

  lemma AllKeepStep(c: Cluster, s: State, e: Event)
    requires ValidCluster(c) && Inv(c, s) && AllKeep(c, s.delivered, s.nodes) && Enabled(c, s, e)
    ensures AllKeep(c, Step(c, s, e).delivered, Step(c, s, e).nodes)
  {
    hide Inv, Handle, DataAbroad, Paxos.Deliver, Group, Keeps;
    if e.LogDelivery? {
      DeliveryShape(c, s, e.m);
      HandleKeeps(c, s.delivered, s.nodes[e.m.to], e.m);
      forall x | x in s.nodes && x != e.m.to ensures Keeps(c, s.delivered + multiset{e.m}, x, s.nodes[x].log) {
        KeepsFrame(c, s.delivered, x, s.nodes[x].log, e.m);
      }
    }
  }

  // ---------------------------------------------------------------------
  // Every run
  // ---------------------------------------------------------------------

  ghost predicate History(c: Cluster, s: State)
    requires ValidCluster(c)
  {
    && PaxosDrained.CommitInv(Group(c), s.px)
    && Proposed(c, s.px.sent, s.px.delivered, s.px.log, s.made)
    && AllKeep(c, s.delivered, s.nodes)
  }

  lemma InitHistory(c: Cluster)
    requires ValidCluster(c)
    ensures History(c, Init(c))
  {
    hide PaxosDrained.CommitInv, Proposed;
    GroupValid(c);
    PaxosDrained.InitCommitInv<Machine>(Group(c));
    InitProposed(c);
  }

  /** A step of the system is a step of its Paxos group, or leaves it alone. */
  lemma PaxosStep(c: Cluster, s: State, e: Event)
    requires ValidCluster(c) && Enabled(c, s, e)
    ensures e.Make? ==>
      Paxos.Enabled(Group(c), s.px, Paxos.EvSubmit(e.gen, e.gen)) &&
        Step(c, s, e).px == Paxos.Submit(s.px, e.gen, e.gen)
    ensures e.PaxosDelivery? ==>
      Paxos.Enabled(Group(c), s.px, Paxos.EvDeliver(e.p)) && Step(c, s, e).px == Paxos.Deliver(Group(c), s.px, e.p)
    ensures e.LogDelivery? ==> Step(c, s, e).px == s.px
  {
    hide Handle, DataAbroad, Paxos.Deliver;
    GroupValid(c);
  }

  lemma HistoryStep(c: Cluster, s: State, e: Event)
    requires ValidCluster(c) && Inv(c, s) && History(c, s) && Enabled(c, s, e)
    ensures History(c, Step(c, s, e))
  {
    hide PaxosDrained.CommitInv, Proposed, AllKeep, Step, Paxos.Inv, TreeCounts, AckRoots, AckEdges, NodesGood,
      MsgsGood;
    GroupValid(c);
    PaxosStep(c, s, e);
    ProposedStep(c, s, e);
    AllKeepStep(c, s, e);
    if e.Make? { PaxosDrained.StepCommitInv(Group(c), s.px, Paxos.EvSubmit(e.gen, e.gen)); }
    if e.PaxosDelivery? { PaxosDrained.StepCommitInv(Group(c), s.px, Paxos.EvDeliver(e.p)); }
  }

  lemma {:induction false} RunHistory(c: Cluster, states: seq<State>, events: seq<Event>, i: nat)
    requires ValidCluster(c) && IsRun(c, states, events) && i < |states|
    ensures Inv(c, states[i]) && History(c, states[i])
  {
    hide Inv, History, Enabled, Step;
    RunInv(c, states, events, i);
    if i == 0 {
      InitHistory(c);
    } else {
      RunHistory(c, states, events, i - 1);
      HistoryStep(c, states[i - 1], events[i - 1]);
    }
  }

  /** Slot 0 was lost by the Paxos group. */
  ghost predicate Lost(c: Cluster, s: State)
    requires ValidCluster(c)
  {
    PaxosDrained.Lost(Group(c), s.px)
  }

  ghost predicate Starved(c: Cluster, s: State)
    requires ValidCluster(c)
  {
    PaxosDrained.Starved(Group(c), s.px)
  }

  lemma LostStep(c: Cluster, s: State, e: Event)
    requires ValidCluster(c) && Inv(c, s) && History(c, s) && Enabled(c, s, e)
    ensures Lost(c, Step(c, s, e)) <==> Lost(c, s) || Starved(c, Step(c, s, e))
  {
    hide PaxosDrained.CommitInv, Proposed, AllKeep, Step, Paxos.Inv, TreeCounts, AckRoots, AckEdges, NodesGood,
      MsgsGood,
      PaxosDrained.Lost, PaxosDrained.Starved;
    GroupValid(c);
    PaxosStep(c, s, e);
    if e.Make? { PaxosDrained.LostStep(Group(c), s.px, Paxos.EvSubmit(e.gen, e.gen)); }
    if e.PaxosDelivery? { PaxosDrained.LostStep(Group(c), s.px, Paxos.EvDeliver(e.p)); }
    if e.LogDelivery? && Starved(c, s) { PaxosDrained.StarvedIsLost(Group(c), s.px); }
  }

  /** Slot 0 is lost exactly if at some moment there were as many commit responses as acceptors
      and no majority of accept responses for it. */
  lemma {:induction false} LostIff(c: Cluster, states: seq<State>, events: seq<Event>, i: nat)
    requires ValidCluster(c) && IsRun(c, states, events) && i < |states|
    ensures Lost(c, states[i]) <==> exists j :: 0 <= j <= i && Starved(c, states[j])
  {
    hide Inv, History, Enabled, Step, Lost, Starved;
    if i == 0 {
      NotLostAtFirst(c);
    } else {
      LostIff(c, states, events, i - 1);
      RunHistory(c, states, events, i - 1);
      LostStep(c, states[i - 1], events[i - 1]);
    }
  }

  lemma NotLostAtFirst(c: Cluster)
    requires ValidCluster(c)
    ensures !Lost(c, Init(c)) && !Starved(c, Init(c))
  {
    GroupValid(c);
    PaxosDrained.NotLostAtFirst<Machine>(Group(c));
  }

  // ---------------------------------------------------------------------
  // Nothing in flight
  // ---------------------------------------------------------------------

  ghost predicate Quiet(s: State) {
    s.sent == s.delivered && s.px.sent == s.px.delivered
  }

  /** All batches made have slots. */
  lemma AllOrdered(c: Cluster, s: State, g: Machine)
    requires ValidCluster(c) && Inv(c, s) && History(c, s) && AtHome(c, g)
    ensures g in s.made && Earlier(s.px.log, |s.px.log|, g) <= s.made[g]
    ensures Quiet(s) ==> Earlier(s.px.log, |s.px.log|, g) == s.made[g]
  {
    hide Paxos.Inv, AckEdges, AckRoots, TreeCounts, MsgsGood, NodesGood, PaxosDrained.CommitInv, AllKeep, Earlier;
    assert s.px.delivered <= s.px.sent by { PaxosCounts(c, s); }
    assert s.px.delivered[ToLeader(c, g)] <= s.px.sent[ToLeader(c, g)] && s.px.delivered[Own(g)] <= s.px.sent[Own(g)];
  }

  lemma PaxosCounts(c: Cluster, s: State)
    requires ValidCluster(c) && Inv(c, s)
    ensures s.px.delivered <= s.px.sent
  {
  }

  /** Every slot has a batch. */
  lemma SlotHasBatch(c: Cluster, s: State, k: nat)
    requires ValidCluster(c) && Inv(c, s) && History(c, s) && k < |s.px.log|
    ensures var g := s.px.log[k]; AtHome(c, g) && g in s.made && Earlier(s.px.log, k, g) < s.made[g]
  {
    hide Paxos.Inv, AckEdges, AckRoots, TreeCounts, MsgsGood, NodesGood, History;
    var g := s.px.log[k];
    AllOrdered(c, s, g);
    EarlierGrows(s.px.log, k + 1, |s.px.log|, g);
  }

  lemma Decided(c: Cluster, s: State, l: Machine, k: nat)
    requires ValidCluster(c) && Inv(c, s) && Quiet(s) && IsLearner(c, l) && k < |s.px.log|
    ensures s.px.delivered[Decision(c, s.px.log, l, k)] == if k > 0 || !Lost(c, s) then 1 else 0
  {
    hide AckEdges, AckRoots, TreeCounts, MsgsGood, NodesGood;
    GroupValid(c);
    PaxosDrained.DrainedCommitted(Group(c), s.px, k);
    BroadcastCount(c, s.px, l, k);
  }

  lemma BroadcastCount(c: Cluster, px: Paxos.State<Machine>, l: Machine, k: nat)
    requires ValidCluster(c) && Paxos.Inv(Group(c), px) && l in Group(c).learners && k < |px.log|
    ensures px.sent[Decision(c, px.log, l, k)] == if k in px.committed then 1 else 0
  {
  }

  lemma LocalReached(c: Cluster, s: State, m: Machine, k: nat)
    requires ValidCluster(c) && Inv(c, s) && Quiet(s) && AtHome(c, m) && k < |s.px.log|
    ensures s.delivered[InMsg(c, s.px.log, ILocal(k), m)] == if k > 0 || !Lost(c, s) then 1 else 0
  {
    hide Inv, InMsg, Lost, Decision;
    TreesDrained(c, s, ILocal(k), m);
    var l :| IsLearner(c, l) && l.replica == m.replica &&
             s.delivered[InMsg(c, s.px.log, ILocal(k), m)] == s.px.delivered[Decision(c, s.px.log, l, k)];
    Decided(c, s, l, k);
  }

  /** A slot whose order and batch are known can be merged. */
  lemma SlotMergeable(c: Cluster, s: State, m: Machine, k: nat)
    requires ValidCluster(c) && Inv(c, s) && History(c, s) && Quiet(s) && AtHome(c, m) && k < |s.px.log| && !Lost(c, s)
    ensures m in s.nodes && LocalLogs.Mergeable(s.nodes[m].local.seen, k)
  {
    hide Paxos.Inv, AckEdges, AckRoots, TreeCounts, MsgsGood, NodesGood, History, InMsg, Lost, Earlier, AcksReceived,
      LocalLogs.Inv;
    var log := s.px.log;
    NodeOf(c, log, s.made, s.delivered, s.nodes, m);
    var seen := s.nodes[m].local.seen;
    forall j: nat | j <= k ensures j in seen.slots {
      LocalReached(c, s, m, j);
    }
    SlotHasBatch(c, s, k);
    var g := log[k];
    EarlierAgrees(c, log, seen, k, g);
    TreesDrained(c, s, IData(g, Earlier(log, k, g)), m);
  }

  /** The local logs of the home region have merged all slots, or none without slot 0. */
  lemma AllMerged(c: Cluster, s: State, m: Machine)
    requires ValidCluster(c) && Inv(c, s) && History(c, s) && Quiet(s) && AtHome(c, m)
    ensures m in s.nodes && |s.nodes[m].local.out| == if Lost(c, s) then 0 else |s.px.log|
  {
    hide Paxos.Inv, AckEdges, AckRoots, TreeCounts, MsgsGood, NodesGood, History, InMsg, AcksReceived, TraceGood,
      LocalLogs.Mergeable;
    NodeOf(c, s.px.log, s.made, s.delivered, s.nodes, m);
    var n := s.nodes[m];
    MergedCount(n.local);
    if Lost(c, s) {
      LocalReached(c, s, m, 0);
      NotMergeable(n.local.seen, 0);
      assert !LocalLogs.Mergeable(n.local.seen, 0);
    } else if |n.local.out| < |s.px.log| {
      SlotMergeable(c, s, m, |n.local.out|);
    }
  }

  lemma NotMergeable(seen: LocalLogs.Seen<Machine>, k: nat)
    ensures k !in seen.slots ==> !LocalLogs.Mergeable(seen, k)
  {
  }

  lemma MergedCount(t: LocalLogs.Trace<Machine>)
    requires LocalLogs.Inv(t.log, t.seen, t.out) && t.log.ready == []
    ensures !LocalLogs.Mergeable(t.seen, |t.out|) && forall k: nat :: k < |t.out| ==> LocalLogs.Mergeable(t.seen, k)
  {
  }

  // ---------------------------------------------------------------------
  // Acks
  // ---------------------------------------------------------------------

  lemma {:induction false} AcksDrained(c: Cluster, s: State, m: Machine, k: nat)
    requires ValidCluster(c) && Inv(c, s) && s.sent == s.delivered && AtHome(c, m) && k < |s.px.log|
    ensures m in s.nodes && s.nodes[m].log.seen.acks[Target(s.px.log, k)] == |AckedBy(c, s.px.log, s.delivered, k)|
    decreases m.replica + m.partition
  {
    hide Paxos.Inv, AckRoots, TreeCounts, MsgsGood, NodesGood, HomeMid, LocalReceived, Target, AckedBy;
    NodeOf(c, s.px.log, s.made, s.delivered, s.nodes, m);
    if m != LeaderOf(c) {
      var up := AckFrom(c, m);
      assert AtHome(c, up);
      NodeOf(c, s.px.log, s.made, s.delivered, s.nodes, up);
      AcksDrained(c, s, up, k);
    }
  }

  lemma RegionAcked(c: Cluster, s: State, r: nat, k: nat)
    requires ValidCluster(c) && Inv(c, s) && s.sent == s.delivered && k < |s.px.log| && NeedAck(c, r)
    ensures s.delivered[Ack(Entry(c, r), LeaderOf(c), Target(s.px.log, k))] ==
      if k < |s.nodes[LeaderOf(c)].local.out| then 1 else 0
  {
    hide Paxos.Inv, AckEdges, TreeCounts, MsgsGood, NodesGood, Target, InMsg, NeedAck;
    NeededRegion(c, r);
    PartitionInRange(c, LeaderOf(c), 0, Entry(c, r));
    TreesDrained(c, s, IRemote(k), Entry(c, r));
  }

  lemma LeaderThere(c: Cluster, s: State)
    requires ValidCluster(c) && Inv(c, s)
    ensures LeaderOf(c) in s.nodes
  {
    hide Paxos.Inv, AckEdges, AckRoots, TreeCounts, MsgsGood, NodesGood;
  }

  lemma AskedRegion(c: Cluster, s: State, r: nat, k: nat)
    requires ValidCluster(c) && Inv(c, s) && s.sent == s.delivered && k < |s.px.log| && LeaderOf(c) in s.nodes
    ensures r in AckedBy(c, s.px.log, s.delivered, k) <==> k < |s.nodes[LeaderOf(c)].local.out| && r in Asked(c)
  {
    hide Inv, NeedAck, Asked, Entry, Target;
    MarkedAreAsked(c, r);
    if r in Asked(c) {
      NeededRegion(c, r);
      RegionAcked(c, s, r, k);
    }
  }

  lemma WhoAcked(c: Cluster, s: State, k: nat)
    requires ValidCluster(c) && Inv(c, s) && s.sent == s.delivered && k < |s.px.log|
    ensures AckedBy(c, s.px.log, s.delivered, k) == if k < |s.nodes[LeaderOf(c)].local.out| then Asked(c) else {}
  {
    hide Inv, NeedAck, Asked, Entry, Target;
    LeaderThere(c, s);
    var acked := AckedBy(c, s.px.log, s.delivered, k);
    forall r ensures r in acked <==> k < |s.nodes[LeaderOf(c)].local.out| && r in Asked(c) {
      AskedRegion(c, s, r, k);
    }
    assert acked == if k < |s.nodes[LeaderOf(c)].local.out| then Asked(c) else {};
  }

  /** When the network has drained, every machine of the home region has counted exactly one ack
      of each region that was asked, for every slot the leader ordered, and no other. */
  lemma DrainedAcks(c: Cluster, s: State, m: Machine, k: nat)
    requires ValidCluster(c) && Inv(c, s) && s.sent == s.delivered && AtHome(c, m) && k < |s.px.log|
    ensures AckedBy(c, s.px.log, s.delivered, k) == if k < |s.nodes[LeaderOf(c)].local.out| then Asked(c) else {}
    ensures m in s.nodes && s.nodes[m].log.seen.acks[Target(s.px.log, k)] ==
      if k < |s.nodes[LeaderOf(c)].local.out| then |Asked(c)| else 0
  {
    hide Inv, NeedAck, Entry, Target, AckedBy, Asked;
    AcksDrained(c, s, m, k);
    WhoAcked(c, s, k);
  }

  // ---------------------------------------------------------------------
  // Emission
  // ---------------------------------------------------------------------

  lemma EmittedCount(t: BatchLogs.Trace<()>)
    requires TraceGood(t) && t.log.ready == []
    ensures !BatchLogs.Complete(t.seen, |t.out|) && forall k: nat :: k < |t.out| ==> BatchLogs.Complete(t.seen, k)
    ensures forall k :: k in t.seen.slots ==> t.seen.slots[k] in t.seen.orders
  {
    assert t.out + [] == t.out;
  }

  lemma DataThere(c: Cluster, s: State, m: Machine, k: nat)
    requires ValidCluster(c) && Inv(c, s) && History(c, s) && s.sent == s.delivered && IsMachine(c, m) && k < |s.px.log|
    ensures m in s.nodes && Target(s.px.log, k) in s.nodes[m].log.seen.data
  {
    hide Inv, PaxosDrained.CommitInv, Proposed, Source, Earlier;
    SlotHasBatch(c, s, k);
    var g := s.px.log[k];
    var i := IData(g, Earlier(s.px.log, k, g));
    TreesDrained(c, s, i, m);
    NodeThere(c, s, m);
    assert InMsg(c, s.px.log, i, m) in s.delivered && Keeps(c, s.delivered, m, s.nodes[m].log);
  }

  lemma NodeThere(c: Cluster, s: State, m: Machine)
    requires ValidCluster(c) && Inv(c, s) && IsMachine(c, m)
    ensures m in s.nodes
  {
    hide Paxos.Inv, AckEdges, AckRoots, TreeCounts, MsgsGood;
  }

  /** At home: every slot is complete if as many regions were asked as acks are waited for, and
      none otherwise. */
  lemma HomeEmits(c: Cluster, s: State, m: Machine)
    requires ValidCluster(c) && Inv(c, s) && History(c, s) && Quiet(s) && AtHome(c, m)
    ensures m in s.nodes && |s.nodes[m].log.out| == if !Lost(c, s) && EnoughRegions(c) then |s.px.log| else 0
  {
    hide Paxos.Inv, AckEdges, AckRoots, TreeCounts, MsgsGood, NodesGood, History, Lost, AcksReceived, LocalReceived,
      LocalLogs.Inv,
      LocalAgrees, Target, TraceGood;
    var log := s.px.log;
    NodeOf(c, log, s.made, s.delivered, s.nodes, m);
    AllMerged(c, s, m);
    AllMerged(c, s, LeaderOf(c));
    var t := s.nodes[m].log;
    EmittedCount(t);
    EnoughAsked(c);
    if !Lost(c, s) {
      forall k: nat | k < |log| ensures BatchLogs.Complete(t.seen, k) <==> EnoughRegions(c) {
        DataThere(c, s, m, k);
        DrainedAcks(c, s, m, k);
      }
    }
    assert !BatchLogs.Complete(t.seen, if Lost(c, s) then 0 else |log|);
    BatchLogs.LongestUnique(t.seen, |t.out|, if !Lost(c, s) && EnoughRegions(c) then |log| else 0);
  }

  lemma RemoteEmits(c: Cluster, s: State, m: Machine)
    requires ValidCluster(c) && Inv(c, s) && History(c, s) && Quiet(s) && IsMachine(c, m) && m.region != c.home
    ensures m in s.nodes && |s.nodes[m].log.out| == if Lost(c, s) then 0 else |s.px.log|
  {
    hide Paxos.Inv, AckEdges, AckRoots, TreeCounts, MsgsGood, NodesGood, PaxosDrained.CommitInv, Proposed, Lost,
      LocalLogs.Inv,
      Target, TraceGood, InMsg;
    var log := s.px.log;
    NodeOf(c, log, s.made, s.delivered, s.nodes, m);
    AllMerged(c, s, LeaderOf(c));
    var t := s.nodes[m].log;
    EmittedCount(t);
    assert Keeps(c, s.delivered, m, t);
    forall k: nat | k < |log| ensures BatchLogs.Complete(t.seen, k) <==> !Lost(c, s) {
      DataThere(c, s, m, k);
      TreesDrained(c, s, IRemote(k), m);
    }
    assert !BatchLogs.Complete(t.seen, |log|);
    BatchLogs.LongestUnique(t.seen, |t.out|, if Lost(c, s) then 0 else |log|);
  }

  ghost predicate NeverStarved(c: Cluster, states: seq<State>, i: nat)
    requires ValidCluster(c) && i < |states|
  {
    forall j :: 0 <= j <= i ==> !Starved(c, states[j])
  }

  /** Exactly once: when nothing is in flight, every batch that was made has reached every
      machine of every region once, and every agreed slot every machine of the home region and,
      as an order, every machine of the other regions. Without slot 0 the leader orders nothing. */
  lemma DrainedReachesAll(c: Cluster, states: seq<State>, events: seq<Event>, n: nat, i: Item, m: Machine)
    requires ValidCluster(c) && IsRun(c, states, events) && n < |states| && Quiet(states[n])
    requires Concerns(c, i, m) && Known(states[n].px.log, states[n].made, i)
    ensures var once := i.IData? || NeverStarved(c, states, n) || (i.ILocal? && i.slot > 0);
      states[n].delivered[InMsg(c, states[n].px.log, i, m)] == if once then 1 else 0
  {
    hide Inv, History, IsRun, Lost, InMsg, Starved;
    RunHistory(c, states, events, n);
    LostIff(c, states, events, n);
    TreesDrained(c, states[n], i, m);
    if i.ILocal? { LocalReached(c, states[n], m, i.slot); }
    if i.IRemote? { AllMerged(c, states[n], LeaderOf(c)); }
  }

  /** When nothing is in flight, every machine of every region has emitted the whole log, one
      batch per agreed slot, exactly if slot 0 never starved and, in the home region, the
      replication order names factor - 1 distinct regions first; otherwise it has emitted
      nothing. */
  lemma DrainedEmitsAll(c: Cluster, states: seq<State>, events: seq<Event>, i: nat, m: Machine)
    requires ValidCluster(c) && IsRun(c, states, events) && i < |states| && Quiet(states[i]) && IsMachine(c, m)
    ensures m in states[i].nodes && |Emitted(states[i], m)| ==
      if NeverStarved(c, states, i) && (m.region == c.home ==> EnoughRegions(c)) then |states[i].px.log| else 0
  {
    hide Inv, History, IsRun, Lost, Starved;
    RunHistory(c, states, events, i);
    LostIff(c, states, events, i);
    if m.region == c.home { HomeEmits(c, states[i], m); } else { RemoteEmits(c, states[i], m); }
  }

  lemma {:induction false} BatchHasSlot(log: seq<Machine>, n: nat, g: Machine, pos: nat)
    requires n <= |log| && pos < Earlier(log, n, g)
    ensures exists k: nat :: k < n && log[k] == g && Earlier(log, k, g) == pos
  {
    if pos < Earlier(log, n - 1, g) { BatchHasSlot(log, n - 1, g, pos); }
  }

  /** Then no batch is missing: whatever any generator of the home region has made, every such
      machine has emitted, at one place of its log. */
  lemma EveryBatchEmitted(c: Cluster, states: seq<State>, events: seq<Event>, i: nat, m: Machine, g: Machine, pos: nat)
    requires ValidCluster(c) && IsRun(c, states, events) && i < |states| && Quiet(states[i]) && IsMachine(c, m)
    requires NeverStarved(c, states, i) && (m.region == c.home ==> EnoughRegions(c))
    requires AtHome(c, g) && g in states[i].made && pos < states[i].made[g]
    ensures m in states[i].nodes && multiset(Emitted(states[i], m))[IdOf(g, pos)] == 1
  {
    hide Inv, History, IsRun, Emitted, Earlier, NeverStarved, IdOf, EnoughRegions;
    var s := states[i];
    DrainedEmitsAll(c, states, events, i, m);
    RunHistory(c, states, events, i);
    AllOrdered(c, s, g);
    BatchHasSlot(s.px.log, |s.px.log|, g, pos);
    var k: nat :| k < |s.px.log| && s.px.log[k] == g && Earlier(s.px.log, k, g) == pos;
    EmitsAgreedPrefix(c, s, m);
    forall j, k | 0 <= j < k < |s.px.log| ensures Emitted(s, m)[j] != Emitted(s, m)[k] {
      HomeLogThere(c, s);
      TargetInjective(c, s.px.log, j, k);
    }
    OccursOnce(Emitted(s, m), k);
  }

  lemma HomeLogThere(c: Cluster, s: State)
    requires ValidCluster(c) && Inv(c, s)
    ensures HomeLog(c, s.px.log)
  {
  }

  lemma OccursOnce(s: seq<BatchId>, k: nat)
    requires k < |s| && forall i, j :: 0 <= i < j < |s| ==> s[i] != s[j]
    ensures multiset(s)[s[k]] == 1
  {
    assert s == s[..k] + [s[k]] + s[k + 1..];
    assert s[k] !in s[..k] && s[k] !in s[k + 1..];
  }
}
