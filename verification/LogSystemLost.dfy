/** Runs of the log system in which machines never emit anything. */
module LogSystemLost {
  import opened Prelude
  import opened Ids
  import opened LogSystem
  import opened LogSystemProofs
  import opened LogSystemSafety
  import opened LogSystemRuns
  import opened LogSystemDrained
  import Paxos
  import PaxosDrained
  import LocalLogs
  import BatchLogs

  // ---------------------------------------------------------------------
  // Without slot 0 nothing is emitted, in flight or not
  // ---------------------------------------------------------------------

  /** No machine of the home region ever receives slot 0. */
  lemma {:induction false} NeverReceived(c: Cluster, s: State, m: Machine)
    requires ValidCluster(c) && Inv(c, s) && Lost(c, s) && AtHome(c, m)
    ensures InMsg(c, s.px.log, ILocal(0), m) !in s.delivered
    decreases Depth(c, ILocal(0), m)
  {
    hide NodesGood, Paxos.Inv, AckEdges, AckRoots, MsgsGood;
    var log, i := s.px.log, ILocal(0);
    assert s.sent[InMsg(c, log, i, m)] ==
      Supply(c, log, s.px.delivered, |s.nodes[LeaderOf(c)].local.out|, s.delivered, i, m);
    if !IsRoot(c, i, m) {
      SourceConcerned(c, i, m);
      SourceCloser(c, i, m);
      NeverReceived(c, s, Source(c, i, m));
    } else {
      NeverDecided(c, s, m);
    }
    assert s.delivered[InMsg(c, log, i, m)] <= s.sent[InMsg(c, log, i, m)];
  }

  lemma NeverDecided(c: Cluster, s: State, l: Machine)
    requires ValidCluster(c) && Inv(c, s) && Lost(c, s) && IsLearner(c, l)
    ensures s.px.delivered[Decision(c, s.px.log, l, 0)] == 0
  {
    hide NodesGood, AckEdges, AckRoots, MsgsGood, TreeCounts;
    GroupValid(c);
    assert 0 !in s.px.committed && s.px.log != [];
    BroadcastCount(c, s.px, l, 0);
    PaxosCounts(c, s);
    hide Paxos.Inv;
    assert s.px.delivered[Decision(c, s.px.log, l, 0)] <= s.px.sent[Decision(c, s.px.log, l, 0)];
  }

  lemma NothingMerged(c: Cluster, s: State, m: Machine)
    requires ValidCluster(c) && Inv(c, s) && Lost(c, s) && AtHome(c, m)
    ensures m in s.nodes && s.nodes[m].local.out == [] && s.nodes[m].log.out == []
  {
    hide Paxos.Inv, AckEdges, AckRoots, TreeCounts, MsgsGood, NodesGood, InMsg, AcksReceived, TraceGood,
      LocalLogs.Mergeable, Lost;
    NodeOf(c, s.px.log, s.made, s.delivered, s.nodes, m);
    var n := s.nodes[m];
    MergedCount(n.local);
    NeverReceived(c, s, m);
    NotMergeable(n.local.seen, 0);
    assert !LocalLogs.Mergeable(n.local.seen, 0);
    EmittedCount(n.log);
    assert !BatchLogs.Complete(n.log.seen, 0);
  }

  lemma {:induction false} NothingOrdered(c: Cluster, s: State, m: Machine)
    requires ValidCluster(c) && Inv(c, s) && Lost(c, s) && IsMachine(c, m) && m.region != c.home
    ensures InMsg(c, s.px.log, IRemote(0), m) !in s.delivered
    decreases Depth(c, IRemote(0), m)
  {
    LeaderThere(c, s);
    assert Known(s.px.log, s.made, IRemote(0));
    NothingMerged(c, s, LeaderOf(c));
    hide NodesGood, Paxos.Inv, AckEdges, AckRoots, MsgsGood;
    var log, i := s.px.log, IRemote(0);
    assert s.sent[InMsg(c, log, i, m)] ==
      Supply(c, log, s.px.delivered, |s.nodes[LeaderOf(c)].local.out|, s.delivered, i, m);
    if !IsRoot(c, i, m) {
      SourceConcerned(c, i, m);
      SourceCloser(c, i, m);
      NothingOrdered(c, s, Source(c, i, m));
    }
    assert s.delivered[InMsg(c, log, i, m)] <= s.sent[InMsg(c, log, i, m)];
  }

  /** Once slot 0 is lost no machine of any region has emitted anything. */
  lemma LostEmitsNothing(c: Cluster, s: State, m: Machine)
    requires ValidCluster(c) && Inv(c, s) && Lost(c, s) && IsMachine(c, m)
    ensures m in s.nodes && Emitted(s, m) == []
  {
    hide Paxos.Inv, AckEdges, AckRoots, TreeCounts, MsgsGood, NodesGood, InMsg, TraceGood, Lost, HomeMid, Target;
    if m.region == c.home {
      NothingMerged(c, s, m);
    } else {
      NodeOf(c, s.px.log, s.made, s.delivered, s.nodes, m);
      NothingOrdered(c, s, m);
      EmittedCount(s.nodes[m].log);
      assert !BatchLogs.Complete(s.nodes[m].log.seen, 0);
    }
  }

  lemma {:induction false} StaysLost(c: Cluster, states: seq<State>, events: seq<Event>, i: nat, j: nat)
    requires ValidCluster(c) && IsRun(c, states, events) && i <= j < |states| && Lost(c, states[i])
    ensures Lost(c, states[j])
    decreases j
  {
    hide Inv, History, Enabled, Step, Lost;
    if i < j {
      StaysLost(c, states, events, i, j - 1);
      RunHistory(c, states, events, j - 1);
      LostStep(c, states[j - 1], events[j - 1]);
    }
  }

  // ---------------------------------------------------------------------
  // A run of Paxos as a run of the log system
  // ---------------------------------------------------------------------

  lemma OneMore(c: Cluster, states: seq<State>, events: seq<Event>, e: Event)
    requires ValidCluster(c) && IsRun(c, states, events) && Enabled(c, states[|events|], e)
    ensures IsRun(c, states + [Step(c, states[|events|], e)], events + [e])
  {
    hide Enabled, Step;
  }

  /** The machines propose themselves, as generators do. */
  ghost predicate OwnProposals(c: Cluster, pevents: seq<Paxos.Event<Machine>>) {
    forall e :: e in pevents && e.EvSubmit? ==> e.at == e.value && AtHome(c, e.at)
  }

  function MatchingEvent(e: Paxos.Event<Machine>): Event {
    match e
    case EvSubmit(at, _) => Make(at)
    case EvDeliver(m) => PaxosDelivery(m)
  }

  lemma MatchingStep(c: Cluster, s: State, e: Paxos.Event<Machine>)
    requires ValidCluster(c) && Inv(c, s) && Paxos.Enabled(Group(c), s.px, e)
    requires e.EvSubmit? ==> e.at == e.value && AtHome(c, e.at)
    ensures Enabled(c, s, MatchingEvent(e)) && Step(c, s, MatchingEvent(e)).px == Paxos.Step(Group(c), s.px, e)
  {
    hide DataAbroad, Paxos.Deliver, Paxos.Inv, TreeCounts, AckRoots, AckEdges, NodesGood, MsgsGood;
  }

  lemma RunEnds(g: Paxos.Config, pstates: seq<Paxos.State<Machine>>, pevents: seq<Paxos.Event<Machine>>)
    requires Paxos.IsRun(g, pstates, pevents)
    ensures |pstates| == |pevents| + 1
    ensures pevents == [] ==> pstates[0] == Paxos.Init(g)
    ensures pevents != [] ==> var n := |pevents| - 1;
      && Paxos.IsRun(g, pstates[..n + 1], pevents[..n])
      && Paxos.Enabled(g, pstates[n], pevents[n]) && pstates[n + 1] == Paxos.Step(g, pstates[n], pevents[n])
  {
    hide Paxos.Enabled, Paxos.Step;
  }

  lemma InitPaxos(c: Cluster)
    requires ValidCluster(c)
    ensures Init(c).px == Paxos.Init(Group(c))
  {
  }

  /** Nothing on the log channel need be delivered for this. */
  lemma {:induction false} Lifted(c: Cluster, pstates: seq<Paxos.State<Machine>>, pevents: seq<Paxos.Event<Machine>>)
      returns (states: seq<State>, events: seq<Event>)
    requires ValidCluster(c) && Paxos.IsRun(Group(c), pstates, pevents) && OwnProposals(c, pevents)
    ensures IsRun(c, states, events) && |events| == |pevents|
    ensures states[|events|].px == pstates[|pevents|]
  {
    hide Enabled, Step, Inv, Paxos.Enabled, Paxos.Step, Paxos.IsRun, Group, Init;
    RunEnds(Group(c), pstates, pevents);
    if pevents == [] {
      states, events := [Init(c)], [];
      InitPaxos(c);
    } else {
      var n := |pevents| - 1;
      assert pevents[n] in pevents && forall e :: e in pevents[..n] ==> e in pevents;
      states, events := Lifted(c, pstates[..n + 1], pevents[..n]);
      var s, e := states[n], MatchingEvent(pevents[n]);
      RunInv(c, states, events, n);
      MatchingStep(c, s, pevents[n]);
      OneMore(c, states, events, e);
      states, events := states + [Step(c, s, e)], events + [e];
    }
  }

  /** In every cluster whose group has no more acceptors than learners there is a run in which the
      leader has opened two slots for batches of its own, and slot 0 is lost. */
  lemma SystemCanStall(c: Cluster) returns (states: seq<State>, events: seq<Event>)
    requires ValidCluster(c) && |c.acceptors| <= |Group(c).learners|
    ensures IsRun(c, states, events) && states[|events|].px.log == [LeaderOf(c), LeaderOf(c)] &&
      Lost(c, states[|events|])
  {
    hide Enabled, Step, Lost, PaxosDrained.Lost, Paxos.Step, Paxos.Enabled;
    GroupValid(c);
    var g := LeaderOf(c);
    assert AtHome(c, g);
    var pstates, pevents := PaxosDrained.SlotZeroCanBeLost(Group(c), g, g);
    states, events := Lifted(c, pstates, pevents);
    LostIs(c, states[|events|]);
  }

  lemma LostIs(c: Cluster, s: State)
    requires ValidCluster(c)
    ensures Lost(c, s) <==> PaxosDrained.Lost(Group(c), s.px)
  {
  }

  /** However such a run goes on, no machine of any region ever emits anything. */
  lemma StallsForever(c: Cluster, states: seq<State>, events: seq<Event>, i: nat, j: nat, m: Machine)
    requires ValidCluster(c) && IsRun(c, states, events) && i <= j < |states| && Lost(c, states[i]) && IsMachine(c, m)
    ensures m in states[j].nodes && Emitted(states[j], m) == []
  {
    hide IsRun, Inv, Lost, Emitted;
    StaysLost(c, states, events, i, j);
    RunInv(c, states, events, j);
    LostEmitsNothing(c, states[j], m);
  }

  // ---------------------------------------------------------------------
  // Too few regions in the replication order
  // ---------------------------------------------------------------------

  /** If the replication order names fewer than factor - 1 distinct regions first, no machine of
      the home region emits anything in any run. */
  lemma TooFewAsked(c: Cluster, states: seq<State>, events: seq<Event>, i: nat, m: Machine)
    requires ValidCluster(c) && IsRun(c, states, events) && i < |states| && AtHome(c, m) && !EnoughRegions(c)
    ensures m in states[i].nodes && Emitted(states[i], m) == []
  {
    hide IsRun, Inv, Asked, AckedBy, InMsg;
    RunInv(c, states, events, i);
    NodeThere(c, states[i], m);
    EnoughAsked(c);
    if |states[i].nodes[m].log.out| > 0 {
      EmittedWasReplicated(c, states, events, i, m, 0);
      AckedAreAsked(c, states[i].px.log, states[i].delivered, 0);
    }
  }

  /** Two regions of one machine each, replication factor 2 and no replication order. */
  function NobodyAsked(): Cluster {
    Cluster([1, 1], 1, 0, 2, [], false, {Machine(0, 0, 0)})
  }

  lemma NobodyAskedIsValid()
    ensures ValidCluster(NobodyAsked()) && Asked(NobodyAsked()) == {} && !EnoughRegions(NobodyAsked())
  {
    assert Asked(NobodyAsked()) == {};
  }
}
