/** What the multi-home orderers have done once nothing is in flight. */
module MultiHomeDrained {
  import opened Ids
  import opened MultiHome
  import Paxos
  import PaxosDrained
  import BatchLogs

  type Trace = BatchLogs.Trace<seq<Txn>>

  function Proposal(c: Cluster, id: BatchId): Paxos.Msg<BatchId> {
    Paxos.Propose(c.group.leader, c.group.leader, id)
  }

  /** Every batch was proposed, and its parts were sent to all regions. */
  ghost predicate BatchSent(c: Cluster, px: Paxos.State<BatchId>, batches: map<BatchId, seq<Txn>>,
      sent: multiset<Msg>) {
    forall id :: id in batches ==>
      Proposal(c, id) in px.sent && forall r: nat :: r < c.regions ==> BatchData(r, id, Project(batches[id], r)) in sent
  }

  /** What reached an orderer is in its log, which waits for no acks. */
  ghost predicate Holds(delivered: multiset<Msg>, r: nat, t: Trace) {
    && (forall m ::
      m in delivered && m.to == r ==> if m.BatchData? then m.id in t.seen.data else m.slot in t.seen.slots)
    && (forall id :: id in t.seen.orders ==> t.seen.orders[id].acksNeeded == 0)
  }

  ghost predicate AllHold(delivered: multiset<Msg>, logs: seq<Trace>) {
    forall r :: 0 <= r < |logs| ==> Holds(delivered, r, logs[r])
  }

  ghost predicate History(c: Cluster, s: State) {
    && PaxosDrained.CommitInv(c.group, s.px)
    && BatchSent(c, s.px, s.batches, s.sent)
    && AllHold(s.delivered, s.logs)
  }

  lemma InitHistory(c: Cluster)
    requires ValidCluster(c)
    ensures History(c, Init(c))
  {
    PaxosDrained.InitCommitInv<BatchId>(c.group);
  }

  lemma DeliveryHeld(c: Cluster, s: State, m: Msg)
    requires ValidCluster(c) && Inv(c, s) && Enabled(c, s, Delivery(m)) && Holds(s.delivered, m.to, s.logs[m.to])
    ensures Holds(s.delivered + multiset{m}, m.to, Handle(s.logs[m.to], m))
  {
    hide Inv, Holds, Handle, BatchLogs.AddSlot;
    if m.BatchData? {
      DataHeld(s.delivered, s.logs[m.to], m);
    } else {
      OrderTaken(c, s, m);
      OrderHeld(s.delivered, s.logs[m.to], m);
    }
  }

  lemma DataHeld(delivered: multiset<Msg>, t: Trace, m: Msg)
    requires m.BatchData? && Holds(delivered, m.to, t)
    ensures Holds(delivered + multiset{m}, m.to, Handle(t, m))
  {
    hide BatchLogs.Drain, BatchLogs.AddBatch;
    BatchLogs.DrainKeepsSeen(BatchLogs.Step(t, BatchLogs.OpAddBatch(m.id, m.txns)));
  }

  lemma OrderHeld(delivered: multiset<Msg>, t: Trace, m: Msg)
    requires m.BatchOrder? && Holds(delivered, m.to, t) && BatchLogs.AddSlot(t.log, m.slot, m.id, 0).Some?
    ensures Holds(delivered + multiset{m}, m.to, Handle(t, m))
  {
    hide BatchLogs.Drain, BatchLogs.AddSlot;
    BatchLogs.DrainKeepsSeen(BatchLogs.Step(t, BatchLogs.OpAddSlot(m.slot, m.id, 0)));
  }

  /** The slot of an order is free, so the log takes it. */
  lemma OrderTaken(c: Cluster, s: State, m: Msg)
    requires ValidCluster(c) && Inv(c, s) && Enabled(c, s, Delivery(m)) && m.BatchOrder?
    ensures BatchLogs.AddSlot(s.logs[m.to].log, m.slot, m.id, 0).Some?
  {
    FirstOrder(c, s, m);
    hide CountersFresh, OrdersOnce, Project, Placed, MsgsGood, BatchLogs.Bijective;
    var t := s.logs[m.to];
    assert LogGood(s.px.log, s.batches, s.delivered, m.to, t);
    assert s.px.delivered <= s.px.sent;
    SlotsDistinct(c, s.px, s.batches);
    hide Paxos.Inv, ProposedOnce, LogsGood;
    BatchLogs.TraceBijective(t);
    FreshSlot(s.px.log, t.seen, m.slot);
    hide BatchLogs.Consistent;
    BatchLogs.AddSlotInv(t.log, t.seen, t.out, m.slot, m.id, 0);
  }

  lemma HoldsFrame(delivered: multiset<Msg>, r: nat, t: Trace, m: Msg)
    requires Holds(delivered, r, t) && m.to != r
    ensures Holds(delivered + multiset{m}, r, t)
  {
  }

  lemma AllHoldStep(c: Cluster, s: State, e: Event)
    requires ValidCluster(c) && Inv(c, s) && Enabled(c, s, e) && AllHold(s.delivered, s.logs)
    ensures AllHold(Step(c, s, e).delivered, Step(c, s, e).logs)
  {
    hide Inv, Handle, Holds, Paxos.Deliver, Parts, Orders;
    if e.Delivery? {
      DeliveryHeld(c, s, e.m);
      forall r | 0 <= r < |s.logs| && r != e.m.to ensures Holds(s.delivered + multiset{e.m}, r, s.logs[r]) {
        HoldsFrame(s.delivered, r, s.logs[r], e.m);
      }
    }
  }

  lemma SentMore(g: Paxos.Config, px: Paxos.State<BatchId>, p: Paxos.Msg<BatchId>)
    requires p.to in px.procs
    ensures px.sent <= Paxos.Deliver(g, px, p).sent
  {
    hide Paxos.Handle;
    assert Paxos.Deliver(g, px, p).sent == px.sent + Paxos.Handle(g, px.procs[p.to], p).1;
  }

  lemma BatchSentStep(c: Cluster, s: State, e: Event)
    requires ValidCluster(c) && Inv(c, s) && Enabled(c, s, e) && BatchSent(c, s.px, s.batches, s.sent)
    ensures BatchSent(c, Step(c, s, e).px, Step(c, s, e).batches, Step(c, s, e).sent)
  {
    hide Inv, Handle, Paxos.Deliver, Orders, Project;
    if e.PaxosDelivery? { SentMore(c.group, s.px, e.p); }
  }

  /** A step of the orderers is a step of the global Paxos, or leaves it alone. */
  lemma PaxosStep(c: Cluster, s: State, e: Event)
    requires ValidCluster(c) && Enabled(c, s, e)
    ensures e.SendBatch? ==> Step(c, s, e).px == Paxos.Submit(s.px, c.group.leader, Tagged(e.at, s.open[e.at].0))
    ensures e.PaxosDelivery? ==>
      Paxos.Enabled(c.group, s.px, Paxos.EvDeliver(e.p)) && Step(c, s, e).px == Paxos.Deliver(c.group, s.px, e.p)
    ensures e.AddTxn? || e.Delivery? ==> Step(c, s, e).px == s.px
  {
    hide Handle, Paxos.Deliver;
  }

  lemma HistoryStep(c: Cluster, s: State, e: Event)
    requires ValidCluster(c) && Inv(c, s) && History(c, s) && Enabled(c, s, e)
    ensures History(c, Step(c, s, e))
  {
    hide PaxosDrained.CommitInv, BatchSent, AllHold, Step, Paxos.Inv, ProposedOnce, CountersFresh, Placed, MsgsGood,
      OrdersOnce, LogsGood;
    PaxosStep(c, s, e);
    BatchSentStep(c, s, e);
    AllHoldStep(c, s, e);
    if e.SendBatch? {
      PaxosDrained.StepCommitInv(c.group, s.px, Paxos.EvSubmit(c.group.leader, Tagged(e.at, s.open[e.at].0)));
    }
    if e.PaxosDelivery? { PaxosDrained.StepCommitInv(c.group, s.px, Paxos.EvDeliver(e.p)); }
  }

  lemma {:induction false} RunHistory(c: Cluster, states: seq<State>, events: seq<Event>, i: nat)
    requires ValidCluster(c) && IsRun(c, states, events) && i < |states|
    ensures Inv(c, states[i]) && History(c, states[i])
  {
    hide Inv, History, Enabled, Step;
    RunInv(c, states, events, i);
    if i == 0 {
      InitHistory(c);
    } else {
      RunHistory(c, states, events, i - 1);
      HistoryStep(c, states[i - 1], events[i - 1]);
    }
  }

  lemma LostStep(c: Cluster, s: State, e: Event)
    requires ValidCluster(c) && Inv(c, s) && History(c, s) && Enabled(c, s, e)
    ensures PaxosDrained.Lost(c.group, Step(c, s, e).px) <==>
      PaxosDrained.Lost(c.group, s.px) || PaxosDrained.Starved(c.group, Step(c, s, e).px)
  {
    hide PaxosDrained.CommitInv, BatchSent, AllHold, Step, Paxos.Inv, ProposedOnce, CountersFresh, Placed, MsgsGood,
      OrdersOnce, LogsGood, PaxosDrained.Lost, PaxosDrained.Starved;
    PaxosStep(c, s, e);
    if e.SendBatch? {
      PaxosDrained.LostStep(c.group, s.px, Paxos.EvSubmit(c.group.leader, Tagged(e.at, s.open[e.at].0)));
    } else if e.PaxosDelivery? {
      PaxosDrained.LostStep(c.group, s.px, Paxos.EvDeliver(e.p));
    } else if PaxosDrained.Starved(c.group, s.px) {
      PaxosDrained.StarvedIsLost(c.group, s.px);
    }
  }

  lemma {:induction false} LostIff(c: Cluster, states: seq<State>, events: seq<Event>, i: nat)
    requires ValidCluster(c) && IsRun(c, states, events) && i < |states|
    ensures PaxosDrained.Lost(c.group, states[i].px) <==> exists j ::
      0 <= j <= i && PaxosDrained.Starved(c.group, states[j].px)
  {
    hide Inv, History, Enabled, Step, PaxosDrained.Lost, PaxosDrained.Starved;
    if i == 0 {
      PaxosDrained.NotLostAtFirst<BatchId>(c.group);
    } else {
      LostIff(c, states, events, i - 1);
      RunHistory(c, states, events, i - 1);
      LostStep(c, states[i - 1], events[i - 1]);
    }
  }

  // ---------------------------------------------------------------------
  // Nothing in flight
  // ---------------------------------------------------------------------

  ghost predicate Quiet(s: State) {
    s.sent == s.delivered && s.px.sent == s.px.delivered
  }

  /** Every batch has a slot. */
  lemma BatchHasSlot(c: Cluster, s: State, id: BatchId)
    requires Inv(c, s) && History(c, s) && Quiet(s) && id in s.batches
    ensures id in s.px.log
  {
    assert Proposal(c, id) in s.px.delivered;
    assert multiset(s.px.log)[id] == s.px.delivered[Proposal(c, id)];
  }

  /** Every slot but a lost one was ordered in every region, and its part is there. */
  lemma SlotComplete(c: Cluster, s: State, r: nat, k: nat)
    requires ValidCluster(c) && Inv(c, s) && History(c, s) && Quiet(s) && r < c.regions && k < |s.px.log|
    ensures r < |s.logs| && (BatchLogs.Complete(s.logs[r].seen, k) <==> k > 0 || !PaxosDrained.Lost(c.group, s.px))
  {
    hide CountersFresh, Placed, Project, MsgsGood, PaxosDrained.CommitInv;
    assert LogGood(s.px.log, s.batches, s.delivered, r, s.logs[r]) && Holds(s.delivered, r, s.logs[r]);
    assert s.px.delivered <= s.px.sent;
    SlotsSent(c, s.px, s.batches);
    Ordered(c, s.px, k);
    var id := s.px.log[k];
    assert BatchData(r, id, Project(s.batches[id], r)) in s.delivered;
    assert s.sent[BatchOrder(r, k, id)] == s.px.delivered[Decision(c, s.px.log, k)];
    assert (k > 0 || !PaxosDrained.Lost(c.group, s.px)) <==> BatchOrder(r, k, id) in s.delivered;
    hide Paxos.Inv, ProposedOnce, OrdersOnce, BatchSent, AllHold, LogsGood, BatchLogs.Fair;
    TraceOrders(s.logs[r]);
  }

  lemma TraceOrders(t: Trace)
    requires BatchLogs.TraceInv(t)
    ensures forall k :: k in t.seen.slots ==> t.seen.slots[k] in t.seen.orders
  {
  }

  lemma Ordered(c: Cluster, px: Paxos.State<BatchId>, k: nat)
    requires ValidCluster(c) && Paxos.Inv(c.group, px) && px.sent == px.delivered && k < |px.log|
    ensures px.delivered[Decision(c, px.log, k)] == if k > 0 || !PaxosDrained.Lost(c.group, px) then 1 else 0
  {
    PaxosDrained.DrainedCommitted(c.group, px, k);
  }

  lemma EmittedCount(t: Trace)
    requires BatchLogs.TraceInv(t) && t.log.ready == []
    ensures BatchLogs.IsLongest(t.seen, |t.emitted|)
  {
    assert t.out + [] == t.out;
  }

  /** Once nothing is in flight, every region's sequencer has been given its projection of all
      multi-home transactions that were ever sent in a batch, in one global order, exactly if
      slot 0 of the global Paxos never starved; otherwise it has been given nothing. */
  lemma DrainedStreams(c: Cluster, states: seq<State>, events: seq<Event>, i: nat, r: nat)
    requires ValidCluster(c) && IsRun(c, states, events) && i < |states| && Quiet(states[i]) && r < c.regions
    ensures var s := states[i]; var g := Global(s.px.log, s.batches);
      && r < |s.logs|
      && Stream(s, r) == (if forall j ::
        0 <= j <= i ==> !PaxosDrained.Starved(c.group, states[j].px) then Project(g, r) else [])
      && forall id, t :: id in s.batches && t in s.batches[id] ==>
        && t in g
        && (r in t.regions && (forall j :: 0 <= j <= i ==> !PaxosDrained.Starved(c.group, states[j].px)) ==>
              t in Stream(s, r))
  {
    hide IsRun, Inv, History, PaxosDrained.Lost, PaxosDrained.Starved, Project, Stream, Global;
    RunHistory(c, states, events, i);
    LostIff(c, states, events, i);
    StreamOf(c, states[i], r);
    forall id, t | id in states[i].batches && t in states[i].batches[id]
      ensures t in Global(states[i].px.log, states[i].batches)
      ensures r in t.regions && (forall j :: 0 <= j <= i ==> !PaxosDrained.Starved(c.group, states[j].px)) ==>
        t in Stream(states[i], r)
    {
      BatchHasSlot(c, states[i], id);
      InGlobal(states[i].px.log, states[i].batches, id, t);
      ProjectMembers(Global(states[i].px.log, states[i].batches), r, t);
    }
  }

  // ---------------------------------------------------------------------
  // From the transactions added to the streams
  // ---------------------------------------------------------------------

  /** A recorded transaction stands in the batch being filled or in a batch that was sent. */
  ghost predicate Kept(open: map<Machine, (nat, seq<Txn>)>, batches: map<BatchId, seq<Txn>>,
      place: map<Txn, (BatchId, nat)>) {
    forall t :: t in place ==> (exists m :: m in open && t in open[m].1) || exists id ::
      id in batches && t in batches[id]
  }

  lemma AddKept(open: map<Machine, (nat, seq<Txn>)>, batches: map<BatchId, seq<Txn>>,
      place: map<Txn, (BatchId, nat)>, m: Machine, n: nat, txn: Txn, at: (BatchId, nat))
    requires Kept(open, batches, place) && m in open
    ensures Kept(open[m := (n, open[m].1 + [txn])], batches, place[txn := at])
  {
    var open' := open[m := (n, open[m].1 + [txn])];
    assert txn in open'[m].1;
    forall t | t in place
      ensures (exists x :: x in open' && t in open'[x].1) || exists id :: id in batches && t in batches[id]
    {
      if x :| x in open && t in open[x].1 { assert t in open'[x].1; }
    }
  }

  lemma SendKept(open: map<Machine, (nat, seq<Txn>)>, batches: map<BatchId, seq<Txn>>,
      place: map<Txn, (BatchId, nat)>, m: Machine, n: nat, id: BatchId)
    requires Kept(open, batches, place) && m in open && id !in batches
    ensures Kept(open[m := (n, [])], batches[id := open[m].1], place)
  {
    var open', batches' := open[m := (n, [])], batches[id := open[m].1];
    forall t | t in place
      ensures (exists x :: x in open' && t in open'[x].1) || exists b :: b in batches' && t in batches'[b]
    {
      if x :| x in open && t in open[x].1 {
        if x == m { assert t in batches'[id]; } else { assert t in open'[x].1; }
      } else {
        var b :| b in batches && t in batches[b];
        assert t in batches'[b];
      }
    }
  }

  lemma KeptStep(c: Cluster, s: State, e: Event)
    requires ValidCluster(c) && Inv(c, s) && Enabled(c, s, e) && Kept(s.open, s.batches, s.place)
    ensures Kept(Step(c, s, e).open, Step(c, s, e).batches, Step(c, s, e).place)
  {
    hide Kept, Handle, Paxos.Deliver, Parts, Orders, Paxos.Inv, ProposedOnce, Placed, MsgsGood, OrdersOnce, LogsGood;
    match e
    case AddTxn(m, txn) =>
      AddKept(s.open, s.batches, s.place, m, s.open[m].0, txn, (Tagged(m, s.open[m].0), |s.open[m].1|));
    case SendBatch(m) =>
      CounterUsed(s.open, s.batches, c.makers, m);
      SendKept(s.open, s.batches, s.place, m, s.open[m].0 + 1, Tagged(m, s.open[m].0));
    case _ =>
  }

  lemma PlaceStep(c: Cluster, s: State, e: Event, t: Txn)
    requires Enabled(c, s, e)
    ensures t in Step(c, s, e).place <==> t in s.place || (e.AddTxn? && e.txn == t)
  {
    hide Handle, Paxos.Deliver, Parts, Orders;
  }

  /** The transactions recorded are those added so far. */
  lemma {:induction false} RunPlaces(c: Cluster, states: seq<State>, events: seq<Event>, i: nat, t: Txn)
    requires ValidCluster(c) && IsRun(c, states, events) && i < |states|
    ensures t in states[i].place <==> exists j :: 0 <= j < i && events[j].AddTxn? && events[j].txn == t
    ensures Kept(states[i].open, states[i].batches, states[i].place)
  {
    hide Inv, Enabled, Step, Kept;
    if i == 0 {
      assert Kept(states[0].open, states[0].batches, states[0].place) by { NothingPlaced(c); }
    } else {
      RunPlaces(c, states, events, i - 1, t);
      RunInv(c, states, events, i - 1);
      KeptStep(c, states[i - 1], events[i - 1]);
      PlaceStep(c, states[i - 1], events[i - 1], t);
    }
  }

  lemma NothingPlaced(c: Cluster)
    ensures Kept(Init(c).open, Init(c).batches, Init(c).place)
  {
  }

  /** Once nothing is in flight and no batch is being filled, each region's sequencer has been
      given each transaction that was added and names the region exactly once, and no other
      transaction, if slot 0 of the global Paxos never starved. */
  lemma AddedIsStreamed(c: Cluster, states: seq<State>, events: seq<Event>, i: nat, r: nat, t: Txn)
    requires ValidCluster(c) && IsRun(c, states, events) && i < |states| && Quiet(states[i]) && r < c.regions
    requires forall j :: 0 <= j <= i ==> !PaxosDrained.Starved(c.group, states[j].px)
    requires forall m :: m in states[i].open ==> states[i].open[m].1 == []
    ensures r < |states[i].logs|
    ensures multiset(Stream(states[i], r))[t] ==
      if r in t.regions && exists j :: 0 <= j < i && events[j].AddTxn? && events[j].txn == t then 1 else 0
  {
    hide IsRun, Inv, PaxosDrained.Starved, Project, Stream, Global, NoRepeats;
    var s := states[i];
    var g := Global(s.px.log, s.batches);
    DrainedStreams(c, states, events, i, r);
    ProjectCounts(g, r, t);
    RunPlaces(c, states, events, i, t);
    GlobalOnce(c, states, events, i);
    OnceIfThere(g, t);
    GlobalPlaced(c, states, events, i, t);
  }

  lemma GlobalPlaced(c: Cluster, states: seq<State>, events: seq<Event>, i: nat, t: Txn)
    requires ValidCluster(c) && IsRun(c, states, events) && i < |states|
    ensures t in Global(states[i].px.log, states[i].batches) ==> t in states[i].place
  {
    hide IsRun, LogsGood, MsgsGood, OrdersOnce, CountersFresh, NoRepeats;
    RunInv(c, states, events, i);
    var s := states[i];
    assert s.px.delivered <= s.px.sent;
    SlotsDistinct(c, s.px, s.batches);
    GlobalNoRepeats(s.px.log, s.batches, s.open, s.place);
  }

  lemma OnceIfThere(ts: seq<Txn>, t: Txn)
    requires NoRepeats(ts)
    ensures multiset(ts)[t] == if t in ts then 1 else 0
  {
    if t in ts {
      var k :| 0 <= k < |ts| && ts[k] == t;
      assert ts == ts[..k] + [ts[k]] + ts[k + 1..];
      assert t !in ts[..k] && t !in ts[k + 1..];
    }
  }

  lemma StreamOf(c: Cluster, s: State, r: nat)
    requires ValidCluster(c) && Inv(c, s) && History(c, s) && Quiet(s) && r < c.regions
    ensures r < |s.logs|
    ensures Stream(s, r) == if PaxosDrained.Lost(c.group, s.px) then [] else Project(Global(s.px.log, s.batches), r)
  {
    hide CountersFresh, Placed, Project, MsgsGood, History, ProposedOnce, OrdersOnce, Paxos.Inv, PaxosDrained.Lost,
      BatchLogs.Complete;
    var log, t := s.px.log, s.logs[r];
    assert LogGood(log, s.batches, s.delivered, r, t);
    EmittedCount(t);
    forall k: nat | k < |log| ensures BatchLogs.Complete(t.seen, k) <==> k > 0 || !PaxosDrained.Lost(c.group, s.px) {
      SlotComplete(c, s, r, k);
    }
    assert !BatchLogs.Complete(t.seen, |log|) by { NotComplete(t.seen, |log|); }
    if PaxosDrained.Lost(c.group, s.px) { LostOpened(c, s.px); }
    BatchLogs.LongestUnique(t.seen, |t.emitted|, if PaxosDrained.Lost(c.group, s.px) then 0 else |log|);
    EmittedBySlot(log, s.batches, s.delivered, r, t);
    StreamOfSlots(log, s.batches, t.emitted, r);
    assert log[..|log|] == log;
  }

  lemma LostOpened(c: Cluster, px: Paxos.State<BatchId>)
    requires PaxosDrained.Lost(c.group, px)
    ensures px.log != []
  {
  }

  lemma NotComplete(seen: BatchLogs.Seen<seq<Txn>>, k: nat)
    ensures k !in seen.slots ==> !BatchLogs.Complete(seen, k)
  {
  }

  lemma {:induction false} InGlobal(log: seq<BatchId>, batches: map<BatchId, seq<Txn>>, id: BatchId, t: Txn)
    requires id in log && id in batches && t in batches[id]
    ensures t in Global(log, batches)
  {
    var n := |log| - 1;
    if id in log[..n] { InGlobal(log[..n], batches, id, t); } else { assert log[n] == id; }
  }
}
