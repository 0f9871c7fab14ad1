/** The multi-home orderers of module/multi_home_orderer.cpp, one per region, ordered by the
    global Paxos group (module/consensus.cpp). */
module MultiHome {
  import opened Ids
  import Paxos
  import BatchLogs

  type BatchId = nat

  /** A multi-home transaction with the regions it involves. */
  datatype Txn = Txn(id: nat, regions: seq<nat>)

  predicate Involves(t: Txn, r: nat) {
    r in t.regions
  }

  /** The subsequence of transactions involving region r. */
  function Project(ts: seq<Txn>, r: nat): seq<Txn> {
    if ts == [] then []
    else Project(ts[..|ts| - 1], r) + if Involves(ts[|ts| - 1], r) then [ts[|ts| - 1]] else []
  }

  lemma {:induction false} ProjectConcat(a: seq<Txn>, b: seq<Txn>, r: nat)
    ensures Project(a + b, r) == Project(a, r) + Project(b, r)
  {
    if b == [] {
      assert a + b == a;
    } else {
      var last := b[|b| - 1];
      assert (a + b)[..|a + b| - 1] == a + b[..|b| - 1];
      ProjectConcat(a, b[..|b| - 1], r);
    }
  }

  function Flatten<T>(ss: seq<seq<T>>): seq<T> {
    if ss == [] then [] else Flatten(ss[..|ss| - 1]) + ss[|ss| - 1]
  }

  // ---------------------------------------------------------------------
  // The step system
  // ---------------------------------------------------------------------

  /** `group` is the Paxos group of the leader region, `regions` the number of regions. */
  datatype Cluster = Cluster(regions: nat, group: Paxos.Config, makers: set<Machine>)

  ghost predicate ValidCluster(c: Cluster) {
    && Paxos.ValidConfig(c.group) && c.group.leader in c.group.learners
    && (forall m :: m in c.makers ==> Packable(m))
  }

  /** To the orderer of a region: its part of a batch, or the batch of a slot. */
  datatype Msg = BatchData(to: nat, id: BatchId, txns: seq<Txn>) | BatchOrder(to: nat, slot: nat, id: BatchId)

  /** `open` holds, per machine, the batch being filled and its counter; `batches` every batch
      ever sent, whole; `place` the batch and index of every transaction ever added; `logs` the
      batch log of each region's orderer. */
  datatype State = State(
    px: Paxos.State<BatchId>,
    open: map<Machine, (nat, seq<Txn>)>,
    batches: map<BatchId, seq<Txn>>,
    place: map<Txn, (BatchId, nat)>,
    logs: seq<BatchLogs.Trace<seq<Txn>>>,
    sent: multiset<Msg>,
    delivered: multiset<Msg>)

  function Init(c: Cluster): State {
    State(Paxos.Init(c.group), map m | m in c.makers :: (1, []), map[], map[],
          seq(c.regions, r => BatchLogs.Exec([])), multiset{}, multiset{})
  }

  datatype Event =
    | AddTxn(at: Machine, txn: Txn)
    | SendBatch(at: Machine)
    | PaxosDelivery(p: Paxos.Msg<BatchId>)
    | Delivery(m: Msg)

  /** Transaction ids are unique, so a transaction is added once. */
  ghost predicate Enabled(c: Cluster, s: State, e: Event) {
    match e
    case AddTxn(m, txn) => m in s.open && txn !in s.place
    case SendBatch(m) => m in s.open && s.open[m].1 != []
    case PaxosDelivery(p) => Paxos.Enabled(c.group, s.px, Paxos.EvDeliver(p))
    case Delivery(m) => m.to < |s.logs| && s.delivered[m] < s.sent[m]
  }

  /** The parts of a batch, one for the orderer of each region. */
  function Parts(c: Cluster, id: BatchId, txns: seq<Txn>): multiset<Msg> {
    multiset(set r | 0 <= r < c.regions :: BatchData(r, id, Project(txns, r)))
  }

  /** GlobalPaxos::OnCommit: only on the leader's machine, to the orderer of every region. */
  function Orders(c: Cluster, p: Paxos.Msg<BatchId>): multiset<Msg>
    requires p.Commit?
  {
    if p.to != p.leader then multiset{}
    else multiset(set r | 0 <= r < c.regions :: BatchOrder(r, p.slot, p.value))
  }

  /** ProcessForwardBatchData and ProcessForwardBatchOrder, each followed by AdvanceLog. */
  function Handle(t: BatchLogs.Trace<seq<Txn>>, m: Msg): BatchLogs.Trace<seq<Txn>> {
    BatchLogs.Drain(
      match m
      case BatchData(_, id, txns) => BatchLogs.Step(t, BatchLogs.OpAddBatch(id, txns))
      case BatchOrder(_, slot, id) => BatchLogs.Step(t, BatchLogs.OpAddSlot(slot, id, 0)))
  }

  ghost function Step(c: Cluster, s: State, e: Event): State
    requires Enabled(c, s, e)
  {
    match e
    case AddTxn(m, txn) =>
      s.(open := s.open[m := (s.open[m].0, s.open[m].1 + [txn])],
         place := s.place[txn := (Tagged(m, s.open[m].0), |s.open[m].1|)])
    case SendBatch(m) =>
      var id, txns := Tagged(m, s.open[m].0), s.open[m].1;
      s.(px := Paxos.Submit(s.px, c.group.leader, id), open := s.open[m := (s.open[m].0 + 1, [])],
         batches := s.batches[id := txns], sent := s.sent + Parts(c, id, txns))
    case PaxosDelivery(p) =>
      s.(px := Paxos.Deliver(c.group, s.px, p), sent := s.sent + if p.Commit? then Orders(c, p) else multiset{})
    case Delivery(m) =>
      s.(logs := s.logs[m.to := Handle(s.logs[m.to], m)], delivered := s.delivered + multiset{m})
  }

  // ---------------------------------------------------------------------
  // Invariants
  // ---------------------------------------------------------------------

  /** A batch is proposed once, to the leader, and gets a slot as often as the proposal arrived. */
  ghost predicate ProposedOnce(c: Cluster, px: Paxos.State<BatchId>, batches: map<BatchId, seq<Txn>>) {
    && (forall p ::
      p in px.sent && p.Propose? ==> p == Paxos.Propose(c.group.leader, c.group.leader, p.value) && p.value in batches)
    && (forall id :: px.sent[Paxos.Propose(c.group.leader, c.group.leader, id)] <= 1)
    && (forall id :: multiset(px.log)[id] == px.delivered[Paxos.Propose(c.group.leader, c.group.leader, id)])
  }

  ghost predicate CountersFresh(open: map<Machine, (nat, seq<Txn>)>, batches: map<BatchId, seq<Txn>>,
      makers: set<Machine>) {
    && open.Keys == makers
    && (forall m, n: nat :: m in open && open[m].0 <= n ==> Tagged(m, n) !in batches)
  }

  /** A transaction stands nowhere but in its recorded place. */
  ghost predicate Placed(open: map<Machine, (nat, seq<Txn>)>, batches: map<BatchId, seq<Txn>>,
      place: map<Txn, (BatchId, nat)>) {
    && (forall m, i ::
      m in open && 0 <= i < |open[m].1| ==> open[m].1[i] in place && place[open[m].1[i]] == (Tagged(m, open[m].0), i))
    && (forall id, i ::
      id in batches && 0 <= i < |batches[id]| ==> batches[id][i] in place && place[batches[id][i]] == (id, i))
  }

  ghost predicate GoodMsg(c: Cluster, log: seq<BatchId>, batches: map<BatchId, seq<Txn>>, m: Msg) {
    match m
    case BatchData(r, id, txns) => r < c.regions && id in batches && txns == Project(batches[id], r)
    case BatchOrder(r, k, id) => r < c.regions && k < |log| && id == log[k]
  }

  ghost predicate MsgsGood(c: Cluster, log: seq<BatchId>, batches: map<BatchId, seq<Txn>>, sent: multiset<Msg>) {
    forall m :: m in sent ==> GoodMsg(c, log, batches, m)
  }

  function Decision(c: Cluster, log: seq<BatchId>, k: nat): Paxos.Msg<BatchId>
    requires k < |log|
  {
    Paxos.Commit(c.group.leader, c.group.leader, k, log[k], c.group.leader)
  }

  ghost predicate OrdersOnce(c: Cluster, px: Paxos.State<BatchId>, sent: multiset<Msg>) {
    forall r: nat, k: nat :: r < c.regions && k < |px.log| ==>
      sent[BatchOrder(r, k, px.log[k])] == px.delivered[Decision(c, px.log, k)]
  }

  ghost predicate LogGood(log: seq<BatchId>, batches: map<BatchId, seq<Txn>>, delivered: multiset<Msg>, r: nat,
      t: BatchLogs.Trace<seq<Txn>>) {
    && BatchLogs.TraceInv(t) && BatchLogs.Fair(t.seen) && t.log.ready == [] && t.seen.acks == multiset{}
    && (forall k ::
      k in t.seen.slots ==> k < |log| && t.seen.slots[k] == log[k] && BatchOrder(r, k, log[k]) in delivered)
    && (forall id :: id in t.seen.data ==> id in batches && t.seen.data[id] == Project(batches[id], r))
  }

  ghost predicate LogsGood(c: Cluster, log: seq<BatchId>, batches: map<BatchId, seq<Txn>>, delivered: multiset<Msg>,
      logs: seq<BatchLogs.Trace<seq<Txn>>>) {
    && |logs| == c.regions
    && (forall r :: 0 <= r < |logs| ==> LogGood(log, batches, delivered, r, logs[r]))
  }

  ghost predicate Inv(c: Cluster, s: State) {
    && Paxos.Inv(c.group, s.px)
    && ProposedOnce(c, s.px, s.batches)
    && CountersFresh(s.open, s.batches, c.makers) && Placed(s.open, s.batches, s.place)
    && s.delivered <= s.sent
    && MsgsGood(c, s.px.log, s.batches, s.sent)
    && OrdersOnce(c, s.px, s.sent)
    && LogsGood(c, s.px.log, s.batches, s.delivered, s.logs)
  }

  lemma InitInv(c: Cluster)
    requires ValidCluster(c)
    ensures Inv(c, Init(c))
  {
    Paxos.InitInv<BatchId>(c.group);
    var empty: BatchLogs.Trace<seq<Txn>> := BatchLogs.Exec([]);
    assert !BatchLogs.Complete(empty.seen, 0);
    assert BatchLogs.TraceInv(empty);
  }

  lemma AddTxnInv(c: Cluster, s: State, m: Machine, txn: Txn)
    requires Inv(c, s) && Enabled(c, s, AddTxn(m, txn))
    ensures Inv(c, Step(c, s, AddTxn(m, txn)))
  {
    hide Paxos.Inv, LogsGood, ProposedOnce, MsgsGood, OrdersOnce;
  }

  lemma SendBatchInv(c: Cluster, s: State, m: Machine)
    requires ValidCluster(c) && Inv(c, s) && Enabled(c, s, SendBatch(m))
    ensures Inv(c, Step(c, s, SendBatch(m)))
  {
    hide Paxos.Inv, LogsGood, ProposedOnce, MsgsGood, OrdersOnce, Project, CountersFresh, Placed;
    var id, txns := Tagged(m, s.open[m].0), s.open[m].1;
    CounterUsed(s.open, s.batches, c.makers, m);
    PlacedKept(s.open, s.batches, s.place, m);
    Paxos.SubmitInv(c.group, s.px, c.group.leader, id);
    ProposedMore(c, s.px, s.batches, id, txns);
    PartsSent(c, s.px, s.batches, s.sent, id, txns);
    LogsKept(c, s.px.log, s.batches, s.delivered, s.logs, id, txns);
  }

  lemma CounterUsed(open: map<Machine, (nat, seq<Txn>)>, batches: map<BatchId, seq<Txn>>, makers: set<Machine>,
      m: Machine)
    requires CountersFresh(open, batches, makers) && m in open && forall x :: x in makers ==> Packable(x)
    ensures Tagged(m, open[m].0) !in batches
    ensures CountersFresh(open[m := (open[m].0 + 1, [])], batches[Tagged(m, open[m].0) := open[m].1], makers)
  {
    var c := open[m].0;
    var open', batches' := open[m := (c + 1, [])], batches[Tagged(m, c) := open[m].1];
    forall m', n: nat | m' in open' && open'[m'].0 <= n
      ensures Tagged(m', n) !in batches'
    {
      if Tagged(m', n) == Tagged(m, c) {
        TaggedInjective(m', n, m, c);
      }
    }
  }

  lemma PlacedKept(open: map<Machine, (nat, seq<Txn>)>, batches: map<BatchId, seq<Txn>>,
      place: map<Txn, (BatchId, nat)>, m: Machine)
    requires Placed(open, batches, place) && m in open && Tagged(m, open[m].0) !in batches
    ensures Placed(open[m := (open[m].0 + 1, [])], batches[Tagged(m, open[m].0) := open[m].1], place)
  {
  }

  lemma ProposedMore(c: Cluster, px: Paxos.State<BatchId>, batches: map<BatchId, seq<Txn>>, id: BatchId, txns: seq<Txn>)
    requires ProposedOnce(c, px, batches) && id !in batches
    ensures ProposedOnce(c, Paxos.Submit(px, c.group.leader, id), batches[id := txns])
  {
    var p := Paxos.Propose(c.group.leader, c.group.leader, id);
    assert p !in px.sent;
  }

  lemma PartsSent(c: Cluster, px: Paxos.State<BatchId>, batches: map<BatchId, seq<Txn>>, sent: multiset<Msg>,
      id: BatchId, txns: seq<Txn>)
    requires MsgsGood(c, px.log, batches, sent) && OrdersOnce(c, px, sent) && id !in batches
    ensures MsgsGood(c, px.log, batches[id := txns], sent + Parts(c, id, txns))
    ensures OrdersOnce(c, Paxos.Submit(px, c.group.leader, id), sent + Parts(c, id, txns))
  {
    hide Project;
    forall m | m in sent
      ensures GoodMsg(c, px.log, batches[id := txns], m)
    {
      assert GoodMsg(c, px.log, batches, m);
    }
    forall r: nat, k: nat | r < c.regions && k < |px.log|
      ensures (sent + Parts(c, id, txns))[BatchOrder(r, k, px.log[k])] == px.delivered[Decision(c, px.log, k)]
    {
      assert BatchOrder(r, k, px.log[k]) !in Parts(c, id, txns);
    }
  }

  lemma LogsKept(c: Cluster, log: seq<BatchId>, batches: map<BatchId, seq<Txn>>, delivered: multiset<Msg>,
      logs: seq<BatchLogs.Trace<seq<Txn>>>, id: BatchId, txns: seq<Txn>)
    requires LogsGood(c, log, batches, delivered, logs) && id !in batches
    ensures LogsGood(c, log, batches[id := txns], delivered, logs)
  {
    hide BatchLogs.TraceInv, BatchLogs.Fair, Project;
    forall r | 0 <= r < |logs|
      ensures LogGood(log, batches[id := txns], delivered, r, logs[r])
    {
      assert LogGood(log, batches, delivered, r, logs[r]);
    }
  }

  // ---------------------------------------------------------------------
  // Steps of the global Paxos
  // ---------------------------------------------------------------------

  /** Messages other than proposals neither extend the log nor concern the proposals. */
  lemma NotProposed(c: Cluster, px: Paxos.State<BatchId>, batches: map<BatchId, seq<Txn>>, p: Paxos.Msg<BatchId>)
    requires ProposedOnce(c, px, batches) && !p.Propose? && p.to in px.procs
    ensures Paxos.Deliver(c.group, px, p).log == px.log && ProposedOnce(c, Paxos.Deliver(c.group, px, p), batches)
  {
    var px' := Paxos.Deliver(c.group, px, p);
    assert forall x :: x in px'.sent && x.Propose? ==> x in px.sent;
    assert forall id ::
      px'.sent[Paxos.Propose(c.group.leader, c.group.leader, id)] ==
        px.sent[Paxos.Propose(c.group.leader, c.group.leader, id)];
  }

  lemma OrdersGood(c: Cluster, log: seq<BatchId>, batches: map<BatchId, seq<Txn>>, sent: multiset<Msg>,
      p: Paxos.Msg<BatchId>)
    requires MsgsGood(c, log, batches, sent) && p.Commit? && Paxos.GoodMsg(c.group, log, p)
    ensures MsgsGood(c, log, batches, sent + Orders(c, p))
  {
    hide Project;
    forall m | m in sent + Orders(c, p) ensures GoodMsg(c, log, batches, m) {
      if m in sent { assert GoodMsg(c, log, batches, m); }
    }
  }

  lemma Receivable(c: Cluster, px: Paxos.State<BatchId>, p: Paxos.Msg<BatchId>)
    requires Paxos.Inv(c.group, px) && Paxos.Enabled(c.group, px, Paxos.EvDeliver(p))
    ensures p.to in px.procs && Paxos.GoodMsg(c.group, px.log, p)
  {
  }

  lemma CommitOrders(c: Cluster, s: State, p: Paxos.Msg<BatchId>)
    requires ValidCluster(c) && Inv(c, s) && Enabled(c, s, PaxosDelivery(p)) && p.Commit?
    ensures Inv(c, Step(c, s, PaxosDelivery(p)))
  {
    hide LogsGood, CountersFresh, Placed, Paxos.Inv, Paxos.GoodMsg, Paxos.Deliver, ProposedOnce, MsgsGood,
      OrdersOnce, Orders;
    Receivable(c, s.px, p);
    Paxos.StepInv(c.group, s.px, Paxos.EvDeliver(p));
    NotProposed(c, s.px, s.batches, p);
    OrdersSent(c, s.px, s.sent, p);
    OrdersGood(c, s.px.log, s.batches, s.sent, p);
  }

  lemma OrdersSent(c: Cluster, px: Paxos.State<BatchId>, sent: multiset<Msg>, p: Paxos.Msg<BatchId>)
    requires OrdersOnce(c, px, sent) && p.Commit? && Paxos.GoodMsg(c.group, px.log, p) && p.to in px.procs
    ensures OrdersOnce(c, Paxos.Deliver(c.group, px, p), sent + Orders(c, p))
  {
    hide Paxos.Handle;
    var px' := Paxos.Deliver(c.group, px, p);
    forall r: nat, k: nat | r < c.regions && k < |px.log|
      ensures (sent + Orders(c, p))[BatchOrder(r, k, px.log[k])] == px'.delivered[Decision(c, px.log, k)]
    {
      assert sent[BatchOrder(r, k, px.log[k])] == px.delivered[Decision(c, px.log, k)];
      assert Orders(c, p)[BatchOrder(r, k, px.log[k])] == if p == Decision(c, px.log, k) then 1 else 0;
    }
  }

  /** The proposal of a batch gets it a slot. */
  lemma ProposalArrives(c: Cluster, s: State, p: Paxos.Msg<BatchId>)
    requires ValidCluster(c) && Inv(c, s) && Enabled(c, s, PaxosDelivery(p)) && p.Propose?
    ensures Inv(c, Step(c, s, PaxosDelivery(p)))
  {
    hide CountersFresh, LogGood, Placed;
    assert p == Paxos.Propose(c.group.leader, c.group.leader, p.value);
    Paxos.StepInv(c.group, s.px, Paxos.EvDeliver(p));
    var px' := Paxos.Deliver(c.group, s.px, p);
    assert px'.log == s.px.log + [p.value];
    OrdersLonger(c, s.px, s.batches, s.sent, p.value, p);
    hide Paxos.Inv, Project;
    LogsLonger(c, s.px.log, s.batches, s.delivered, s.logs, p.value);
    MsgsLonger(c, s.px.log, s.batches, s.sent, p.value);
    ProposedArrived(c, s.px, s.batches, p);
    assert s.sent + multiset{} == s.sent;
  }

  lemma ProposedArrived(c: Cluster, px: Paxos.State<BatchId>, batches: map<BatchId, seq<Txn>>, p: Paxos.Msg<BatchId>)
    requires ProposedOnce(c, px, batches) && p.Propose? && p.to in px.procs &&
      p == Paxos.Propose(c.group.leader, c.group.leader, p.value)
    ensures ProposedOnce(c, Paxos.Deliver(c.group, px, p), batches)
  {
    var px' := Paxos.Deliver(c.group, px, p);
    assert px'.log == px.log + [p.value] && multiset(px'.log) == multiset(px.log) + multiset{p.value};
    assert forall x :: x in px'.sent && x.Propose? ==> x in px.sent;
    assert forall id ::
      px'.sent[Paxos.Propose(c.group.leader, c.group.leader, id)] ==
        px.sent[Paxos.Propose(c.group.leader, c.group.leader, id)];
  }

  lemma MsgsLonger(c: Cluster, log: seq<BatchId>, batches: map<BatchId, seq<Txn>>, sent: multiset<Msg>, v: BatchId)
    requires MsgsGood(c, log, batches, sent)
    ensures MsgsGood(c, log + [v], batches, sent)
  {
    forall m | m in sent
      ensures GoodMsg(c, log + [v], batches, m)
    {
      assert GoodMsg(c, log, batches, m);
    }
  }

  lemma OrdersLonger(c: Cluster, px: Paxos.State<BatchId>, batches: map<BatchId, seq<Txn>>, sent: multiset<Msg>,
      v: BatchId, p: Paxos.Msg<BatchId>)
    requires Paxos.Inv(c.group, px) && OrdersOnce(c, px, sent) && MsgsGood(c, px.log, batches, sent)
    requires p.Propose? && p.to == c.group.leader && p.to in px.procs && v == p.value
    ensures OrdersOnce(c, Paxos.Deliver(c.group, px, p), sent)
  {
    hide Paxos.Handle;
    var px' := Paxos.Deliver(c.group, px, p);
    forall r: nat, k: nat | r < c.regions && k < |px'.log|
      ensures sent[BatchOrder(r, k, px'.log[k])] == px'.delivered[Decision(c, px'.log, k)]
    {
      var d := Decision(c, px'.log, k);
      if k < |px.log| {
        assert d == Decision(c, px.log, k);
      } else {
        assert !Paxos.GoodMsg(c.group, px.log, d) && px.delivered[d] <= px.sent[d];
        assert !GoodMsg(c, px.log, batches, BatchOrder(r, k, v));
      }
    }
  }

  lemma LogsLonger(c: Cluster, log: seq<BatchId>, batches: map<BatchId, seq<Txn>>, delivered: multiset<Msg>,
      logs: seq<BatchLogs.Trace<seq<Txn>>>, v: BatchId)
    requires LogsGood(c, log, batches, delivered, logs)
    ensures LogsGood(c, log + [v], batches, delivered, logs)
  {
    hide BatchLogs.TraceInv, BatchLogs.Fair, Project;
    forall r | 0 <= r < |logs|
      ensures LogGood(log + [v], batches, delivered, r, logs[r])
    {
      assert LogGood(log, batches, delivered, r, logs[r]);
    }
  }

  lemma OrdersStay(c: Cluster, px: Paxos.State<BatchId>, sent: multiset<Msg>, p: Paxos.Msg<BatchId>)
    requires OrdersOnce(c, px, sent) && !p.Commit? && !p.Propose? && p.to in px.procs
    ensures OrdersOnce(c, Paxos.Deliver(c.group, px, p), sent)
  {
    hide Paxos.Handle;
  }

  lemma PaxosTalks(c: Cluster, s: State, p: Paxos.Msg<BatchId>)
    requires ValidCluster(c) && Inv(c, s) && Enabled(c, s, PaxosDelivery(p)) && !p.Commit? && !p.Propose?
    ensures Inv(c, Step(c, s, PaxosDelivery(p)))
  {
    hide LogsGood, CountersFresh, Placed, Paxos.Inv, Paxos.GoodMsg, Paxos.Deliver, ProposedOnce, MsgsGood, OrdersOnce;
    Receivable(c, s.px, p);
    Paxos.StepInv(c.group, s.px, Paxos.EvDeliver(p));
    NotProposed(c, s.px, s.batches, p);
    OrdersStay(c, s.px, s.sent, p);
    assert s.sent + multiset{} == s.sent;
  }

  // ---------------------------------------------------------------------
  // Deliveries to the orderers
  // ---------------------------------------------------------------------

  lemma DataArrives(log: seq<BatchId>, batches: map<BatchId, seq<Txn>>, delivered: multiset<Msg>, m: Msg,
      t: BatchLogs.Trace<seq<Txn>>)
    requires LogGood(log, batches, delivered, m.to, t) && m.BatchData? && m.id in batches &&
      m.txns == Project(batches[m.id], m.to)
    ensures LogGood(log, batches, delivered + multiset{m}, m.to, Handle(t, m))
  {
    hide BatchLogs.TraceInv, Project, BatchLogs.Drain;
    BatchLogs.StepInv(t, BatchLogs.OpAddBatch(m.id, m.txns));
    BatchLogs.DrainInv(BatchLogs.Step(t, BatchLogs.OpAddBatch(m.id, m.txns)));
  }

  lemma FreshSlot(log: seq<BatchId>, seen: BatchLogs.Seen<seq<Txn>>, k: nat)
    requires BatchLogs.Bijective(seen.slots, seen.orders) && k < |log|
    requires forall i, j :: 0 <= i < j < |log| ==> log[i] != log[j]
    requires forall i :: i in seen.slots ==> i != k && i < |log| && seen.slots[i] == log[i]
    ensures log[k] !in seen.orders
  {
    assert log[k] in seen.orders ==> seen.orders[log[k]].slot in seen.slots;
  }

  lemma OrderArrives(log: seq<BatchId>, batches: map<BatchId, seq<Txn>>, delivered: multiset<Msg>, m: Msg,
      t: BatchLogs.Trace<seq<Txn>>)
    requires LogGood(log, batches, delivered, m.to, t) && m.BatchOrder? && m.slot < |log| && m.id == log[m.slot] &&
      m !in delivered
    requires forall i, j :: 0 <= i < j < |log| ==> log[i] != log[j]
    ensures LogGood(log, batches, delivered + multiset{m}, m.to, Handle(t, m))
  {
    hide BatchLogs.Consistent, Project, BatchLogs.Drain, BatchLogs.Bijective;
    BatchLogs.TraceBijective(t);
    FreshSlot(log, t.seen, m.slot);
    BatchLogs.AddSlotInv(t.log, t.seen, t.out, m.slot, m.id, 0);
    BatchLogs.StepInv(t, BatchLogs.OpAddSlot(m.slot, m.id, 0));
    BatchLogs.DrainInv(BatchLogs.Step(t, BatchLogs.OpAddSlot(m.slot, m.id, 0)));
  }

  /** No batch has two slots. */
  lemma SlotsDistinct(c: Cluster, px: Paxos.State<BatchId>, batches: map<BatchId, seq<Txn>>)
    requires ProposedOnce(c, px, batches) && px.delivered <= px.sent
    ensures forall i, j :: 0 <= i < j < |px.log| ==> px.log[i] != px.log[j]
  {
    forall i, j | 0 <= i < j < |px.log|
      ensures px.log[i] != px.log[j]
    {
      var log, id := px.log, px.log[j];
      var p := Paxos.Propose(c.group.leader, c.group.leader, id);
      assert px.delivered[p] <= px.sent[p] && multiset(log)[id] <= 1;
      assert log == log[..j] + [id] + log[j + 1..];
      assert multiset(log) == multiset(log[..j]) + multiset{id} + multiset(log[j + 1..]);
      assert id !in multiset(log[..j]);
      assert log[i] == log[..j][i] && log[i] in log[..j];
    }
  }

  lemma FirstOrder(c: Cluster, s: State, m: Msg)
    requires ValidCluster(c) && Inv(c, s) && m.BatchOrder? && s.delivered[m] < s.sent[m]
    ensures m.to < c.regions && m.slot < |s.px.log| && m.id == s.px.log[m.slot] && m !in s.delivered
  {
    assert m in s.sent && GoodMsg(c, s.px.log, s.batches, m);
    var d := Decision(c, s.px.log, m.slot);
    assert s.px.delivered[d] <= s.px.sent[d] <= 1;
  }

  lemma DeliveryInv(c: Cluster, s: State, m: Msg)
    requires ValidCluster(c) && Inv(c, s) && Enabled(c, s, Delivery(m))
    ensures Inv(c, Step(c, s, Delivery(m)))
  {
    hide CountersFresh, OrdersOnce, Handle, Project, Placed;
    assert LogGood(s.px.log, s.batches, s.delivered, m.to, s.logs[m.to]);
    assert GoodMsg(c, s.px.log, s.batches, m);
    assert s.px.delivered <= s.px.sent;
    SlotsDistinct(c, s.px, s.batches);
    if m.BatchOrder? {
      FirstOrder(c, s, m);
      OrderArrives(s.px.log, s.batches, s.delivered, m, s.logs[m.to]);
    } else {
      DataArrives(s.px.log, s.batches, s.delivered, m, s.logs[m.to]);
    }
    hide Paxos.Inv, MsgsGood, ProposedOnce;
    OthersKept(c, s.px.log, s.batches, s.delivered, s.logs, m, Handle(s.logs[m.to], m));
  }

  lemma OthersKept(c: Cluster, log: seq<BatchId>, batches: map<BatchId, seq<Txn>>, delivered: multiset<Msg>,
      logs: seq<BatchLogs.Trace<seq<Txn>>>, m: Msg, t: BatchLogs.Trace<seq<Txn>>)
    requires LogsGood(c, log, batches, delivered, logs) && m.to < |logs| &&
      LogGood(log, batches, delivered + multiset{m}, m.to, t)
    ensures LogsGood(c, log, batches, delivered + multiset{m}, logs[m.to := t])
  {
    hide BatchLogs.TraceInv, BatchLogs.Fair, Project;
    forall r | 0 <= r < |logs| && r != m.to
      ensures LogGood(log, batches, delivered + multiset{m}, r, logs[r])
    {
      assert LogGood(log, batches, delivered, r, logs[r]);
    }
  }

  lemma StepInv(c: Cluster, s: State, e: Event)
    requires ValidCluster(c) && Inv(c, s) && Enabled(c, s, e)
    ensures Inv(c, Step(c, s, e))
  {
    hide Inv, Step;
    match e
    case AddTxn(m, txn) => AddTxnInv(c, s, m, txn);
    case SendBatch(m) => SendBatchInv(c, s, m);
    case PaxosDelivery(p) =>
      if p.Commit? { CommitOrders(c, s, p); } else if p.Propose? { ProposalArrives(c, s, p); }
      else { PaxosTalks(c, s, p); }
    case Delivery(m) => DeliveryInv(c, s, m);
  }

  // ---------------------------------------------------------------------
  // Main results, over every run
  // ---------------------------------------------------------------------

  ghost predicate IsRun(c: Cluster, states: seq<State>, events: seq<Event>) {
    && |states| == |events| + 1 && states[0] == Init(c)
    && (forall i ::
      0 <= i < |events| ==> Enabled(c, states[i], events[i]) && states[i + 1] == Step(c, states[i], events[i]))
  }

  lemma {:induction false} RunInv(c: Cluster, states: seq<State>, events: seq<Event>, i: nat)
    requires ValidCluster(c) && IsRun(c, states, events) && i < |states|
    ensures Inv(c, states[i])
  {
    hide Inv, Enabled, Step;
    if i == 0 {
      InitInv(c);
    } else {
      RunInv(c, states, events, i - 1);
      StepInv(c, states[i - 1], events[i - 1]);
    }
  }

  /** All multi-home transactions in the order of the slots of their batches. */
  function Global(log: seq<BatchId>, batches: map<BatchId, seq<Txn>>): seq<Txn> {
    if log == [] then []
    else Global(log[..|log| - 1], batches) + if log[|log| - 1] in batches then batches[log[|log| - 1]] else []
  }

  lemma {:induction false} GlobalPrefix(log: seq<BatchId>, batches: map<BatchId, seq<Txn>>, n: nat)
    requires n <= |log|
    ensures Global(log[..n], batches) <= Global(log, batches)
    decreases |log|
  {
    if n < |log| {
      GlobalPrefix(log[..|log| - 1], batches, n);
      assert log[..|log| - 1][..n] == log[..n];
    } else {
      assert log[..n] == log;
    }
  }

  /** What region r's orderer has sent to its sequencer. */
  function Stream(s: State, r: nat): seq<Txn>
    requires r < |s.logs|
  {
    Flatten(s.logs[r].emitted)
  }

  lemma {:induction false} StreamOfSlots(log: seq<BatchId>, batches: map<BatchId, seq<Txn>>, emitted: seq<seq<Txn>>,
      r: nat)
    requires |emitted| <= |log|
    requires forall k :: 0 <= k < |emitted| ==> log[k] in batches && emitted[k] == Project(batches[log[k]], r)
    ensures Flatten(emitted) == Project(Global(log[..|emitted|], batches), r)
  {
    var n := |emitted|;
    if n > 0 {
      StreamOfSlots(log, batches, emitted[..n - 1], r);
      assert log[..n][..n - 1] == log[..n - 1];
      ProjectConcat(Global(log[..n - 1], batches), batches[log[n - 1]], r);
    }
  }

  lemma ProjectPrefix(a: seq<Txn>, b: seq<Txn>, r: nat)
    requires a <= b
    ensures Project(a, r) <= Project(b, r)
  {
    assert b == a + b[|a|..];
    ProjectConcat(a, b[|a|..], r);
  }

  /** Batches never change once sent, and only sent batches get slots. */
  ghost predicate Grown(s: State, s': State) {
    && s.px.log <= s'.px.log
    && forall id :: id in s.batches ==> id in s'.batches && s'.batches[id] == s.batches[id]
  }

  lemma StepGrows(c: Cluster, s: State, e: Event)
    requires ValidCluster(c) && Inv(c, s) && Enabled(c, s, e)
    ensures Grown(s, Step(c, s, e))
  {
    hide Paxos.Inv, LogsGood, MsgsGood, OrdersOnce, Placed, ProposedOnce, Paxos.Handle, Paxos.Completes, Handle,
      Parts, Orders;
    if e.SendBatch? { CounterUsed(s.open, s.batches, c.makers, e.at); }
  }

  lemma {:induction false} RunGrows(c: Cluster, states: seq<State>, events: seq<Event>, i: nat, j: nat)
    requires ValidCluster(c) && IsRun(c, states, events) && i <= j < |states|
    ensures Grown(states[i], states[j])
    decreases j
  {
    hide Inv, Enabled, Step;
    if i < j {
      RunGrows(c, states, events, i, j - 1);
      RunInv(c, states, events, j - 1);
      StepGrows(c, states[j - 1], events[j - 1]);
    }
  }

  lemma SlotsSent(c: Cluster, px: Paxos.State<BatchId>, batches: map<BatchId, seq<Txn>>)
    requires ProposedOnce(c, px, batches) && px.delivered <= px.sent
    ensures forall k :: 0 <= k < |px.log| ==> px.log[k] in batches
  {
    forall k | 0 <= k < |px.log| ensures px.log[k] in batches {
      var p := Paxos.Propose(c.group.leader, c.group.leader, px.log[k]);
      assert px.log[k] in multiset(px.log) && px.delivered[p] <= px.sent[p];
      assert p in px.sent;
    }
  }

  lemma {:induction false} GlobalSame(log: seq<BatchId>, batches: map<BatchId, seq<Txn>>,
      batches': map<BatchId, seq<Txn>>)
    requires forall k :: 0 <= k < |log| ==> log[k] in batches
    requires forall id :: id in batches ==> id in batches' && batches'[id] == batches[id]
    ensures Global(log, batches') == Global(log, batches)
  {
    if log != [] { GlobalSame(log[..|log| - 1], batches, batches'); }
  }

  /** There is one global sequence: at a later moment of a run it continues the earlier one. */
  lemma GlobalGrows(c: Cluster, states: seq<State>, events: seq<Event>, i: nat, j: nat)
    requires ValidCluster(c) && IsRun(c, states, events) && i <= j < |states|
    ensures Global(states[i].px.log, states[i].batches) <= Global(states[j].px.log, states[j].batches)
  {
    hide IsRun, Global;
    RunGrows(c, states, events, i, j);
    RunInv(c, states, events, i);
    var s, s' := states[i], states[j];
    assert s.px.delivered <= s.px.sent;
    SlotsSent(c, s.px, s.batches);
    GlobalSame(s.px.log, s.batches, s'.batches);
    GlobalPrefix(s'.px.log, s'.batches, |s.px.log|);
    assert s'.px.log[..|s.px.log|] == s.px.log;
  }

  /** Each region's stream is a prefix of the projection of the global sequence, as it is then or
      at any later moment, onto the transactions that involve the region. */
  lemma StreamIsProjection(c: Cluster, states: seq<State>, events: seq<Event>, i: nat, j: nat, r: nat)
    requires ValidCluster(c) && IsRun(c, states, events) && i <= j < |states| && r < c.regions
    ensures r < |states[i].logs|
    ensures Stream(states[i], r) <= Project(Global(states[j].px.log, states[j].batches), r)
  {
    hide IsRun;
    RunInv(c, states, events, i);
    var s := states[i];
    var t := s.logs[r];
    assert LogGood(s.px.log, s.batches, s.delivered, r, t);
    EmittedBySlot(s.px.log, s.batches, s.delivered, r, t);
    StreamOfSlots(s.px.log, s.batches, t.emitted, r);
    GlobalPrefix(s.px.log, s.batches, |t.emitted|);
    var g := Global(s.px.log, s.batches);
    ProjectPrefix(Global(s.px.log[..|t.emitted|], s.batches), g, r);
    GlobalGrows(c, states, events, i, j);
    ProjectPrefix(g, Global(states[j].px.log, states[j].batches), r);
  }

  lemma EmittedBySlot(log: seq<BatchId>, batches: map<BatchId, seq<Txn>>, delivered: multiset<Msg>, r: nat,
      t: BatchLogs.Trace<seq<Txn>>)
    requires LogGood(log, batches, delivered, r, t)
    ensures |t.emitted| <= |log|
    ensures forall k :: 0 <= k < |t.emitted| ==> log[k] in batches && t.emitted[k] == Project(batches[log[k]], r)
  {
    hide Project;
    forall k | 0 <= k < |t.out|
      ensures k in t.seen.slots && t.out[k] == (k, t.seen.slots[k])
    {
      assert (t.out + t.log.ready)[k] == t.out[k];
    }
    if |t.out| > 0 {
      assert |t.out| - 1 in t.seen.slots;
    }
  }

  ghost predicate NoRepeats(ts: seq<Txn>) {
    forall i, j :: 0 <= i < j < |ts| ==> ts[i] != ts[j]
  }

  /** Transactions added once appear once in the global sequence. */
  lemma {:induction false} GlobalNoRepeats(log: seq<BatchId>, batches: map<BatchId, seq<Txn>>,
      open: map<Machine, (nat, seq<Txn>)>, place: map<Txn, (BatchId, nat)>)
    requires Placed(open, batches, place)
    requires forall i, j :: 0 <= i < j < |log| ==> log[i] != log[j]
    ensures NoRepeats(Global(log, batches))
    ensures forall t :: t in Global(log, batches) ==> t in place && place[t].0 in log
  {
    if log != [] {
      var rest, id := log[..|log| - 1], log[|log| - 1];
      GlobalNoRepeats(rest, batches, open, place);
      assert id !in rest;
      var g := Global(rest, batches);
      if id in batches {
        var b := batches[id];
        assert forall i :: 0 <= i < |b| ==> place[b[i]] == (id, i);
        assert forall t :: t in g ==> place[t].0 != id;
        assert Global(log, batches) == g + b;
        forall i, j | 0 <= i < j < |g + b|
          ensures (g + b)[i] != (g + b)[j]
        {
          if j < |g| {
            assert g[i] != g[j];
          } else if i < |g| {
            assert g[i] in g;
          }
        }
      } else {
        assert Global(log, batches) == g;
      }
    }
  }

  ghost predicate Before(ts: seq<Txn>, a: Txn, b: Txn) {
    exists i, j :: 0 <= i < j < |ts| && ts[i] == a && ts[j] == b
  }

  lemma {:induction false} ProjectKeepsOrder(ts: seq<Txn>, r: nat, a: Txn, b: Txn)
    requires Before(Project(ts, r), a, b)
    ensures Before(ts, a, b)
  {
    var n := |ts| - 1;
    var p := Project(ts, r);
    var i, j :| 0 <= i < j < |p| && p[i] == a && p[j] == b;
    var q := Project(ts[..n], r);
    if j < |q| {
      assert q[i] == a && q[j] == b;
      ProjectKeepsOrder(ts[..n], r, a, b);
      var i', j' :| 0 <= i' < j' < n && ts[..n][i'] == a && ts[..n][j'] == b;
      assert ts[i'] == a && ts[j'] == b;
    } else {
      assert ts[n] == b && q[i] == a;
      ProjectMembers(ts[..n], r, a);
      assert a in ts[..n];
      var i' :| 0 <= i' < n && ts[..n][i'] == a;
      assert ts[i'] == a;
    }
  }

  /** The projection holds every transaction that names the region, as often as the list does,
      and no other. */
  lemma {:induction false} ProjectCounts(ts: seq<Txn>, r: nat, t: Txn)
    ensures multiset(Project(ts, r))[t] == if r in t.regions then multiset(ts)[t] else 0
  {
    if ts != [] {
      var n := |ts| - 1;
      ProjectCounts(ts[..n], r, t);
      assert ts == ts[..n] + [ts[n]];
    }
  }

  lemma ProjectMembers(ts: seq<Txn>, r: nat, a: Txn)
    ensures a in Project(ts, r) <==> a in ts && r in a.regions
  {
    ProjectCounts(ts, r, a);
    assert a in Project(ts, r) <==> multiset(Project(ts, r))[a] > 0;
    assert a in ts <==> multiset(ts)[a] > 0;
  }

  lemma {:induction false} ProjectHasBefore(ts: seq<Txn>, r: nat, a: Txn, b: Txn)
    requires Before(ts, a, b) && r in a.regions && r in b.regions
    ensures Before(Project(ts, r), a, b)
  {
    var n := |ts| - 1;
    var i, j :| 0 <= i < j < |ts| && ts[i] == a && ts[j] == b;
    var q := Project(ts[..n], r);
    if j < n {
      assert ts[..n][i] == a && ts[..n][j] == b;
      ProjectHasBefore(ts[..n], r, a, b);
      BeforePrefix(q, Project(ts, r), a, b);
    } else {
      assert ts[..n][i] == a;
      ProjectMembers(ts[..n], r, a);
      var k :| 0 <= k < |q| && q[k] == a;
      assert Project(ts, r)[k] == a && Project(ts, r)[|q|] == b;
    }
  }

  lemma {:induction false} ProjectNoRepeats(ts: seq<Txn>, r: nat)
    requires NoRepeats(ts)
    ensures NoRepeats(Project(ts, r))
  {
    if ts != [] {
      var n := |ts| - 1;
      ProjectNoRepeats(ts[..n], r);
      ProjectMembers(ts[..n], r, ts[n]);
    }
  }

  /** A prefix of the projection skips nothing. */
  lemma PrefixHasBefore(p: seq<Txn>, ts: seq<Txn>, r: nat, a: Txn, b: Txn)
    requires NoRepeats(ts) && p <= Project(ts, r) && Before(ts, a, b) && r in a.regions && b in p
    ensures Before(p, a, b)
  {
    var q := Project(ts, r);
    var k :| 0 <= k < |p| && p[k] == b;
    assert q[k] == b;
    ProjectMembers(ts, r, b);
    ProjectHasBefore(ts, r, a, b);
    ProjectNoRepeats(ts, r);
    var i, j :| 0 <= i < j < |q| && q[i] == a && q[j] == b;
    assert j == k && p[i] == a;
  }

  /** So a region's stream has, before each of its transactions, every transaction that names the
      region and stands earlier in the global sequence, and none that does not name it. */
  lemma StreamHasNoGaps(c: Cluster, states: seq<State>, events: seq<Event>, i: nat, j: nat, r: nat, a: Txn, b: Txn)
    requires ValidCluster(c) && IsRun(c, states, events) && i <= j < |states| && r < c.regions
    ensures r < |states[i].logs|
    ensures b in Stream(states[i], r) ==> r in b.regions && b in Global(states[j].px.log, states[j].batches)
    ensures b in Stream(states[i], r) && r in a.regions && Before(Global(states[j].px.log, states[j].batches), a, b) ==>
      Before(Stream(states[i], r), a, b)
  {
    hide IsRun, Stream, Project, Before, NoRepeats;
    StreamIsProjection(c, states, events, i, j, r);
    GlobalOnce(c, states, events, j);
    var p, g := Stream(states[i], r), Global(states[j].px.log, states[j].batches);
    if b in p {
      InPrefix(p, Project(g, r), b);
      ProjectMembers(g, r, b);
      if r in a.regions && Before(g, a, b) { PrefixHasBefore(p, g, r, a, b); }
    }
  }

  lemma InPrefix(p: seq<Txn>, q: seq<Txn>, b: Txn)
    requires p <= q && b in p
    ensures b in q
  {
  }

  lemma BeforePrefix(p: seq<Txn>, q: seq<Txn>, a: Txn, b: Txn)
    requires p <= q && Before(p, a, b)
    ensures Before(q, a, b)
  {
    var i, j :| 0 <= i < j < |p| && p[i] == a && p[j] == b;
    assert q[i] == a && q[j] == b;
  }

  lemma GlobalOnce(c: Cluster, states: seq<State>, events: seq<Event>, i: nat)
    requires ValidCluster(c) && IsRun(c, states, events) && i < |states|
    ensures NoRepeats(Global(states[i].px.log, states[i].batches))
  {
    hide IsRun, LogsGood, MsgsGood, OrdersOnce, CountersFresh;
    RunInv(c, states, events, i);
    var s := states[i];
    assert s.px.delivered <= s.px.sent;
    SlotsDistinct(c, s.px, s.batches);
    GlobalNoRepeats(s.px.log, s.batches, s.open, s.place);
  }

  /** Two regions never disagree on the order of two transactions they share, at whatever two
      moments of a run one looks at their streams. */
  lemma RegionsAgree(c: Cluster, states: seq<State>, events: seq<Event>, i: nat, j: nat, r1: nat, r2: nat, a: Txn,
      b: Txn)
    requires ValidCluster(c) && IsRun(c, states, events) && i < |states| && j < |states| && r1 < c.regions &&
      r2 < c.regions
    ensures r1 < |states[i].logs| && r2 < |states[j].logs|
    ensures Before(Stream(states[i], r1), a, b) ==> !Before(Stream(states[j], r2), b, a)
  {
    hide IsRun, Stream;
    var m := if i < j then j else i;
    StreamIsProjection(c, states, events, i, m, r1);
    StreamIsProjection(c, states, events, j, m, r2);
    var g := Global(states[m].px.log, states[m].batches);
    GlobalOnce(c, states, events, m);
    if Before(Stream(states[i], r1), a, b) && Before(Stream(states[j], r2), b, a) {
      BeforePrefix(Stream(states[i], r1), Project(g, r1), a, b);
      BeforePrefix(Stream(states[j], r2), Project(g, r2), b, a);
      ProjectKeepsOrder(g, r1, a, b);
      ProjectKeepsOrder(g, r2, b, a);
      assert false;
    }
  }
}

/** The part of a MultiHomeOrderer that fills batches, as an object. */
module MultiHomeOrderers {
  import opened Ids
  import opened MultiHome

  class MultiHomeOrderer {
    const me: Machine
    const batchPerReg: array<seq<Txn>>
    var counter: nat
    var batchSize: nat
    /** The transactions added since the last NewBatch. */
    ghost var current: seq<Txn>

    ghost predicate Valid()
      reads this, batchPerReg
    {
      && batchSize == |current|
      && (forall r :: 0 <= r < batchPerReg.Length ==> batchPerReg[r] == Project(current, r))
    }

    constructor (me: Machine, regions: nat)
      ensures Valid() && this.me == me && batchPerReg.Length == regions && fresh(batchPerReg)
      ensures counter == 1 && current == []
    {
      this.me := me;
      batchPerReg := new seq<Txn>[regions](_ => []);
      counter := 0;
      current := [];
      new;
      NewBatch();
    }

    method NewBatch()
      modifies this, batchPerReg
      ensures Valid() && counter == old(counter) + 1 && current == []
    {
      counter := counter + 1;
      batchSize := 0;
      for r := 0 to batchPerReg.Length
        invariant counter == old(counter) + 1 && batchSize == 0
        invariant forall q :: 0 <= q < r ==> batchPerReg[q] == []
      {
        batchPerReg[r] := [];
      }
      current := [];
    }

    /** Every involved region gets a copy, the last one the transaction itself. `first` says that
        sending of the batch has to be scheduled. */
    method AddToBatch(txn: Txn) returns (first: bool)
      requires Valid() && txn.regions != []
      requires forall i, j :: 0 <= i < j < |txn.regions| ==> txn.regions[i] != txn.regions[j]
      requires forall r :: r in txn.regions ==> r < batchPerReg.Length
      modifies this, batchPerReg
      ensures Valid() && current == old(current) + [txn] && counter == old(counter)
      ensures forall r :: 0 <= r < batchPerReg.Length ==>
        batchPerReg[r] == old(batchPerReg[r]) + if r in txn.regions then [txn] else []
      ensures first <==> old(current) == []
    {
      var regions := txn.regions;
      for i := 0 to |regions| - 1
        invariant batchSize == old(batchSize) && current == old(current) && counter == old(counter)
        invariant forall r :: 0 <= r < batchPerReg.Length ==>
                    batchPerReg[r] == Project(current, r) + if r in regions[..i] then [txn] else []
      {
        assert regions[i] in txn.regions && regions[i] !in regions[..i];
        batchPerReg[regions[i]] := batchPerReg[regions[i]] + [txn];
      }
      var last := regions[|regions| - 1];
      assert last in txn.regions && last !in regions[..|regions| - 1];
      assert regions == regions[..|regions| - 1] + [last];
      batchPerReg[last] := batchPerReg[last] + [txn];
      batchSize := batchSize + 1;
      current := current + [txn];
      assert current[..|current| - 1] == old(current);
      first := batchSize == 1;
    }

    /** The batch id proposed to the global Paxos, and the parts sent to the regions' orderers. */
    method SendBatch(ghost c: Cluster) returns (id: BatchId, parts: multiset<Msg>)
      requires Valid() && c.regions == batchPerReg.Length
      ensures id == Tagged(me, counter) && parts == Parts(c, id, current)
      ensures forall x ::
        parts[x] == if x.BatchData? && x.to < c.regions && x == BatchData(x.to, id, batchPerReg[x.to]) then 1 else 0
    {
      id := Tagged(me, counter);
      var out: set<Msg> := {};
      for r := 0 to batchPerReg.Length
        invariant forall x :: x in out <==> x.BatchData? && x.to < r && x == BatchData(x.to, id, batchPerReg[x.to])
      {
        out := out + {BatchData(r, id, batchPerReg[r])};
      }
      parts := multiset(out);
      ghost var all := set q | 0 <= q < c.regions :: BatchData(q, id, Project(current, q));
      assert forall x :: x in out ==> x in all;
      assert out == all;
    }
  }
}
