/** What every step of the log system keeps. */
module LogSystemProofs {
  import opened Ids
  import opened LogSystem
  import LocalLogs
  import BatchLogs

  // ---------------------------------------------------------------------
  // The relay trees: which message brings an item to a machine
  // ---------------------------------------------------------------------

  /** Something every machine concerned must receive exactly once: the data of a batch, a slot
      decided by Paxos (home region), or a slot ordered by the leader (other regions). */
  datatype Item = IData(gen: Machine, pos: nat) | ILocal(slot: nat) | IRemote(slot: nat)

  predicate Concerns(c: Cluster, i: Item, m: Machine) {
    && IsMachine(c, m)
    && match i
       case IData(g, _) => AtHome(c, g)
       case ILocal(_) => m.region == c.home
       case IRemote(_) => m.region != c.home
  }

  /** The sender within a region's tree: from outside to replica 0 of the entry partition, from
      there to the entry partition of the other replicas, and inside each replica to the rest. */
  function TreeFrom(entry: nat, outside: Machine, m: Machine): Machine {
    if m.partition != entry then Machine(m.region, m.replica, entry)
    else if m.replica != 0 then Machine(m.region, 0, entry)
    else outside
  }

  function Source(c: Cluster, i: Item, m: Machine): Machine
    requires ValidCluster(c)
  {
    match i
    case IData(g, pos) =>
      var entry := DataPartition(c, g, pos, m);
      if m.region != c.home then TreeFrom(entry, g, m)
      else if m.replica == g.replica || m.partition == entry then g
      else Machine(c.home, m.replica, entry)
    case ILocal(_) => if IsLearner(c, m) then m else Machine(c.home, m.replica, 0)
    case IRemote(_) => TreeFrom(EntryPartition(c, m.region), LeaderOf(c), m)
  }

  /** The item comes to m from where it originates, not from another machine of the tree. */
  predicate IsRoot(c: Cluster, i: Item, m: Machine)
    requires ValidCluster(c)
  {
    match i
    case IData(g, _) => Source(c, i, m) == g
    case ILocal(_) => IsLearner(c, m)
    case IRemote(_) => Source(c, i, m) == LeaderOf(c)
  }

  function At(log: seq<Machine>, k: nat): Machine {
    if k < |log| then log[k] else Machine(0, 0, 0)
  }

  /** How many of the first n slots went to generator g. */
  function Earlier(log: seq<Machine>, n: nat, g: Machine): (r: nat)
    ensures r <= n
  {
    if n == 0 then 0 else Earlier(log, n - 1, g) + if At(log, n - 1) == g then 1 else 0
  }

  /** The batch that belongs to slot k, as a function of the slots agreed on alone. */
  function Target(log: seq<Machine>, k: nat): BatchId {
    IdOf(At(log, k), Earlier(log, k, At(log, k)))
  }

  function InMsg(c: Cluster, log: seq<Machine>, i: Item, m: Machine): Msg
    requires ValidCluster(c)
  {
    var from := Source(c, i, m);
    match i
    case IData(g, pos) => Data(from, m, g, pos, IdOf(g, pos), from.region != m.region || from.replica != m.replica)
    case ILocal(k) => LocalOrder(from, m, k, At(log, k), LeaderOf(c))
    case IRemote(k) => RemoteOrder(from, m, k, Target(log, k), NeedAck(c, m.region))
  }

  function ItemOf(m: Msg): Item
    requires !m.Ack?
  {
    match m
    case Data(_, _, g, pos, _, _) => IData(g, pos)
    case LocalOrder(_, _, k, _, _) => ILocal(k)
    case RemoteOrder(_, _, k, _, _) => IRemote(k)
  }

  ghost predicate Children(c: Cluster, i: Item, m: Machine, kids: set<Machine>)
    requires ValidCluster(c)
  {
    forall d :: d in kids <==> Concerns(c, i, d) && !IsRoot(c, i, d) && Source(c, i, d) == m
  }

  lemma PartitionInRange(c: Cluster, g: Machine, pos: nat, m: Machine)
    requires ValidCluster(c)
    ensures EntryPartition(c, m.region) < c.partitions && DataPartition(c, g, pos, m) < c.partitions
  {
  }

  /** The relay rule of the log manager sends a message to exactly the children of the tree. */
  lemma RelayIsChildren(c: Cluster, i: Item, m: Machine)
    requires ValidCluster(c) && Concerns(c, i, m) && !i.ILocal?
    ensures Children(c, i, m, Relay(c, m, Source(c, i, m)))
  {
  }

  lemma LocalRelayIsChildren(c: Cluster, k: nat, m: Machine)
    requires ValidCluster(c) && Concerns(c, ILocal(k), m)
    ensures var from := Source(c, ILocal(k), m);
            Children(c, ILocal(k), m,
                     if LeaderOf(c).replica != m.replica && from.partition == m.partition then OtherPartitions(c, m)
                     else {})
  {
  }

  // ---------------------------------------------------------------------
  // One machine: its two logs against the agreed slots
  // ---------------------------------------------------------------------

  /** The agreed slots go to generators of the home region. */
  ghost predicate HomeLog(c: Cluster, log: seq<Machine>) {
    forall k :: 0 <= k < |log| ==> AtHome(c, log[k])
  }

  lemma {:induction false} EarlierGrows(log: seq<Machine>, m: nat, n: nat, g: Machine)
    requires m <= n
    ensures Earlier(log, m, g) <= Earlier(log, n, g)
  {
    if m < n {
      EarlierGrows(log, m, n - 1, g);
    }
  }

  /** Different slots hold different batches. */
  lemma TargetInjective(c: Cluster, log: seq<Machine>, j: nat, k: nat)
    requires ValidCluster(c) && HomeLog(c, log) && j < k < |log|
    ensures Target(log, j) != Target(log, k)
  {
    if Target(log, j) == Target(log, k) {
      TaggedInjective(log[j], Earlier(log, j, log[j]) + 1, log[k], Earlier(log, k, log[k]) + 1);
      EarlierGrows(log, j + 1, k, log[j]);
      assert false;
    }
  }

  lemma {:induction false} EarlierKept(log: seq<Machine>, v: Machine, n: nat, g: Machine)
    requires n <= |log|
    ensures Earlier(log + [v], n, g) == Earlier(log, n, g)
  {
    if n != 0 {
      EarlierKept(log, v, n - 1, g);
    }
  }

  /** Slots agreed later do not change the batch of an earlier slot. */
  lemma TargetKept(log: seq<Machine>, v: Machine, k: nat)
    requires k < |log|
    ensures Target(log + [v], k) == Target(log, k)
  {
    EarlierKept(log, v, k, At(log, k));
  }

  /** What the local log was given agrees with the agreed slots and the generators' batch ids. */
  ghost predicate LocalAgrees(c: Cluster, log: seq<Machine>, seen: LocalLogs.Seen<Machine>) {
    && (forall k :: k in seen.slots ==> k < |log| && seen.slots[k] == LocalLogs.Choice(log[k], LeaderOf(c)))
    && (forall g, pos :: (g, pos) in seen.ids ==> seen.ids[(g, pos)] == IdOf(g, pos))
  }

  lemma {:induction false} EarlierAgrees(c: Cluster, log: seq<Machine>, seen: LocalLogs.Seen<Machine>, n: nat,
      g: Machine)
    requires LocalAgrees(c, log, seen) && forall k: nat :: k < n ==> k in seen.slots
    ensures LocalLogs.Earlier(seen.slots, n, g) == Earlier(log, n, g)
  {
    if n != 0 {
      EarlierAgrees(c, log, seen, n - 1, g);
    }
  }

  /** The k-th entry of the merged local log is the batch that belongs to slot k. */
  lemma MergedIsTarget(c: Cluster, log: seq<Machine>, seen: LocalLogs.Seen<Machine>, k: nat)
    requires LocalAgrees(c, log, seen) && LocalLogs.AllMergeable(seen, k + 1)
    ensures LocalLogs.Mergeable(seen, k) && LocalLogs.Merged(seen, k) == LocalLogs.Entry(k, Target(log, k), LeaderOf(c))
  {
    assert LocalLogs.Mergeable(seen, k);
    forall j: nat | j < k
      ensures j in seen.slots
    {
      assert LocalLogs.Mergeable(seen, j);
    }
    EarlierAgrees(c, log, seen, k, log[k]);
  }

  /** The home log of a machine knows slots 0..n-1, with the batches that belong to them. */
  ghost predicate KnowsSlots(log: seq<Machine>, seen: BatchLogs.Seen<()>, n: nat, acksNeeded: int) {
    && n <= |log|
    && (forall k: nat :: k in seen.slots <==> k < n)
    && (forall k :: k in seen.slots ==> seen.slots[k] == Target(log, k))
    && (forall id :: id in seen.orders ==> seen.orders[id].acksNeeded == acksNeeded)
  }

  ghost predicate AcksBounded(log: seq<Machine>, acks: multiset<BatchId>, bound: int) {
    forall k: nat :: k < |log| ==> acks[Target(log, k)] <= bound
  }

  ghost predicate TraceGood(t: BatchLogs.Trace<()>) {
    BatchLogs.TraceInv(t) && BatchLogs.Fair(t.seen)
  }

  /** A machine of the home region, possibly in the middle of AdvanceLog. */
  ghost predicate HomeMid(c: Cluster, log: seq<Machine>, n: Node) {
    && LocalLogs.Inv(n.local.log, n.local.seen, n.local.out)
    && LocalAgrees(c, log, n.local.seen)
    && TraceGood(n.log)
    && KnowsSlots(log, n.log.seen, |n.local.out|, c.factor - 1)
    && AcksBounded(log, n.log.seen.acks, c.factor - 1)
  }

  lemma FreshTarget(c: Cluster, log: seq<Machine>, seen: BatchLogs.Seen<()>, n: nat)
    requires ValidCluster(c) && HomeLog(c, log) && n < |log|
    requires BatchLogs.Bijective(seen.slots, seen.orders)
    requires forall k :: k in seen.slots ==> k < |log| && k != n && seen.slots[k] == Target(log, k)
    ensures Target(log, n) !in seen.orders
  {
    var id := Target(log, n);
    if id in seen.orders {
      var k := seen.orders[id].slot;
      assert k in seen.slots && seen.slots[k] == id;
      if k < n { TargetInjective(c, log, k, n); } else { TargetInjective(c, log, n, k); }
      assert false;
    }
  }

  /** Adding a slot not seen before, in whatever order the slots come. */
  lemma SlotAdded(c: Cluster, log: seq<Machine>, t: BatchLogs.Trace<()>, n: nat, acksNeeded: int)
    requires ValidCluster(c) && HomeLog(c, log) && n < |log|
    requires TraceGood(t) && t.seen.acks[Target(log, n)] <= acksNeeded
    requires forall k :: k in t.seen.slots ==> k < |log| && k != n && t.seen.slots[k] == Target(log, k)
    ensures var t' := BatchLogs.Step(t, BatchLogs.OpAddSlot(n, Target(log, n), acksNeeded));
            && TraceGood(t') && t'.seen == BatchLogs.WithOrder(t.seen, n, Target(log, n), acksNeeded) && t'.out == t.out
  {
    var id := Target(log, n);
    FreshTarget(c, log, t.seen, n);
    hide BatchLogs.Consistent, Target;
    BatchLogs.AddSlotInv(t.log, t.seen, t.out, n, id, acksNeeded);
    BatchLogs.StepInv(t, BatchLogs.OpAddSlot(n, id, acksNeeded));
  }

  /** Adding the next slot of the home log. */
  lemma NextSlotAdded(c: Cluster, log: seq<Machine>, t: BatchLogs.Trace<()>, n: nat, acksNeeded: int)
    requires ValidCluster(c) && HomeLog(c, log) && n < |log|
    requires TraceGood(t) && KnowsSlots(log, t.seen, n, acksNeeded) && AcksBounded(log, t.seen.acks, acksNeeded)
    ensures var t' := BatchLogs.Step(t, BatchLogs.OpAddSlot(n, Target(log, n), acksNeeded));
            && TraceGood(t') && KnowsSlots(log, t'.seen, n + 1, acksNeeded)
            && t'.seen.acks == t.seen.acks && t'.seen.data == t.seen.data && t'.out == t.out
  {
    hide TraceGood, Target, BatchLogs.Step;
    SlotAdded(c, log, t, n, acksNeeded);
  }

  /** Nothing is emitted, and the history of data and acks stays, while local entries move over. */
  ghost predicate SameInputs(n: Node, n': Node) {
    && n'.local.seen == n.local.seen && n'.local.out == n.local.out + n.local.log.ready
    && n'.log.seen.acks == n.log.seen.acks && n'.log.seen.data == n.log.seen.data && n'.log.out == n.log.out
  }

  /** A root order message of the remote tree, for a slot in from..to. */
  ghost predicate IsNewOrder(c: Cluster, log: seq<Machine>, m: Msg, from: nat, to: nat)
    requires ValidCluster(c)
  {
    && m.RemoteOrder? && Concerns(c, IRemote(m.slot), m.to) && IsRoot(c, IRemote(m.slot), m.to)
    && m == InMsg(c, log, IRemote(m.slot), m.to) && from <= m.slot < to
  }

  lemma OrderAbroadCounts(c: Cluster, log: seq<Machine>, k: nat)
    requires ValidCluster(c)
    ensures forall m ::
      OrderAbroad(c, LeaderOf(c), k, Target(log, k))[m] == if IsNewOrder(c, log, m, k, k + 1) then 1 else 0
  {
    forall m: Msg
      ensures OrderAbroad(c, LeaderOf(c), k, Target(log, k))[m] == if IsNewOrder(c, log, m, k, k + 1) then 1 else 0
    {
      PartitionInRange(c, LeaderOf(c), 0, m.to);
    }
  }

  /** One round of the first loop of AdvanceLog. */
  lemma DrainOne(c: Cluster, log: seq<Machine>, n: Node)
    requires ValidCluster(c) && HomeLog(c, log) && HomeMid(c, log, n) && n.local.log.ready != []
    ensures var k := |n.local.out|;
            var n1 := Node(LocalLogs.Step(n.local, LocalLogs.OpNext),
                           BatchLogs.Step(n.log, BatchLogs.OpAddSlot(k, Target(log, k), c.factor - 1)));
            && n.local.log.ready[0] == LocalLogs.Entry(k, Target(log, k), LeaderOf(c)) && k < |log|
            && HomeMid(c, log, n1)
            && n1.local.seen == n.local.seen && n1.local.out == n.local.out + [n.local.log.ready[0]]
            && n1.local.log.ready == n.local.log.ready[1..]
            && n1.log.seen.acks == n.log.seen.acks && n1.log.seen.data == n.log.seen.data && n1.log.out == n.log.out
  {
    hide TraceGood, KnowsSlots, AcksBounded;
    var k := |n.local.out|;
    assert (n.local.out + n.local.log.ready)[k] == n.local.log.ready[0];
    MergedIsTarget(c, log, n.local.seen, k);
    assert k in n.local.seen.slots;
    LocalLogs.NextInv(n.local.log, n.local.seen, n.local.out);
    NextSlotAdded(c, log, n.log, k, c.factor - 1);
  }

  lemma {:induction false} DrainLocalGood(c: Cluster, log: seq<Machine>, me: Machine, n: Node)
    requires ValidCluster(c) && HomeLog(c, log) && HomeMid(c, log, n)
    ensures var (n', out) := DrainLocal(c, me, n);
            && HomeMid(c, log, n') && SameInputs(n, n') && n'.local.log.ready == []
            && forall m ::
              out[m] == if me == LeaderOf(c) && IsNewOrder(c, log, m, |n.local.out|, |n'.local.out|) then 1 else 0
    decreases |n.local.log.ready|
  {
    hide HomeMid, OrderAbroad;
    if n.local.log.ready == [] {
    } else {
      var k := |n.local.out|;
      DrainOne(c, log, n);
      var n1 := Node(LocalLogs.Step(n.local, LocalLogs.OpNext),
                     BatchLogs.Step(n.log, BatchLogs.OpAddSlot(k, Target(log, k), c.factor - 1)));
      DrainLocalGood(c, log, me, n1);
      OrderAbroadCounts(c, log, k);
      assert n.local.out + n.local.log.ready == n1.local.out + n1.local.log.ready;
    }
  }

  /** AdvanceLog on a machine of the home region. */
  lemma AdvanceHome(c: Cluster, log: seq<Machine>, me: Machine, n: Node)
    requires ValidCluster(c) && HomeLog(c, log) && HomeMid(c, log, n)
    ensures var (n', out) := Advance(c, me, n);
            && HomeMid(c, log, n') && n'.local.log.ready == [] && n'.log.log.ready == []
            && n'.local.seen == n.local.seen && n'.local.out == n.local.out + n.local.log.ready
            && n'.log.seen.acks == n.log.seen.acks && n.log.out <= n'.log.out
            && forall m ::
              out[m] == if me == LeaderOf(c) && IsNewOrder(c, log, m, |n.local.out|, |n'.local.out|) then 1 else 0
  {
    hide LocalLogs.Inv, LocalAgrees, BatchLogs.TraceInv, BatchLogs.Fair, KnowsSlots, IsNewOrder, DrainLocal,
      BatchLogs.Drain;
    DrainLocalGood(c, log, me, n);
    BatchLogs.DrainInv(DrainLocal(c, me, n).0.log);
  }

  /** AdvanceLog elsewhere: the local log is not used. */
  lemma AdvanceRemote(c: Cluster, me: Machine, n: Node)
    requires ValidCluster(c) && TraceGood(n.log) && n.local.log.ready == []
    ensures var (n', out) := Advance(c, me, n);
            && out == multiset{} && n'.local == n.local
            && TraceGood(n'.log) && n'.log.log.ready == [] && n'.log.seen == n.log.seen && n.log.out <= n'.log.out
  {
    BatchLogs.DrainInv(n.log);
  }

  lemma NoContent(x: ())
    ensures x == ()
  {
    match x
    case () =>
  }

  lemma DataAtHome(c: Cluster, log: seq<Machine>, n: Node, g: Machine, pos: nat)
    requires HomeMid(c, log, n) && (g, pos) !in n.local.seen.ids
    ensures var n' := Node(LocalLogs.Step(n.local, LocalLogs.OpBatchId(g, pos, IdOf(g, pos))),
                           BatchLogs.Step(n.log, BatchLogs.OpAddBatch(IdOf(g, pos), ())));
            && HomeMid(c, log, n')
            && n'.local.seen == LocalLogs.WithId(n.local.seen, g, pos, IdOf(g, pos)) && n'.local.out == n.local.out
            && n'.log.seen.acks == n.log.seen.acks && n'.log.out == n.log.out
  {
    hide LocalLogs.Inv, BatchLogs.TraceInv;
    LocalLogs.AddBatchIdInv(n.local.log, n.local.seen, n.local.out, g, pos, IdOf(g, pos));
    DataAbroadArrives(n.log, IdOf(g, pos));
  }

  lemma OrderAtHome(c: Cluster, log: seq<Machine>, n: Node, k: nat)
    requires HomeMid(c, log, n) && k < |log| && k !in n.local.seen.slots
    ensures var choice := LocalLogs.Choice(log[k], LeaderOf(c));
            var n' := n.(local := LocalLogs.Step(n.local, LocalLogs.OpSlot(k, choice)));
            && HomeMid(c, log, n')
            && n'.local.seen == LocalLogs.WithSlot(n.local.seen, k, choice) && n'.local.out == n.local.out
  {
    hide LocalLogs.Inv, TraceGood, KnowsSlots, AcksBounded;
    LocalLogs.AddSlotInv(n.local.log, n.local.seen, n.local.out, k, LocalLogs.Choice(log[k], LeaderOf(c)));
  }

  lemma FairWithAck(c: Cluster, log: seq<Machine>, seen: BatchLogs.Seen<()>, n: nat, needed: int, id: BatchId)
    requires KnowsSlots(log, seen, n, needed) && BatchLogs.Bijective(seen.slots, seen.orders)
    requires AcksBounded(log, seen.acks + multiset{id}, needed)
    ensures BatchLogs.Fair(BatchLogs.WithAck(seen, id))
  {
    forall i | i in seen.orders
      ensures (seen.acks + multiset{id})[i] <= seen.orders[i].acksNeeded
    {
      var k := seen.orders[i].slot;
      assert k in seen.slots && seen.slots[k] == Target(log, k);
    }
  }

  lemma AckAtHome(c: Cluster, log: seq<Machine>, n: Node, id: BatchId)
    requires HomeMid(c, log, n) && AcksBounded(log, n.log.seen.acks + multiset{id}, c.factor - 1)
    ensures var n' := n.(log := BatchLogs.Step(n.log, BatchLogs.OpAck(id)));
            && HomeMid(c, log, n')
            && n'.log.seen.acks == n.log.seen.acks + multiset{id} && n'.log.out == n.log.out
  {
    hide LocalLogs.Inv, LocalAgrees, BatchLogs.TraceInv, BatchLogs.Fair, AcksBounded, BatchLogs.Bijective;
    BatchLogs.TraceBijective(n.log);
    FairWithAck(c, log, n.log.seen, |n.local.out|, c.factor - 1, id);
    BatchLogs.StepInv(n.log, BatchLogs.OpAck(id));
  }

  lemma DataAbroadArrives(t: BatchLogs.Trace<()>, id: BatchId)
    requires TraceGood(t)
    ensures var t' := BatchLogs.Step(t, BatchLogs.OpAddBatch(id, ()));
            && TraceGood(t') && t'.seen == t.seen.(data := t.seen.data[id := ()]) && t'.out == t.out
  {
    hide BatchLogs.TraceInv;
    if id in t.seen.data {
      NoContent(t.seen.data[id]);
    }
    BatchLogs.StepInv(t, BatchLogs.OpAddBatch(id, ()));
  }
}
