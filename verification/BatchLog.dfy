/** The replicated batch log of common/batch_log.cpp. Slots, batch data and
    replication acks arrive in any order; batches leave in slot order once their
    data is present and no ack is outstanding. */
module BatchLogs {
  import opened Prelude
  import opened AsyncLogs

  type BatchId = nat

  datatype State<B> = State(
    slots: Log<BatchId>,
    batches: map<BatchId, B>,
    replication: map<BatchId, int>,
    ready: seq<(nat, BatchId)>)

  function Empty<B>(): State<B> {
    State(Log(map[], 0), map[], map[], [])
  }

  function Counter(m: map<BatchId, int>, id: BatchId): int {
    if id in m then m[id] else 0
  }

  predicate CanRelease<B>(s: State<B>) {
    && s.slots.HasNext()
    && var id := s.slots.items[s.slots.next];
    && id in s.batches && id in s.replication && s.replication[id] == 0
  }

  function ReleaseOne<B>(s: State<B>): (r: State<B>)
    requires CanRelease(s)
    ensures |r.slots.items| < |s.slots.items|
  {
    var id := s.slots.items[s.slots.next];
    s.(slots := s.slots.Advance(), replication := s.replication - {id},
       ready := s.ready + [(s.slots.next, id)])
  }

  /** UpdateReadyBatches: release as long as the next slot can be released. */
  function Update<B>(s: State<B>): (r: State<B>)
    ensures !CanRelease(r) && r.batches == s.batches
    decreases |s.slots.items|
  {
    if CanRelease(s) then Update(ReleaseOne(s)) else s
  }

  function WithBatch<B>(s: State<B>, id: BatchId, b: B): State<B> {
    s.(batches := s.batches[id := b])
  }

  function AddBatch<B>(s: State<B>, id: BatchId, b: B): State<B> {
    Update(WithBatch(s, id, b))
  }

  function WithCounter<B>(s: State<B>, id: BatchId, delta: int): State<B> {
    s.(replication := s.replication[id := Counter(s.replication, id) + delta])
  }

  function AckReplication<B>(s: State<B>, id: BatchId): State<B> {
    Update(WithCounter(s, id, -1))
  }

  /** None when the slot is already buffered, where the original throws. */
  function AddSlot<B>(s: State<B>, slot: nat, id: BatchId, acksNeeded: int): Option<State<B>> {
    var inserted := s.slots.Insert(slot, id);
    if inserted.None? then None else Some(Update(WithCounter(s.(slots := inserted.value), id, acksNeeded)))
  }

  /** NextBatch pops the ready queue and takes the data out of the buffer. */
  function NextBatch<B>(s: State<B>): State<B>
    requires s.ready != []
  {
    s.(ready := s.ready[1..], batches := s.batches - {s.ready[0].1})
  }

  // ---------------------------------------------------------------------
  // The reference: everything the log was ever given, in no particular order
  // ---------------------------------------------------------------------

  /** The slot a batch was ordered at and the number of acks it waits for. */
  datatype Order = Order(slot: nat, acksNeeded: int)

  datatype Seen<B> = Seen(slots: map<nat, BatchId>, orders: map<BatchId, Order>, data: map<BatchId, B>,
      acks: multiset<BatchId>)

  /** No batch gets more acks than it waits for. */
  ghost predicate Fair<B>(seen: Seen<B>) {
    forall id :: id in seen.orders ==> seen.acks[id] <= seen.orders[id].acksNeeded
  }

  ghost predicate Done<B>(seen: Seen<B>, id: BatchId) {
    id in seen.orders && id in seen.data && seen.acks[id] == seen.orders[id].acksNeeded
  }

  ghost predicate Complete<B>(seen: Seen<B>, slot: nat) {
    slot in seen.slots && Done(seen, seen.slots[slot])
  }

  /** n is the length of the longest prefix of slots that are all complete. */
  ghost predicate IsLongest<B>(seen: Seen<B>, n: nat) {
    (forall k: nat :: k < n ==> Complete(seen, k)) && !Complete(seen, n)
  }

  lemma LongestUnique<B>(seen: Seen<B>, m: nat, n: nat)
    requires IsLongest(seen, m) && IsLongest(seen, n)
    ensures m == n
  {
    assert m < n ==> Complete(seen, m);
    assert n < m ==> Complete(seen, n);
  }

  // ---------------------------------------------------------------------
  // What every call keeps
  // ---------------------------------------------------------------------

  ghost predicate Bijective(slots: map<nat, BatchId>, orders: map<BatchId, Order>) {
    forall k, id :: k in slots && slots[k] == id <==> id in orders && orders[id].slot == k
  }

  ghost predicate SlotsAgree(log: Log<BatchId>, slots: map<nat, BatchId>) {
    && (forall k :: k in log.items <==> k in slots && log.next <= k)
    && (forall k :: k in log.items ==> log.items[k] == slots[k])
  }

  ghost predicate CountersAgree(replication: map<BatchId, int>, orders: map<BatchId, Order>, acks: multiset<BatchId>,
      next: nat) {
    && (forall id :: id in orders && orders[id].slot < next ==> id !in replication)
    && (forall id :: id in orders && next <= orders[id].slot ==>
          id in replication && replication[id] == orders[id].acksNeeded - acks[id])
    && (forall id :: id !in orders ==> Counter(replication, id) + acks[id] == 0)
  }

  ghost predicate DataAgrees<B>(batches: map<BatchId, B>, data: map<BatchId, B>, orders: map<BatchId, Order>,
      emitted: nat) {
    && (forall id :: id in batches ==> id in data && batches[id] == data[id])
    && (forall id :: id in data && id !in batches ==> id in orders && orders[id].slot < emitted)
  }

  /** w lists the first n slots in order. */
  ghost predicate Lists(w: seq<(nat, BatchId)>, slots: map<nat, BatchId>, n: nat) {
    && |w| == n
    && (forall i :: 0 <= i < n ==> i in slots && w[i] == (i, slots[i]))
  }

  ghost predicate AllDone<B>(seen: Seen<B>, n: nat) {
    forall k: nat :: k < n ==> Complete(seen, k)
  }

  /** Everything but maximality, for a log that already emitted `out`. */
  ghost predicate Consistent<B>(s: State<B>, seen: Seen<B>, out: seq<(nat, BatchId)>) {
    && Bijective(seen.slots, seen.orders)
    && SlotsAgree(s.slots, seen.slots)
    && CountersAgree(s.replication, seen.orders, seen.acks, s.slots.next)
    && DataAgrees(s.batches, seen.data, seen.orders, |out|)
    && Lists(out + s.ready, seen.slots, s.slots.next)
    && AllDone(seen, s.slots.next)
  }

  ghost predicate Inv<B>(s: State<B>, seen: Seen<B>, out: seq<(nat, BatchId)>) {
    Consistent(s, seen, out) && !Complete(seen, s.slots.next)
  }

  // One lemma per component, so that each proof sees only the maps it is about.

  lemma CountersRelease(rep: map<BatchId, int>, slots: map<nat, BatchId>, orders: map<BatchId, Order>,
      acks: multiset<BatchId>, n: nat)
    requires Bijective(slots, orders) && CountersAgree(rep, orders, acks, n) && n in slots
    ensures CountersAgree(rep - {slots[n]}, orders, acks, n + 1)
  {
  }

  lemma CountersOrder(rep: map<BatchId, int>, orders: map<BatchId, Order>, acks: multiset<BatchId>, n: nat,
      id: BatchId, o: Order)
    requires CountersAgree(rep, orders, acks, n) && id !in orders && n <= o.slot
    ensures CountersAgree(rep[id := Counter(rep, id) + o.acksNeeded], orders[id := o], acks, n)
  {
  }

  lemma CountersAck(rep: map<BatchId, int>, orders: map<BatchId, Order>, acks: multiset<BatchId>, n: nat, id: BatchId)
    requires CountersAgree(rep, orders, acks, n)
    requires id in orders ==> n <= orders[id].slot
    ensures CountersAgree(rep[id := Counter(rep, id) - 1], orders, acks + multiset{id}, n)
  {
  }

  lemma ListsMore(w: seq<(nat, BatchId)>, slots: map<nat, BatchId>, n: nat)
    requires Lists(w, slots, n) && n in slots
    ensures Lists(w + [(n, slots[n])], slots, n + 1)
  {
  }

  lemma ListsKept(w: seq<(nat, BatchId)>, slots: map<nat, BatchId>, n: nat, slot: nat, id: BatchId)
    requires Lists(w, slots, n) && slot !in slots
    ensures Lists(w, slots[slot := id], n)
  {
  }

  lemma OrderKept(log: Log<BatchId>, slots: map<nat, BatchId>, orders: map<BatchId, Order>, slot: nat, id: BatchId,
      acksNeeded: int)
    requires Bijective(slots, orders) && SlotsAgree(log, slots)
    requires slot !in slots && id !in orders && log.next <= slot
    ensures log.Insert(slot, id).Some?
    ensures Bijective(slots[slot := id], orders[id := Order(slot, acksNeeded)])
    ensures SlotsAgree(log.Insert(slot, id).value, slots[slot := id])
  {
  }

  lemma AllDoneKept<B>(seen: Seen<B>, seen': Seen<B>, n: nat)
    requires AllDone(seen, n)
    requires forall k :: k in seen.slots ==> k in seen'.slots && seen'.slots[k] == seen.slots[k]
    requires forall id :: Done(seen, id) ==> Done(seen', id)
    ensures AllDone(seen', n)
  {
    forall k: nat | k < n
      ensures Complete(seen', k)
    {
      assert Complete(seen, k);
    }
  }

  lemma ReleaseOneConsistent<B>(s: State<B>, seen: Seen<B>, out: seq<(nat, BatchId)>)
    requires Consistent(s, seen, out) && CanRelease(s)
    ensures Consistent(ReleaseOne(s), seen, out)
  {
    var n := s.slots.next;
    assert n in seen.slots && s.slots.items[n] == seen.slots[n];
    CountersRelease(s.replication, seen.slots, seen.orders, seen.acks, n);
    ListsMore(out + s.ready, seen.slots, n);
    assert out + ReleaseOne(s).ready == (out + s.ready) + [(n, seen.slots[n])];
    assert Complete(seen, n);
  }

  lemma {:induction false} UpdateConsistent<B>(s: State<B>, seen: Seen<B>, out: seq<(nat, BatchId)>)
    requires Consistent(s, seen, out)
    ensures Inv(Update(s), seen, out)
    decreases |s.slots.items|
  {
    if CanRelease(s) {
      ReleaseOneConsistent(s, seen, out);
      UpdateConsistent(ReleaseOne(s), seen, out);
    }
  }

  lemma AddBatchInv<B>(s: State<B>, seen: Seen<B>, out: seq<(nat, BatchId)>, id: BatchId, b: B)
    requires Inv(s, seen, out)
    requires id in seen.data ==> seen.data[id] == b
    ensures Inv(AddBatch(s, id, b), seen.(data := seen.data[id := b]), out)
  {
    var seen' := seen.(data := seen.data[id := b]);
    assert forall k: nat :: Complete(seen, k) ==> Complete(seen', k);
    UpdateConsistent(WithBatch(s, id, b), seen', out);
  }

  function WithOrder<B>(seen: Seen<B>, slot: nat, id: BatchId, acksNeeded: int): Seen<B> {
    seen.(slots := seen.slots[slot := id], orders := seen.orders[id := Order(slot, acksNeeded)])
  }

  lemma OrderConsistent<B>(s: State<B>, seen: Seen<B>, out: seq<(nat, BatchId)>, slot: nat, id: BatchId,
      acksNeeded: int)
    requires Consistent(s, seen, out)
    requires slot !in seen.slots && id !in seen.orders && s.slots.next <= slot
    ensures s.slots.Insert(slot, id).Some?
    ensures Consistent(WithCounter(s.(slots := s.slots.Insert(slot, id).value), id, acksNeeded),
                       WithOrder(seen, slot, id, acksNeeded), out)
  {
    hide CountersAgree, Bijective, Lists;
    CountersOrder(s.replication, seen.orders, seen.acks, s.slots.next, id, Order(slot, acksNeeded));
    ListsKept(out + s.ready, seen.slots, s.slots.next, slot, id);
    OrderKept(s.slots, seen.slots, seen.orders, slot, id, acksNeeded);
    AllDoneKept(seen, WithOrder(seen, slot, id, acksNeeded), s.slots.next);
  }

  lemma AddSlotInv<B>(s: State<B>, seen: Seen<B>, out: seq<(nat, BatchId)>, slot: nat, id: BatchId, acksNeeded: int)
    requires Inv(s, seen, out)
    requires slot !in seen.slots && id !in seen.orders
    ensures AddSlot(s, slot, id, acksNeeded).Some?
    ensures Inv(AddSlot(s, slot, id, acksNeeded).value, WithOrder(seen, slot, id, acksNeeded), out)
  {
    assert s.slots.next <= slot by {
      assert slot < s.slots.next ==> Complete(seen, slot);
    }
    OrderConsistent(s, seen, out, slot, id, acksNeeded);
    UpdateConsistent(WithCounter(s.(slots := s.slots.Insert(slot, id).value), id, acksNeeded),
                     WithOrder(seen, slot, id, acksNeeded), out);
  }

  function WithAck<B>(seen: Seen<B>, id: BatchId): Seen<B> {
    seen.(acks := seen.acks + multiset{id})
  }

  lemma AckConsistent<B>(s: State<B>, seen: Seen<B>, out: seq<(nat, BatchId)>, id: BatchId)
    requires Consistent(s, seen, out) && !Done(seen, id)
    ensures Consistent(WithCounter(s, id, -1), WithAck(seen, id), out)
  {
    hide CountersAgree, Lists;
    assert id in seen.orders && seen.orders[id].slot < s.slots.next ==> Complete(seen, seen.orders[id].slot);
    CountersAck(s.replication, seen.orders, seen.acks, s.slots.next, id);
    AllDoneKept(seen, WithAck(seen, id), s.slots.next);
  }

  lemma AckInv<B>(s: State<B>, seen: Seen<B>, out: seq<(nat, BatchId)>, id: BatchId)
    requires Inv(s, seen, out) && Fair(WithAck(seen, id))
    ensures Inv(AckReplication(s, id), WithAck(seen, id), out)
  {
    assert WithAck(seen, id).acks[id] == seen.acks[id] + 1;
    AckConsistent(s, seen, out, id);
    UpdateConsistent(WithCounter(s, id, -1), WithAck(seen, id), out);
  }

  lemma NextInv<B>(s: State<B>, seen: Seen<B>, out: seq<(nat, BatchId)>)
    requires Inv(s, seen, out) && s.ready != []
    ensures s.ready[0].1 in s.batches
    ensures Inv(NextBatch(s), seen, out + [s.ready[0]])
  {
    assert (out + s.ready)[|out|] == s.ready[0];
    assert Complete(seen, |out|);
    assert (out + [s.ready[0]]) + NextBatch(s).ready == out + s.ready;
    hide CountersAgree, SlotsAgree, Bijective, AllDone, Complete;
    assert DataAgrees(NextBatch(s).batches, seen.data, seen.orders, |out| + 1) by { DataTaken(s, seen, out); }
  }

  lemma DataTaken<B>(s: State<B>, seen: Seen<B>, out: seq<(nat, BatchId)>)
    requires Inv(s, seen, out) && s.ready != []
    ensures DataAgrees(NextBatch(s).batches, seen.data, seen.orders, |out| + 1)
  {
    hide CountersAgree, SlotsAgree;
    assert (out + s.ready)[|out|] == s.ready[0];
    assert Complete(seen, |out|);
  }

  // ---------------------------------------------------------------------
  // Every interleaving of calls
  // ---------------------------------------------------------------------

  datatype Op<B> =
    | OpAddBatch(id: BatchId, b: B)
    | OpAddSlot(slot: nat, id: BatchId, acksNeeded: int)
    | OpAck(id: BatchId)
    | OpNext

  /** The log, what it was given, and what NextBatch returned: slots and ids, and their data. */
  datatype Trace<B> = Trace(log: State<B>, seen: Seen<B>, out: seq<(nat, BatchId)>, emitted: seq<B>)

  /** A call the original answers: no slot or batch ordered twice, NextBatch only on a ready
      batch, and the data of a batch never changes. */
  ghost predicate Allowed<B>(t: Trace<B>, op: Op<B>) {
    match op
    case OpAddBatch(id, b) => id in t.seen.data ==> t.seen.data[id] == b
    case OpAddSlot(slot, id, _) => slot !in t.seen.slots && id !in t.seen.orders
    case OpAck(id) => true
    case OpNext => t.log.ready != []
  }

  /** One call; where the original throws or dereferences a missing batch the trace stands still. */
  function Step<B>(t: Trace<B>, op: Op<B>): Trace<B> {
    match op
    case OpAddBatch(id, b) =>
      t.(log := AddBatch(t.log, id, b), seen := t.seen.(data := t.seen.data[id := b]))
    case OpAddSlot(slot, id, acksNeeded) =>
      var log' := AddSlot(t.log, slot, id, acksNeeded);
      if log'.None? then t else t.(log := log'.value, seen := WithOrder(t.seen, slot, id, acksNeeded))
    case OpAck(id) =>
      t.(log := AckReplication(t.log, id), seen := WithAck(t.seen, id))
    case OpNext =>
      if t.log.ready == [] || t.log.ready[0].1 !in t.log.batches then t
      else t.(log := NextBatch(t.log), out := t.out + [t.log.ready[0]],
              emitted := t.emitted + [t.log.batches[t.log.ready[0].1]])
  }

  function Exec<B>(ops: seq<Op<B>>): Trace<B> {
    if ops == [] then Trace(Empty(), Seen(map[], map[], map[], multiset{}), [], [])
    else Step(Exec(ops[..|ops| - 1]), ops[|ops| - 1])
  }

  ghost predicate AllAllowed<B>(ops: seq<Op<B>>) {
    ops == [] || (AllAllowed(ops[..|ops| - 1]) && Allowed(Exec(ops[..|ops| - 1]), ops[|ops| - 1]))
  }

  ghost predicate EmittedData<B>(out: seq<(nat, BatchId)>, emitted: seq<B>, data: map<BatchId, B>) {
    && |emitted| == |out|
    && (forall i :: 0 <= i < |out| ==> out[i].1 in data && emitted[i] == data[out[i].1])
  }

  ghost predicate TraceInv<B>(t: Trace<B>) {
    Inv(t.log, t.seen, t.out) && EmittedData(t.out, t.emitted, t.seen.data)
  }

  lemma StepInv<B>(t: Trace<B>, op: Op<B>)
    requires TraceInv(t) && Allowed(t, op) && Fair(Step(t, op).seen)
    ensures TraceInv(Step(t, op))
  {
    hide Consistent;
    match op
    case OpAddBatch(id, b) => AddBatchInv(t.log, t.seen, t.out, id, b);
    case OpAddSlot(slot, id, acksNeeded) => AddSlotInv(t.log, t.seen, t.out, slot, id, acksNeeded);
    case OpAck(id) => AckInv(t.log, t.seen, t.out, id);
    case OpNext =>
      NextInv(t.log, t.seen, t.out);
      ReadyHasData(t.log, t.seen, t.out, 0);
  }

  lemma TraceBijective<B>(t: Trace<B>)
    requires TraceInv(t)
    ensures Bijective(t.seen.slots, t.seen.orders)
  {
  }

  /** NextBatch always finds the batch it is about to hand out. */
  lemma ReadyHasData<B>(s: State<B>, seen: Seen<B>, out: seq<(nat, BatchId)>, j: nat)
    requires Consistent(s, seen, out) && j < |s.ready|
    ensures s.ready[j].1 in s.batches && s.ready[j].1 in seen.data
    ensures s.batches[s.ready[j].1] == seen.data[s.ready[j].1]
  {
    assert (out + s.ready)[|out| + j] == s.ready[j];
    assert Complete(seen, |out| + j);
  }

  /** Fairness of a history is fairness of each of its prefixes. */
  lemma FairBefore<B>(t: Trace<B>, op: Op<B>)
    requires Allowed(t, op) && Fair(Step(t, op).seen)
    ensures Fair(t.seen)
  {
    var t' := Step(t, op);
    forall id | id in t.seen.orders
      ensures t.seen.acks[id] <= t.seen.orders[id].acksNeeded
    {
      assert id in t'.seen.orders && t'.seen.orders[id] == t.seen.orders[id];
    }
  }

  lemma {:induction false} ExecInv<B>(ops: seq<Op<B>>)
    requires AllAllowed(ops) && Fair(Exec(ops).seen)
    ensures TraceInv(Exec(ops))
  {
    if ops == [] {
      assert !Complete(Exec<B>([]).seen, 0);
    } else {
      FairBefore(Exec(ops[..|ops| - 1]), ops[|ops| - 1]);
      ExecInv(ops[..|ops| - 1]);
      StepInv(Exec(ops[..|ops| - 1]), ops[|ops| - 1]);
    }
  }

  /** Emitted plus ready is exactly the longest complete prefix of the slots, in slot order,
      what was emitted is each batch's own data, and every ready batch has its data. */
  lemma ReleasesLongestPrefix<B>(ops: seq<Op<B>>)
    requires AllAllowed(ops) && Fair(Exec(ops).seen)
    ensures var t := Exec(ops);
            && IsLongest(t.seen, |t.out + t.log.ready|)
            && Lists(t.out + t.log.ready, t.seen.slots, |t.out + t.log.ready|)
            && EmittedData(t.out, t.emitted, t.seen.data)
            && (forall j :: 0 <= j < |t.log.ready| ==> t.log.ready[j].1 in t.log.batches)
  {
    ExecInv(ops);
    var t := Exec(ops);
    forall j | 0 <= j < |t.log.ready|
      ensures t.log.ready[j].1 in t.log.batches
    {
      ReadyHasData(t.log, t.seen, t.out, j);
    }
  }

  /** Taking out every ready batch, as the users of the log do after each call. */
  function Drain<B>(t: Trace<B>): Trace<B>
    decreases |t.log.ready|
  {
    if t.log.ready == [] || t.log.ready[0].1 !in t.log.batches then t else Drain(Step(t, OpNext))
  }

  lemma {:induction false} DrainKeepsSeen<B>(t: Trace<B>)
    ensures Drain(t).seen == t.seen
    decreases |t.log.ready|
  {
    if t.log.ready != [] && t.log.ready[0].1 in t.log.batches { DrainKeepsSeen(Step(t, OpNext)); }
  }

  lemma {:induction false} DrainInv<B>(t: Trace<B>)
    requires TraceInv(t) && Fair(t.seen)
    ensures TraceInv(Drain(t)) && Drain(t).log.ready == [] && Drain(t).seen == t.seen
    ensures t.out <= Drain(t).out && t.emitted <= Drain(t).emitted
    decreases |t.log.ready|
  {
    if t.log.ready != [] {
      ReadyHasData(t.log, t.seen, t.out, 0);
      StepInv(t, OpNext);
      DrainInv(Step(t, OpNext));
    }
  }

  ghost predicate CallsMade<B(!new)>(seen: Seen<B>, ops: seq<Op<B>>) {
    && (forall id: BatchId :: seen.acks[id] == multiset(ops)[OpAck(id)])
    && (forall id: BatchId, k: nat, n: int ::
          (id in seen.orders && seen.orders[id] == Order(k, n)) <==> OpAddSlot(k, id, n) in multiset(ops))
    && (forall id: BatchId, b: B :: (id in seen.data && seen.data[id] == b) <==> OpAddBatch(id, b) in multiset(ops))
  }

  /** The history is determined by which calls were made, not by their order. */
  lemma {:induction false} SeenByCalls<B(!new)>(ops: seq<Op<B>>)
    requires AllAllowed(ops) && Fair(Exec(ops).seen)
    ensures CallsMade(Exec(ops).seen, ops)
  {
    if ops != [] {
      var rest, op := ops[..|ops| - 1], ops[|ops| - 1];
      assert ops == rest + [op];
      assert multiset(ops) == multiset(rest) + multiset{op};
      FairBefore(Exec(rest), op);
      SeenByCalls(rest);
      ExecInv(rest);
      if op.OpAddSlot? {
        AddSlotInv(Exec(rest).log, Exec(rest).seen, Exec(rest).out, op.slot, op.id, op.acksNeeded);
      }
      RecordCall(Exec(rest).seen, Exec(ops).seen, rest, op);
    }
  }

  /** What one answered call adds to the history. */
  ghost predicate Recorded<B>(seen: Seen<B>, seen': Seen<B>, op: Op<B>) {
    match op
    case OpAddBatch(id, b) => (id in seen.data ==> seen.data[id] == b) && seen' == seen.(data := seen.data[id := b])
    case OpAddSlot(slot, id, n) => id !in seen.orders && seen' == WithOrder(seen, slot, id, n)
    case OpAck(id) => seen' == WithAck(seen, id)
    case OpNext => seen' == seen
  }

  lemma RecordCall<B(!new)>(seen: Seen<B>, seen': Seen<B>, rest: seq<Op<B>>, op: Op<B>)
    requires CallsMade(seen, rest) && Recorded(seen, seen', op)
    ensures CallsMade(seen', rest + [op])
  {
    assert multiset(rest + [op]) == multiset(rest) + multiset{op};
  }

  /** Confluence: two runs with the same AddBatch, AddSlot and AckReplication calls, in any
      order and with NextBatch called at any points, have released the same batches. */
  lemma Confluent<B(!new)>(ops1: seq<Op<B>>, ops2: seq<Op<B>>)
    requires AllAllowed(ops1) && Fair(Exec(ops1).seen)
    requires AllAllowed(ops2) && Fair(Exec(ops2).seen)
    requires forall op :: op != OpNext ==> multiset(ops1)[op] == multiset(ops2)[op]
    ensures Exec(ops1).out + Exec(ops1).log.ready == Exec(ops2).out + Exec(ops2).log.ready
  {
    SeenByCalls(ops1);
    SeenByCalls(ops2);
    SameCalls(Exec(ops1).seen, Exec(ops2).seen, ops1, ops2);
    ExecInv(ops1);
    ExecInv(ops2);
    SameHistory(Exec(ops1), Exec(ops2));
  }

  ghost predicate Included<K, V>(m1: map<K, V>, m2: map<K, V>) {
    forall k :: k in m1 ==> k in m2 && m2[k] == m1[k]
  }

  lemma FewerCalls<B(!new)>(seen1: Seen<B>, seen2: Seen<B>, ops1: seq<Op<B>>, ops2: seq<Op<B>>)
    requires CallsMade(seen1, ops1) && CallsMade(seen2, ops2)
    requires forall op :: op != OpNext ==> multiset(ops1)[op] == multiset(ops2)[op]
    ensures Included(seen1.orders, seen2.orders) && Included(seen1.data, seen2.data)
  {
    forall id | id in seen1.data
      ensures id in seen2.data && seen2.data[id] == seen1.data[id]
    {
      var op := OpAddBatch(id, seen1.data[id]);
      assert op in multiset(ops1) && op in multiset(ops2);
    }
    forall id | id in seen1.orders
      ensures id in seen2.orders && seen2.orders[id] == seen1.orders[id]
    {
      var o := seen1.orders[id];
      var op: Op<B> := OpAddSlot(o.slot, id, o.acksNeeded);
      assert seen1.orders[id] == Order(o.slot, o.acksNeeded);
      assert op in multiset(ops1) && op in multiset(ops2);
    }
  }

  lemma SameCalls<B(!new)>(seen1: Seen<B>, seen2: Seen<B>, ops1: seq<Op<B>>, ops2: seq<Op<B>>)
    requires CallsMade(seen1, ops1) && CallsMade(seen2, ops2)
    requires forall op :: op != OpNext ==> multiset(ops1)[op] == multiset(ops2)[op]
    ensures seen1.orders == seen2.orders && seen1.data == seen2.data && seen1.acks == seen2.acks
  {
    FewerCalls(seen1, seen2, ops1, ops2);
    FewerCalls(seen2, seen1, ops2, ops1);
    forall id: BatchId
      ensures seen1.acks[id] == seen2.acks[id]
    {
      var op: Op<B> := OpAck(id);
      assert multiset(ops1)[op] == multiset(ops2)[op];
    }
  }

  lemma SlotsIncluded(slots1: map<nat, BatchId>, slots2: map<nat, BatchId>, orders: map<BatchId, Order>)
    requires Bijective(slots1, orders) && Bijective(slots2, orders)
    ensures Included(slots1, slots2)
  {
    forall k | k in slots1
      ensures k in slots2 && slots2[k] == slots1[k]
    {
      assert slots1[k] in orders;
    }
  }

  lemma SameHistory<B>(t1: Trace<B>, t2: Trace<B>)
    requires TraceInv(t1) && TraceInv(t2)
    requires t1.seen.orders == t2.seen.orders && t1.seen.data == t2.seen.data && t1.seen.acks == t2.seen.acks
    ensures t1.out + t1.log.ready == t2.out + t2.log.ready
  {
    hide Bijective, CountersAgree, DataAgrees, SlotsAgree;
    SlotsIncluded(t1.seen.slots, t2.seen.slots, t1.seen.orders);
    SlotsIncluded(t2.seen.slots, t1.seen.slots, t1.seen.orders);
    assert t1.seen == t2.seen;
    LongestUnique(t1.seen, t1.log.slots.next, t2.log.slots.next);
  }
}

/** The log as an object: UpdateReadyBatches is a loop, and every method is proved
    to compute the function of the same name. */
module MutableBatchLog {
  import opened Prelude
  import opened AsyncLogs
  import opened BatchLogs

  class BatchLog<B> {
    const slots: AsyncLog<BatchId>
    var batches: map<BatchId, B>
    var replication: map<BatchId, int>
    var ready: seq<(nat, BatchId)>

    ghost function View(): State<B>
      reads this, slots
    {
      State(slots.View(), batches, replication, ready)
    }

    constructor ()
      ensures View() == Empty() && fresh(slots)
    {
      slots := new AsyncLog<BatchId>();
      batches := map[];
      replication := map[];
      ready := [];
    }

    method AddBatch(id: BatchId, b: B)
      modifies this, slots
      ensures View() == BatchLogs.AddBatch(old(View()), id, b)
    {
      batches := batches[id := b];
      UpdateReadyBatches();
    }

    method AckReplication(id: BatchId)
      modifies this, slots
      ensures View() == BatchLogs.AckReplication(old(View()), id)
    {
      replication := replication[id := (if id in replication then replication[id] else 0) - 1];
      UpdateReadyBatches();
    }

    /** `ok == false` stands for the exception AsyncLog.Insert throws. */
    method AddSlot(slot: nat, id: BatchId, acksNeeded: int) returns (ok: bool)
      modifies this, slots
      ensures ok == BatchLogs.AddSlot(old(View()), slot, id, acksNeeded).Some?
      ensures View() == if ok then BatchLogs.AddSlot(old(View()), slot, id, acksNeeded).value else old(View())
    {
      ok := slots.Insert(slot, id);
      if ok {
        replication := replication[id := (if id in replication then replication[id] else 0) + acksNeeded];
        UpdateReadyBatches();
      }
    }

    method HasNextBatch() returns (b: bool)
      ensures b == (View().ready != [])
    {
      b := ready != [];
    }

    method NextBatch() returns (slot: nat, id: BatchId, b: B)
      requires ready != [] && ready[0].1 in batches
      modifies this
      ensures (slot, id) == old(ready[0]) && b == old(batches[ready[0].1]) && batches == old(batches) - {id}
      ensures View() == BatchLogs.NextBatch(old(View()))
    {
      slot, id := ready[0].0, ready[0].1;
      ready := ready[1..];
      b := batches[id];
      batches := batches - {id};
    }

    method UpdateReadyBatches()
      modifies this, slots
      ensures View() == Update(old(View()))
    {
      var more := slots.HasNext();
      while more
        invariant more == View().slots.HasNext()
        invariant Update(View()) == Update(old(View()))
        decreases more, |slots.items|
      {
        var id := slots.Peek();
        if id in batches && id in replication && replication[id] == 0 {
          replication := replication - {id};
          var slot, _ := slots.Next();
          ready := ready + [(slot, id)];
          more := slots.HasNext();
        } else {
          return;
        }
      }
    }
  }
}
