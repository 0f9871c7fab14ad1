/** The LocalLog of module/log_manager.cpp: it merges the slot order agreed by the local
    Paxos process (slot -> queue) with the per-queue positions of batch ids. */
module LocalLogs {
  import opened Prelude
  import opened AsyncLogs

  type BatchId = nat

  /** What the local Paxos process decided for a slot. */
  datatype Choice<M> = Choice(queue: M, leader: M)

  datatype Entry<M> = Entry(slot: nat, id: BatchId, leader: M)

  datatype State<M> = State(slots: Log<Choice<M>>, queues: map<M, Log<BatchId>>, ready: seq<Entry<M>>)

  function Empty<M>(): State<M> {
    State(Log(map[], 0), map[], [])
  }

  function Queue<M>(queues: map<M, Log<BatchId>>, q: M): Log<BatchId> {
    if q in queues then queues[q] else Log(map[], 0)
  }

  predicate CanMerge<M(==)>(s: State<M>) {
    && s.slots.HasNext()
    && var q := s.slots.items[s.slots.next].queue;
    && q in s.queues && s.queues[q].HasNext()
  }

  function MergeOne<M>(s: State<M>): (r: State<M>)
    requires CanMerge(s)
    ensures |r.slots.items| < |s.slots.items|
  {
    var n := s.slots.next;
    var c := s.slots.items[n];
    var queue := s.queues[c.queue];
    State(s.slots.Advance(), s.queues[c.queue := queue.Advance()],
          s.ready + [Entry(n, queue.items[queue.next], c.leader)])
  }

  /** UpdateReadyBatches */
  function Update<M>(s: State<M>): (r: State<M>)
    ensures !CanMerge(r)
    decreases |s.slots.items|
  {
    if CanMerge(s) then Update(MergeOne(s)) else s
  }

  /** None where AsyncLog.Insert throws because the position is taken. */
  function AddBatchId<M>(s: State<M>, q: M, position: nat, id: BatchId): Option<State<M>> {
    var inserted := Queue(s.queues, q).Insert(position, id);
    if inserted.None? then None else Some(Update(s.(queues := s.queues[q := inserted.value])))
  }

  function AddSlot<M>(s: State<M>, slot: nat, c: Choice<M>): Option<State<M>> {
    var inserted := s.slots.Insert(slot, c);
    if inserted.None? then None else Some(Update(s.(slots := inserted.value)))
  }

  function NextBatch<M>(s: State<M>): State<M>
    requires s.ready != []
  {
    s.(ready := s.ready[1..])
  }

  // ---------------------------------------------------------------------
  // The reference: the merge of everything ever given
  // ---------------------------------------------------------------------

  datatype Seen<M(==)> = Seen(slots: map<nat, Choice<M>>, ids: map<(M, nat), BatchId>)

  /** How many of the first n slots name queue q. */
  function Earlier<M(==)>(slots: map<nat, Choice<M>>, n: nat, q: M): (r: nat)
    ensures r <= n
  {
    if n == 0 then 0
    else Earlier(slots, n - 1, q) + if n - 1 in slots && slots[n - 1].queue == q then 1 else 0
  }

  /** The place of slot k's batch in the queue the slot names. */
  function Place<M(==)>(slots: map<nat, Choice<M>>, k: nat): (M, nat)
    requires k in slots
  {
    (slots[k].queue, Earlier(slots, k, slots[k].queue))
  }

  predicate Mergeable<M(==)>(seen: Seen<M>, k: nat) {
    k in seen.slots && Place(seen.slots, k) in seen.ids
  }

  function Merged<M(==)>(seen: Seen<M>, k: nat): Entry<M>
    requires Mergeable(seen, k)
  {
    Entry(k, seen.ids[Place(seen.slots, k)], seen.slots[k].leader)
  }

  ghost predicate AllMergeable<M>(seen: Seen<M>, n: nat) {
    forall k: nat :: k < n ==> Mergeable(seen, k)
  }

  /** n is the length of the longest prefix of slots whose batches are all known. */
  ghost predicate IsLongest<M>(seen: Seen<M>, n: nat) {
    AllMergeable(seen, n) && !Mergeable(seen, n)
  }

  ghost predicate Lists<M>(w: seq<Entry<M>>, seen: Seen<M>, n: nat) {
    && |w| == n
    && (forall k: nat :: k < n ==> Mergeable(seen, k) && w[k] == Merged(seen, k))
  }

  // ---------------------------------------------------------------------
  // What every call keeps
  // ---------------------------------------------------------------------

  ghost predicate SlotsAgree<M>(log: Log<Choice<M>>, slots: map<nat, Choice<M>>) {
    && (forall k :: k in log.items <==> k in slots && log.next <= k)
    && (forall k :: k in log.items ==> log.items[k] == slots[k])
  }

  ghost predicate QueueAgrees<M>(log: Log<BatchId>, q: M, ids: map<(M, nat), BatchId>, next: nat) {
    && log.next == next
    && (forall p: nat :: p in log.items <==> (q, p) in ids && next <= p)
    && (forall p: nat :: p in log.items ==> log.items[p] == ids[(q, p)])
  }

  ghost predicate QueuesAgree<M(!new)>(queues: map<M, Log<BatchId>>, seen: Seen<M>, n: nat) {
    forall q :: QueueAgrees(Queue(queues, q), q, seen.ids, Earlier(seen.slots, n, q))
  }

  ghost predicate Consistent<M(!new)>(s: State<M>, seen: Seen<M>, out: seq<Entry<M>>) {
    && SlotsAgree(s.slots, seen.slots)
    && QueuesAgree(s.queues, seen, s.slots.next)
    && Lists(out + s.ready, seen, s.slots.next)
  }

  ghost predicate Inv<M(!new)>(s: State<M>, seen: Seen<M>, out: seq<Entry<M>>) {
    Consistent(s, seen, out) && !Mergeable(seen, s.slots.next)
  }

  lemma MergeOneQueues<M(!new)>(s: State<M>, seen: Seen<M>)
    requires SlotsAgree(s.slots, seen.slots) && QueuesAgree(s.queues, seen, s.slots.next) && CanMerge(s)
    ensures QueuesAgree(MergeOne(s).queues, seen, s.slots.next + 1)
  {
    var n := s.slots.next;
    var q0 := seen.slots[n].queue;
    forall q: M
      ensures QueueAgrees(Queue(MergeOne(s).queues, q), q, seen.ids, Earlier(seen.slots, n + 1, q))
    {
      assert QueueAgrees(Queue(s.queues, q), q, seen.ids, Earlier(seen.slots, n, q));
    }
  }

  lemma CanMergeMergeable<M(!new)>(s: State<M>, seen: Seen<M>)
    requires SlotsAgree(s.slots, seen.slots) && QueuesAgree(s.queues, seen, s.slots.next)
    ensures CanMerge(s) <==> Mergeable(seen, s.slots.next)
    ensures CanMerge(s) ==>
              var q := s.slots.items[s.slots.next].queue;
              Entry(s.slots.next, s.queues[q].items[s.queues[q].next], s.slots.items[s.slots.next].leader)
                == Merged(seen, s.slots.next)
  {
    var n := s.slots.next;
    if n in seen.slots {
      var q := seen.slots[n].queue;
      assert QueueAgrees(Queue(s.queues, q), q, seen.ids, Earlier(seen.slots, n, q));
    }
  }

  lemma MergeOneConsistent<M(!new)>(s: State<M>, seen: Seen<M>, out: seq<Entry<M>>)
    requires Consistent(s, seen, out) && CanMerge(s)
    ensures Consistent(MergeOne(s), seen, out)
  {
    hide QueueAgrees;
    MergeOneQueues(s, seen);
    CanMergeMergeable(s, seen);
    assert out + MergeOne(s).ready == (out + s.ready) + [Merged(seen, s.slots.next)];
  }

  lemma {:induction false} UpdateConsistent<M(!new)>(s: State<M>, seen: Seen<M>, out: seq<Entry<M>>)
    requires Consistent(s, seen, out)
    ensures Inv(Update(s), seen, out)
    decreases |s.slots.items|
  {
    if CanMerge(s) {
      MergeOneConsistent(s, seen, out);
      UpdateConsistent(MergeOne(s), seen, out);
    } else {
      CanMergeMergeable(s, seen);
    }
  }

  /** Slots from n on do not count among the first n. */
  lemma {:induction false} EarlierKept<M>(slots: map<nat, Choice<M>>, slot: nat, c: Choice<M>, n: nat, q: M)
    requires n <= slot
    ensures Earlier(slots[slot := c], n, q) == Earlier(slots, n, q)
  {
    if n != 0 {
      EarlierKept(slots, slot, c, n - 1, q);
    }
  }

  function WithSlot<M(==)>(seen: Seen<M>, slot: nat, c: Choice<M>): Seen<M> {
    seen.(slots := seen.slots[slot := c])
  }

  function WithId<M(==)>(seen: Seen<M>, q: M, position: nat, id: BatchId): Seen<M> {
    seen.(ids := seen.ids[(q, position) := id])
  }

  lemma AddSlotInv<M(!new)>(s: State<M>, seen: Seen<M>, out: seq<Entry<M>>, slot: nat, c: Choice<M>)
    requires Inv(s, seen, out) && slot !in seen.slots
    ensures AddSlot(s, slot, c).Some?
    ensures Inv(AddSlot(s, slot, c).value, WithSlot(seen, slot, c), out)
  {
    var n := s.slots.next;
    var seen' := WithSlot(seen, slot, c);
    assert n <= slot by {
      assert slot < n ==> Mergeable(seen, slot);
    }
    forall q: M, k: nat | k <= n
      ensures Earlier(seen'.slots, k, q) == Earlier(seen.slots, k, q)
    {
      EarlierKept(seen.slots, slot, c, k, q);
    }
    assert Lists(out + s.ready, seen', n) by {
      forall k: nat | k < n
        ensures Mergeable(seen', k) && Merged(seen', k) == Merged(seen, k)
      {
        assert Mergeable(seen, k);
      }
    }
    UpdateConsistent(s.(slots := s.slots.Insert(slot, c).value), seen', out);
  }

  lemma AddBatchIdInv<M(!new)>(s: State<M>, seen: Seen<M>, out: seq<Entry<M>>, q: M, position: nat, id: BatchId)
    requires Inv(s, seen, out) && (q, position) !in seen.ids
    ensures AddBatchId(s, q, position, id).Some?
    ensures Inv(AddBatchId(s, q, position, id).value, WithId(seen, q, position, id), out)
  {
    var seen' := WithId(seen, q, position, id);
    var n := s.slots.next;
    assert Earlier(seen.slots, n, q) <= position by {
      if position < Earlier(seen.slots, n, q) {
        UsedPlace(seen, n, q, position);
      }
    }
    var queues' := s.queues[q := Queue(s.queues, q).Insert(position, id).value];
    assert QueuesAgree(queues', seen', n) by {
      forall q': M
        ensures QueueAgrees(Queue(queues', q'), q', seen'.ids, Earlier(seen'.slots, n, q'))
      {
        assert QueueAgrees(Queue(s.queues, q'), q', seen.ids, Earlier(seen.slots, n, q'));
      }
    }
    assert Lists(out + s.ready, seen', n) by {
      forall k: nat | k < n
        ensures Mergeable(seen', k) && Merged(seen', k) == Merged(seen, k)
      {
        assert Mergeable(seen, k);
      }
    }
    UpdateConsistent(s.(queues := queues'), seen', out);
  }

  /** Every place below a queue's count was used by a merged slot, so its id is known. */
  lemma {:induction false} UsedPlace<M>(seen: Seen<M>, n: nat, q: M, position: nat)
    requires AllMergeable(seen, n) && position < Earlier(seen.slots, n, q)
    ensures (q, position) in seen.ids
  {
    if position < Earlier(seen.slots, n - 1, q) {
      UsedPlace(seen, n - 1, q, position);
    } else {
      assert Mergeable(seen, n - 1);
    }
  }

  lemma NextInv<M(!new)>(s: State<M>, seen: Seen<M>, out: seq<Entry<M>>)
    requires Inv(s, seen, out) && s.ready != []
    ensures Inv(NextBatch(s), seen, out + [s.ready[0]])
  {
    assert (out + [s.ready[0]]) + NextBatch(s).ready == out + s.ready;
  }

  // ---------------------------------------------------------------------
  // Every interleaving of calls
  // ---------------------------------------------------------------------

  datatype Op<M> =
    | OpBatchId(q: M, position: nat, id: BatchId)
    | OpSlot(slot: nat, c: Choice<M>)
    | OpNext

  datatype Trace<M(==)> = Trace(log: State<M>, seen: Seen<M>, out: seq<Entry<M>>)

  /** A call the original answers: no slot and no queue position is given twice. */
  ghost predicate Allowed<M>(t: Trace<M>, op: Op<M>) {
    match op
    case OpBatchId(q, position, _) => (q, position) !in t.seen.ids
    case OpSlot(slot, _) => slot !in t.seen.slots
    case OpNext => t.log.ready != []
  }

  function Step<M(==)>(t: Trace<M>, op: Op<M>): Trace<M> {
    match op
    case OpBatchId(q, position, id) =>
      var log' := AddBatchId(t.log, q, position, id);
      if log'.None? then t else t.(log := log'.value, seen := WithId(t.seen, q, position, id))
    case OpSlot(slot, c) =>
      var log' := AddSlot(t.log, slot, c);
      if log'.None? then t else t.(log := log'.value, seen := WithSlot(t.seen, slot, c))
    case OpNext =>
      if t.log.ready == [] then t else t.(log := NextBatch(t.log), out := t.out + [t.log.ready[0]])
  }

  function Exec<M(==)>(ops: seq<Op<M>>): Trace<M> {
    if ops == [] then Trace(Empty(), Seen(map[], map[]), [])
    else Step(Exec(ops[..|ops| - 1]), ops[|ops| - 1])
  }

  ghost predicate AllAllowed<M>(ops: seq<Op<M>>) {
    ops == [] || (AllAllowed(ops[..|ops| - 1]) && Allowed(Exec(ops[..|ops| - 1]), ops[|ops| - 1]))
  }

  /** Deterministic merge: for every arrival order of slots and batch ids, what left the log
      together with what is ready is the longest prefix of slots whose batches are known, and
      its k-th entry is slot k with the batch at position "number of earlier slots naming the
      same queue" of slot k's queue. */
  lemma {:induction false} MergesLongestPrefix<M(!new)>(ops: seq<Op<M>>)
    requires AllAllowed(ops)
    ensures var t := Exec(ops);
            && Inv(t.log, t.seen, t.out)
            && IsLongest(t.seen, |t.out + t.log.ready|)
            && Lists(t.out + t.log.ready, t.seen, |t.out + t.log.ready|)
  {
    if ops != [] {
      MergesLongestPrefix(ops[..|ops| - 1]);
      var t, op := Exec(ops[..|ops| - 1]), ops[|ops| - 1];
      match op
      case OpBatchId(q, position, id) => AddBatchIdInv(t.log, t.seen, t.out, q, position, id);
      case OpSlot(slot, c) => AddSlotInv(t.log, t.seen, t.out, slot, c);
      case OpNext => NextInv(t.log, t.seen, t.out);
    }
  }
}

/** The log as an object. */
module MutableLocalLog {
  import opened Prelude
  import opened AsyncLogs
  import opened LocalLogs

  class LocalLog<M(==)> {
    var slots: Log<Choice<M>>
    var queues: map<M, Log<BatchId>>
    var ready: seq<Entry<M>>

    ghost function View(): State<M>
      reads this
    {
      State(slots, queues, ready)
    }

    constructor ()
      ensures View() == Empty()
    {
      slots := Log(map[], 0);
      queues := map[];
      ready := [];
    }

    method AddBatchId(q: M, position: nat, id: BatchId) returns (ok: bool)
      modifies this
      ensures ok == LocalLogs.AddBatchId(old(View()), q, position, id).Some?
      ensures View() == if ok then LocalLogs.AddBatchId(old(View()), q, position, id).value else old(View())
    {
      var inserted := Queue(queues, q).Insert(position, id);
      if inserted.None? {
        return false;
      }
      queues := queues[q := inserted.value];
      UpdateReadyBatches();
      ok := true;
    }

    method AddSlot(slot: nat, c: Choice<M>) returns (ok: bool)
      modifies this
      ensures ok == LocalLogs.AddSlot(old(View()), slot, c).Some?
      ensures View() == if ok then LocalLogs.AddSlot(old(View()), slot, c).value else old(View())
    {
      var inserted := slots.Insert(slot, c);
      if inserted.None? {
        return false;
      }
      slots := inserted.value;
      UpdateReadyBatches();
      ok := true;
    }

    method NextBatch() returns (e: Entry<M>)
      requires ready != []
      modifies this
      ensures e == old(ready[0]) && View() == LocalLogs.NextBatch(old(View()))
    {
      e := ready[0];
      ready := ready[1..];
    }

    method UpdateReadyBatches()
      modifies this
      ensures View() == Update(old(View()))
    {
      while slots.HasNext()
        invariant Update(View()) == Update(old(View()))
        decreases |slots.items|
      {
        var c := slots.items[slots.next];
        if c.queue !in queues || !queues[c.queue].HasNext() {
          break;
        }
        var slot, queue := slots.next, queues[c.queue];
        slots := slots.Advance();
        queues := queues[c.queue := queue.Advance()];
        ready := ready + [Entry(slot, queue.items[queue.next], c.leader)];
      }
    }
  }
}
