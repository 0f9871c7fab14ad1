/** How a worker gathers the keys that its partition executes on (ReadLocalStorage and
    OnInternalRequestReceived of module/scheduler_components/worker.cpp). Partitions broadcast
    all of their keys. */
module Workers {
  import opened Prelude
  import opened Transactions
  import opened TxnSplit

  datatype Record = Record(master: nat, value: string)

  /** The stored master of the i-th key differs from the one that the transaction was routed by, or
      a remaster names a key that is not stored. */
  predicate Stale(txn: Txn, i: nat, storage: map<Key, Record>)
    requires i < |txn.keys|
  {
    var e := txn.keys[i];
    if e.key in storage then storage[e.key].master != e.master else txn.remaster
  }

  predicate StaleUpTo(txn: Txn, i: nat, storage: map<Key, Record>)
    requires i < |txn.keys|
  {
    exists j :: 0 <= j <= i && Stale(txn, j, storage)
  }

  /** Every stored key gets its stored value, up to the first stale one, at which the transaction
      aborts. */
  method ReadLocalStorage(txn: Txn, storage: map<Key, Record>) returns (t: Txn)
    ensures t == txn.(keys := t.keys, status := t.status) && |t.keys| == |txn.keys|
    ensures txn.status.Aborted? ==> t == txn
    ensures !txn.status.Aborted? ==> forall i :: 0 <= i < |t.keys| ==>
      t.keys[i] == txn.keys[i].(value := if txn.keys[i].key in storage && !StaleUpTo(txn, i, storage)
        then storage[txn.keys[i].key].value else txn.keys[i].value)
    ensures !txn.status.Aborted? ==> (t.status.Aborted? <==> exists e ::
      e in txn.keys && if e.key in storage then storage[e.key].master != e.master else txn.remaster)
    ensures !t.status.Aborted? ==> t.status == txn.status
    ensures !txn.status.Aborted? ==> forall i ::
      0 <= i < |txn.keys| && Stale(txn, i, storage) && (i > 0 ==> !StaleUpTo(txn, i - 1, storage)) ==>
        t.status == Aborted(if txn.keys[i].key in storage then "outdated master"
          else "remaster non-existent key " + txn.keys[i].key)
    ensures SameNames(txn.keys, t.keys)
  {
    t := txn;
    if txn.status.Aborted? { return; }
    for i := 0 to |txn.keys|
      invariant t == txn.(keys := t.keys) && |t.keys| == |txn.keys|
      invariant forall j :: 0 <= j < |t.keys| ==>
        t.keys[j] == if j < i && txn.keys[j].key in storage
          then txn.keys[j].(value := storage[txn.keys[j].key].value) else txn.keys[j]
      invariant forall j :: 0 <= j < i ==> !Stale(txn, j, storage)
    {
      var e := txn.keys[i];
      assert e in txn.keys;
      if e.key in storage {
        if storage[e.key].master != e.master {
          t := t.(status := Aborted("outdated master"));
          assert Stale(txn, i, storage);
          return;
        }
        t := t.(keys := t.keys[i := e.(value := storage[e.key].value)]);
      } else if txn.remaster {
        t := t.(status := Aborted("remaster non-existent key " + e.key));
        assert Stale(txn, i, storage);
        return;
      }
    }
    NoneStale(txn, storage);
  }

  lemma NoneStale(txn: Txn, storage: map<Key, Record>)
    requires forall j :: 0 <= j < |txn.keys| ==> !Stale(txn, j, storage)
    ensures !exists e :: e in txn.keys && if e.key in storage then storage[e.key].master != e.master else txn.remaster
  {
    forall e | e in txn.keys
      ensures !(if e.key in storage then storage[e.key].master != e.master else txn.remaster) {
      var j :| 0 <= j < |txn.keys| && txn.keys[j] == e;
      assert !Stale(txn, j, storage);
    }
  }

  class Worker {
    const partition: nat
    var txn: Txn
    /** How many partitions have still to send their reads. */
    var waiting: nat
    /** Those that have, and whose reads were taken. */
    ghost var senders: seq<nat>

    /** The keys are those of the own partition and of the senders, in this order. */
    ghost predicate Gathers(sh: Sharder, whole: Txn)
      reads this
    {
      SameNames(Gathered(sh, whole.keys, partition, senders), txn.keys)
    }

    /** A waiting partition waits for all others that are involved. */
    constructor (ghost sh: Sharder, ghost whole: Txn, partition: nat, piece: Txn, waits: bool)
      requires SameNames(InPart(sh, whole.keys, partition), piece.keys)
      ensures this.partition == partition && txn == piece && senders == [] && Gathers(sh, whole)
      ensures waiting == if waits && piece.partitions != [] then |piece.partitions| - 1 else 0
    {
      this.partition, txn, senders := partition, piece, [];
      waiting := if waits && piece.partitions != [] then |piece.partitions| - 1 else 0;
    }

    /** The reads of another partition. Once aborted, a transaction takes no more of them. */
    method OnRemoteRead(ghost sh: Sharder, ghost whole: Txn, ghost sender: nat, sent: seq<Entry>, willAbort: bool,
        reason: string)
        returns (execute: bool)
      requires Gathers(sh, whole) && waiting > 0 && (!willAbort ==> SameNames(InPart(sh, whole.keys, sender), sent))
      modifies this
      ensures Gathers(sh, whole) && waiting == old(waiting) - 1 && (execute <==> waiting == 0)
      ensures var taken := !old(txn).status.Aborted? && !willAbort;
        && senders == old(senders) + (if taken then [sender] else [])
        && txn.keys == old(txn).keys + (if taken then sent else [])
      ensures txn == old(txn).(keys := txn.keys, status :=
        if !old(txn).status.Aborted? && willAbort then Aborted(reason) else old(txn).status)
    {
      hide Gathered, InPart;
      if !txn.status.Aborted? {
        if willAbort {
          txn := txn.(status := Aborted(reason));
        } else {
          var i := 0;
          while i < |sent|
            invariant i <= |sent| && txn == old(txn).(keys := old(txn).keys + sent[..i])
            invariant senders == old(senders) && waiting == old(waiting)
          {
            txn := txn.(keys := txn.keys + [sent[i]]);
            i := i + 1;
          }
          MoreGathered(sh, whole.keys, partition, senders, sender, old(txn).keys, sent);
          senders := senders + [sender];
        }
      }
      waiting := waiting - 1;
      execute := waiting == 0;
    }
  }

  lemma MoreGathered(sh: Sharder, keys: seq<Entry>, p: nat, senders: seq<nat>, q: nat, a: seq<Entry>, b: seq<Entry>)
    requires SameNames(Gathered(sh, keys, p, senders), a) && SameNames(InPart(sh, keys, q), b)
    ensures SameNames(Gathered(sh, keys, p, senders + [q]), a + b)
  {
    assert (senders + [q])[..|senders|] == senders;
  }

  /** A program that sets values and deletes keys turns what a worker has gathered for a surviving
      copy into a piece of the transaction. */
  lemma FinishedPiece(sh: Sharder, whole: Txn, home: nat, p: nat, run: Run, gathered: Txn, after: Txn)
    requires Survives(sh, whole, home, p) && Distinct([p] + run.senders)
    requires SameNames(Gathered(sh, whole.keys, p, run.senders), gathered.keys)
    requires var before := Partitioned(sh, LockOnly(whole, home), p).value;
      && after.id == before.id && after.kind == before.kind
      && after.regions == before.regions && after.partitions == before.partitions
    requires SameNames(Kept(gathered.keys, run.deleted), after.keys)
    ensures PieceOf(sh, whole, run, Piece(after, p))
  {
    hide Sorted, Distinct;
    KeptSameNames(Gathered(sh, whole.keys, p, run.senders), gathered.keys, run.deleted);
    assert Executed(Partitioned(sh, LockOnly(whole, home), p).value, Gathered(sh, whole.keys, p, run.senders),
      run.deleted, after);
  }

  lemma {:induction false} KeptSameNames(a: seq<Entry>, b: seq<Entry>, deleted: seq<Key>)
    requires SameNames(a, b)
    ensures SameNames(Kept(a, deleted), Kept(b, deleted))
  {
    if a != [] { KeptSameNames(a[..|a| - 1], b[..|b| - 1], deleted); }
  }
}
