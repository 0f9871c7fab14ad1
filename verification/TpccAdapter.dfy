/** The storage adapters of execution/tpcc/storage_adapter.cpp as values: one serves a
    transaction's own key list, the other only collects the keys that are asked for. The virtual
    calls become a match. */
module TpccAdapters {
  import opened Prelude
  import opened TpccCodec

  /** What the key list holds for one key. */
  datatype Cell = Cell(write: bool, value: Bytes, newValue: Bytes)

  datatype Call = Call(key: Bytes, write: bool)

  /** `calls` records every key the adapter was called with. */
  datatype Adapter =
    | Real(cells: map<Bytes, Cell>, deleted: seq<Bytes>, calls: seq<Call>)
    | Collect(declared: map<Bytes, bool>, finalized: bool, calls: seq<Call>)

  function NewReadKey(declared: map<Bytes, bool>, k: Bytes): map<Bytes, bool> {
    if k in declared then declared else declared[k := false]
  }

  function NewWriteKey(declared: map<Bytes, bool>, k: Bytes): map<Bytes, bool> {
    declared[k := true]
  }

  /** The collecting adapter's reaction to a call. */
  function Note(a: Adapter, c: Call): Adapter
    requires a.Collect?
  {
    var declared := if a.finalized then a.declared
                    else if c.write then NewWriteKey(a.declared, c.key) else NewReadKey(a.declared, c.key);
    Collect(declared, a.finalized, a.calls + [c])
  }

  function ReadKey(a: Adapter, k: Bytes): (Adapter, Option<Bytes>) {
    var c := Call(k, false);
    if a.Collect? then (Note(a, c), None)
    else (Real(a.cells, a.deleted, a.calls + [c]), if k in a.cells then Some(a.cells[k].value) else None)
  }

  function InsertKey(a: Adapter, k: Bytes, value: Bytes): (Adapter, bool) {
    var c := Call(k, true);
    if a.Collect? then (Note(a, c), false)
    else if k !in a.cells || !a.cells[k].write then (Real(a.cells, a.deleted, a.calls + [c]), false)
    else (Real(a.cells[k := a.cells[k].(newValue := value)], a.deleted, a.calls + [c]), true)
  }

  /** Every update starts again from the stored value. */
  function UpdateKey(a: Adapter, k: Bytes, f: Bytes -> Bytes): (Adapter, bool) {
    var c := Call(k, true);
    if a.Collect? then (Note(a, c), false)
    else if k !in a.cells || !a.cells[k].write ||
      a.cells[k].value == [] then (Real(a.cells, a.deleted, a.calls + [c]), false)
    else (Real(a.cells[k := a.cells[k].(newValue := f(a.cells[k].value))], a.deleted, a.calls + [c]), true)
  }

  function DeleteKey(a: Adapter, k: Bytes): (Adapter, bool) {
    var c := Call(k, true);
    if a.Collect? then (Note(a, c), false)
    else if k !in a.cells then (Real(a.cells, a.deleted, a.calls + [c]), false)
    else (Real(a.cells - {k}, a.deleted + [k], a.calls + [c]), true)
  }

  /** What a sequence of calls declares: a key once asked for in writing stays a write key. */
  function Declared(calls: seq<Call>): (d: map<Bytes, bool>)
    ensures forall c :: c in calls ==> c.key in d && (c.write ==> d[c.key])
    ensures forall k :: k in d ==> Call(k, d[k]) in calls
  {
    if calls == [] then map[]
    else
      var m := |calls| - 1;
      assert calls == calls[..m] + [calls[m]];
      var d := Declared(calls[..m]);
      if calls[m].write then NewWriteKey(d, calls[m].key) else NewReadKey(d, calls[m].key)
  }

  /** The collected keys are those of the calls. */
  predicate Collected(a: Adapter) {
    a.Collect? ==> a.finalized || a.declared == Declared(a.calls)
  }

  lemma NoteCollects(a: Adapter, c: Call)
    requires a.Collect? && Collected(a)
    ensures Collected(Note(a, c))
  {
    assert (a.calls + [c])[..|a.calls|] == a.calls;
  }
}

/** The adapter objects. */
module TpccAdapterObjects {
  import opened Prelude
  import opened TpccCodec
  import opened TpccAdapters

  datatype Entry = Entry(key: Bytes, write: bool, value: Bytes, newValue: Bytes)

  function ToCell(e: Entry): Cell {
    Cell(e.write, e.value, e.newValue)
  }

  ghost predicate Distinct(keys: seq<Entry>) {
    forall i, j :: 0 <= i < j < |keys| ==> keys[i].key != keys[j].key
  }

  /** The index is the exact inverse of the key list. */
  ghost predicate Inverse(keys: seq<Entry>, index: map<Bytes, nat>) {
    && (forall i :: 0 <= i < |keys| ==> keys[i].key in index && index[keys[i].key] == i)
    && (forall k :: k in index ==> index[k] < |keys| && keys[index[k]].key == k)
  }

  ghost function CellsOf(keys: seq<Entry>, index: map<Bytes, nat>): map<Bytes, Cell> {
    map k | k in index && index[k] < |keys| :: ToCell(keys[index[k]])
  }

  lemma CellsPut(keys: seq<Entry>, index: map<Bytes, nat>, key: Bytes, e: Entry)
    requires Inverse(keys, index) && key in index && e.key == key
    ensures Inverse(keys[index[key] := e], index)
    ensures CellsOf(keys[index[key] := e], index) == CellsOf(keys, index)[key := ToCell(e)]
  {
  }

  /** The list without its p-th entry, in the making: entry p has sunk to place i. */
  ghost predicate Sunk(before: seq<Entry>, keys: seq<Entry>, p: nat, i: nat) {
    && |keys| == |before| && p <= i < |keys|
    && forall j :: 0 <= j < |keys| ==> keys[j] == before[if p <= j < i then j + 1 else if j == i then p else j]
  }

  function Shifted(x: nat, p: nat, i: nat): nat {
    if p < x <= i then x - 1 else x
  }

  ghost predicate Reindexed(was: map<Bytes, nat>, index: map<Bytes, nat>, key: Bytes, i: nat)
    requires key in was
  {
    index.Keys == was.Keys && forall k :: k in was && k != key ==> index[k] == Shifted(was[k], was[key], i)
  }

  lemma SinkOne(before: seq<Entry>, was: map<Bytes, nat>, key: Bytes, keys: seq<Entry>, index: map<Bytes, nat>, i: nat)
    requires Inverse(before, was) && key in was && Sunk(before, keys, was[key], i) &&
      Reindexed(was, index, key, i) && i + 1 < |keys|
    ensures var keys' := keys[i := keys[i + 1]][i + 1 := keys[i]];
      Sunk(before, keys', was[key], i + 1) && Reindexed(was, index[keys'[i].key := i], key, i + 1)
  {
    assert keys[i + 1] == before[i + 1] && was[before[i + 1].key] == i + 1;
  }

  lemma CellsRemove(before: seq<Entry>, was: map<Bytes, nat>, key: Bytes, keys: seq<Entry>, index: map<Bytes, nat>)
    requires Inverse(before, was) && key in was && keys != [] && Sunk(before, keys, was[key], |keys| - 1)
    requires Reindexed(was, index, key, |keys| - 1)
    ensures Inverse(keys[..|keys| - 1], index - {key})
    ensures CellsOf(keys[..|keys| - 1], index - {key}) == CellsOf(before, was) - {key}
  {
    var p, last := was[key], |keys| - 1;
    forall k | k in was && k != key ensures index[k] < last && keys[index[k]] == before[was[k]] {
      assert before[was[k]].key == k && was[k] != p;
    }
    forall j | 0 <= j < last ensures keys[j].key in index && keys[j].key != key && index[keys[j].key] == j {
      var x := if p <= j then j + 1 else j;
      assert keys[j] == before[x] && x != p;
    }
  }

  lemma SameDomain(keys: seq<Entry>, index: map<Bytes, nat>)
    requires Inverse(keys, index)
    ensures CellsOf(keys, index).Keys == index.Keys
  {
  }

  lemma SunkStart(keys: seq<Entry>, index: map<Bytes, nat>, key: Bytes)
    requires Inverse(keys, index) && key in index
    ensures Sunk(keys, keys, index[key], index[key]) && Reindexed(index, index, key, index[key])
  {
  }

  lemma SunkSize(before: seq<Entry>, keys: seq<Entry>, p: nat, i: nat)
    requires Sunk(before, keys, p, i)
    ensures |keys| == |before|
  {
  }

  class TxnStorageAdapter {
    var keys: seq<Entry>
    var index: map<Bytes, nat>
    var deleted: seq<Bytes>
    ghost var calls: seq<Call>

    ghost predicate Valid()
      reads this
    {
      Inverse(keys, index)
    }

    ghost function View(): Adapter
      reads this
    {
      Real(CellsOf(keys, index), deleted, calls)
    }

    /** Every later call checks that no key occurs twice in the list. */
    constructor (keys: seq<Entry>)
      ensures this.keys == keys && deleted == [] && calls == []
      ensures Valid() <==> Distinct(keys)
    {
      this.keys, deleted, calls := keys, [], [];
      var found: map<Bytes, nat> := map[];
      for i := 0 to |keys|
        invariant forall k :: k in found ==> found[k] < i && keys[found[k]].key == k
        invariant forall j :: 0 <= j < i ==> keys[j].key in found && found[keys[j].key] <= j
      {
        if keys[i].key !in found { found := found[keys[i].key := i]; }
      }
      index := found;
    }

    method Read(key: Bytes) returns (value: Option<Bytes>)
      requires Valid()
      modifies this`calls
      ensures Valid() && (View(), value) == ReadKey(old(View()), key)
    {
      calls := calls + [Call(key, false)];
      if key !in index { return None; }
      value := Some(keys[index[key]].value);
    }

    method Insert(key: Bytes, value: Bytes) returns (ok: bool)
      requires Valid()
      modifies this
      ensures Valid() && (View(), ok) == InsertKey(old(View()), key, value)
    {
      calls := calls + [Call(key, true)];
      if key !in index { return false; }
      var i := index[key];
      if !keys[i].write { return false; }
      CellsPut(keys, index, key, keys[i].(newValue := value));
      keys := keys[i := keys[i].(newValue := value)];
      ok := true;
    }

    method Update(key: Bytes, f: Bytes -> Bytes) returns (ok: bool)
      requires Valid()
      modifies this
      ensures Valid() && (View(), ok) == UpdateKey(old(View()), key, f)
    {
      calls := calls + [Call(key, true)];
      if key !in index { return false; }
      var i := index[key];
      if !keys[i].write || keys[i].value == [] { return false; }
      CellsPut(keys, index, key, keys[i].(newValue := f(keys[i].value)));
      keys := keys[i := keys[i].(newValue := keys[i].value)];
      keys := keys[i := keys[i].(newValue := f(keys[i].newValue))];
      assert keys == old(keys)[i := old(keys)[i].(newValue := f(old(keys)[i].value))];
      ok := true;
    }

    /** Swaps the entry down to the end of the list, corrects the index on the way, and drops it. */
    method Delete(key: Bytes) returns (ok: bool)
      requires Valid()
      modifies this
      ensures Valid() && (View(), ok) == DeleteKey(old(View()), key)
    {
      hide CellsOf, Sunk, Reindexed;
      calls := calls + [Call(key, true)];
      SameDomain(keys, index);
      if key !in index { return false; }
      var p := index[key];
      ghost var before, was := keys, index;
      SunkStart(before, was, key);
      for i := p to |keys| - 1
        invariant Sunk(before, keys, p, i) && Reindexed(was, index, key, i)
        invariant deleted == old(deleted) && calls == old(calls) + [Call(key, true)]
      {
        SunkSize(before, keys, p, i);
        SinkOne(before, was, key, keys, index, i);
        keys := keys[i := keys[i + 1]][i + 1 := keys[i]];
        index := index[keys[i].key := i];
      }
      SunkSize(before, keys, p, |before| - 1);
      CellsRemove(before, was, key, keys, index);
      keys := keys[..|keys| - 1];
      deleted := deleted + [key];
      index := index - {key};
      ok := true;
    }
  }

  class TxnKeyGenStorageAdapter {
    var index: map<Bytes, bool>
    var finalized: bool
    ghost var calls: seq<Call>

    ghost function View(): Adapter
      reads this
    {
      Collect(index, finalized, calls)
    }

    constructor ()
      ensures View() == Collect(map[], false, []) && Collected(View())
    {
      index, finalized, calls := map[], false, [];
    }

    method Read(key: Bytes) returns (value: Option<Bytes>)
      modifies this
      ensures (View(), value) == ReadKey(old(View()), key)
      ensures value == None && index == if old(finalized) || key in old(index) then old(index)
        else old(index)[key := false]
    {
      calls := calls + [Call(key, false)];
      if !finalized && key !in index { index := index[key := false]; }
      value := None;
    }

    /** Insert, Update and Delete. */
    method Write(key: Bytes) returns (ok: bool)
      modifies this
      ensures (View(), ok) == DeleteKey(old(View()), key)
      ensures !ok && index == if old(finalized) then old(index) else old(index)[key := true]
    {
      calls := calls + [Call(key, true)];
      if !finalized { index := index[key := true]; }
      ok := false;
    }

    /** Lists the collected keys in whatever order the index yields them. */
    method Finalize() returns (keys: seq<Entry>)
      modifies this`finalized
      ensures finalized && Distinct(keys)
      ensures forall e :: e in keys ==> e.key in index && e == Entry(e.key, index[e.key], [], [])
      ensures forall k :: k in index ==> exists e :: e in keys && e.key == k
    {
      keys := [];
      var rest := index.Keys;
      while rest != {}
        invariant rest <= index.Keys && Distinct(keys)
        invariant forall i ::
          0 <= i < |keys| ==>
            keys[i].key in index && keys[i].key !in rest && keys[i] == Entry(keys[i].key, index[keys[i].key], [], [])
        invariant forall k :: k in index && k !in rest ==> exists i :: 0 <= i < |keys| && keys[i].key == k
        decreases rest
      {
        var k :| k in rest;
        ghost var before := keys;
        keys := keys + [Entry(k, index[k], [], [])];
        rest := rest - {k};
        assert keys[|before|].key == k;
        forall x | x in index && x !in rest ensures exists i :: 0 <= i < |keys| && keys[i].key == x {
          if x != k {
            var i :| 0 <= i < |before| && before[i].key == x;
            assert keys[i].key == x;
          }
        }
      }
      finalized := true;
    }
  }
}
