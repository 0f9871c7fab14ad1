/** The adapter that a table or transaction object holds: one of the two implementations, picked
    once. */
module TpccDispatch {
  import opened Prelude
  import opened TpccCodec
  import opened TpccAdapters
  import opened TpccAdapterObjects

  class StorageAdapter {
    const txn: TxnStorageAdapter?
    const gen: TxnKeyGenStorageAdapter?

    constructor Serving(txn: TxnStorageAdapter)
      requires txn.Valid()
      ensures Valid() && View() == txn.View() && Objects() == {txn} && this.txn == txn
    {
      this.txn, this.gen := txn, null;
    }

    constructor Collecting(gen: TxnKeyGenStorageAdapter)
      ensures Valid() && View() == gen.View() && Objects() == {gen} && this.gen == gen
    {
      this.txn, this.gen := null, gen;
    }

    ghost function Objects(): set<object> {
      (if txn != null then {txn} else {}) + (if gen != null then {gen} else {})
    }

    ghost predicate Valid()
      reads Objects()
    {
      (txn != null <==> gen == null) && (txn != null ==> txn.Valid())
    }

    ghost function View(): Adapter
      requires Valid()
      reads Objects()
    {
      if txn != null then txn.View() else gen.View()
    }

    method Read(key: Bytes) returns (value: Option<Bytes>)
      requires Valid()
      modifies Objects()
      ensures Valid() && (View(), value) == ReadKey(old(View()), key)
    {
      if txn != null { value := txn.Read(key); } else { value := gen.Read(key); }
    }

    method Insert(key: Bytes, value: Bytes) returns (ok: bool)
      requires Valid()
      modifies Objects()
      ensures Valid() && (View(), ok) == InsertKey(old(View()), key, value)
    {
      if txn != null { ok := txn.Insert(key, value); } else { ok := gen.Write(key); }
    }

    method Update(key: Bytes, f: Bytes -> Bytes) returns (ok: bool)
      requires Valid()
      modifies Objects()
      ensures Valid() && (View(), ok) == UpdateKey(old(View()), key, f)
    {
      if txn != null { ok := txn.Update(key, f); } else { ok := gen.Write(key); }
    }

    method Delete(key: Bytes) returns (ok: bool)
      requires Valid()
      modifies Objects()
      ensures Valid() && (View(), ok) == DeleteKey(old(View()), key)
    {
      if txn != null { ok := txn.Delete(key); } else { ok := gen.Write(key); }
    }
  }
}

/** Table objects. */
module TpccTableObjects {
  import opened Prelude
  import opened TpccCodec
  import opened TpccRows
  import opened TpccAdapters
  import opened TpccTables
  import opened TpccDispatch

  class TpccTable {
    const t: Table
    const adapter: StorageAdapter

    constructor (t: Table, adapter: StorageAdapter)
      ensures this.t == t && this.adapter == adapter
    {
      this.t, this.adapter := t, adapter;
    }

    method Select(pkey: seq<int>, cols: seq<nat>) returns (row: seq<Scalar>)
      requires adapter.Valid() && Access(t, pkey, cols)
      modifies adapter.Objects()
      ensures adapter.Valid() && (adapter.View(), row) == TpccTables.Select(old(adapter.View()), t, pkey, cols)
    {
      var chosen := Chosen(t, cols);
      if Grouped(t) {
        row := SelectGrouped(pkey, chosen);
      } else {
        row := SelectUngrouped(pkey, chosen);
      }
    }

    method SelectGrouped(pkey: seq<int>, cols: seq<nat>) returns (row: seq<Scalar>)
      requires adapter.Valid() && Access(t, pkey, cols)
      modifies adapter.Objects()
      ensures adapter.Valid() && (adapter.View(), row) == TpccTables.SelectGrouped(old(adapter.View()), t, pkey, cols)
    {
      hide MakeKey, KeyFits, Types, PKeySize, NumColumns, ColumnAt;
      var value := adapter.Read(MakeKey(t, pkey, 0));
      row := [];
      if value.None? { return; }
      KeySize(t, pkey);
      for i := 0 to |cols|
        invariant adapter.Valid() && adapter.View() == ReadKey(old(adapter.View()), MakeKey(t, pkey, 0)).0
        invariant |row| == i
        invariant forall j :: 0 <= j < i ==> row[j] == if cols[j] < PKeySize(t) then PKeyScalar(t, pkey, cols[j])
                                                        else ColumnAt(Types(t)[cols[j]], value.value,
                                                          ColumnOffset(t, cols[j]))
      {
        row := row + [if cols[i] < PKeySize(t) then PKeyScalar(t, pkey, cols[i])
                      else ColumnAt(Types(t)[cols[i]], value.value, ColumnOffset(t, cols[i]))];
      }
      assert row == TpccTables.SelectGrouped(old(adapter.View()), t, pkey, cols).1;
    }

    method SelectUngrouped(pkey: seq<int>, cols: seq<nat>) returns (row: seq<Scalar>)
      requires adapter.Valid() && Access(t, pkey, cols)
      modifies adapter.Objects()
      ensures adapter.Valid()
      ensures var (b, all, found) := SelectColumns(old(adapter.View()), t, pkey, cols);
        adapter.View() == b && row == if found then all else []
    {
      hide MakeKey, KeyFits, Types, PKeySize, NumColumns, MakeScalar;
      row := [];
      var found := false;
      for i := 0 to |cols|
        invariant adapter.Valid() && (adapter.View(), row, found) ==
          SelectColumns(old(adapter.View()), t, pkey, cols[..i])
      {
        assert cols[..i + 1][..i] == cols[..i];
        if cols[i] < PKeySize(t) {
          KeySize(t, pkey);
          row := row + [PKeyScalar(t, pkey, cols[i])];
        } else {
          var value := adapter.Read(MakeKey(t, pkey, cols[i]));
          if value.Some? && value.value != [] {
            row, found := row + [MakeScalar(Types(t)[cols[i]], value.value)], true;
          }
        }
      }
      assert cols[..|cols|] == cols;
      if !found { row := []; }
    }

    method Update(pkey: seq<int>, cols: seq<nat>, values: seq<Scalar>) returns (ok: bool)
      requires adapter.Valid() && Access(t, pkey, cols) && Valid(t, cols, values)
      modifies adapter.Objects()
      ensures adapter.Valid() && (adapter.View(), ok) == TpccTables.Update(old(adapter.View()), t, pkey, cols, values)
    {
      hide MakeKey, KeyFits, Types, NumColumns, ScalarBytes;
      ok := true;
      if Grouped(t) {
        ok := adapter.Update(MakeKey(t, pkey, 0), RowUpdate(t, cols, values));
      } else {
        for i := 0 to |cols|
          invariant adapter.Valid() && (adapter.View(), ok) ==
            UpdateColumns(old(adapter.View()), t, pkey, cols[..i], values[..i])
        {
          assert cols[..i + 1][..i] == cols[..i] && values[..i + 1][..i] == values[..i];
          var updated := adapter.Update(MakeKey(t, pkey, cols[i]), Overwriting(ScalarBytes(values[i])));
          ok := ok && updated;
        }
        assert cols[..|cols|] == cols && values[..|cols|] == values;
      }
    }

    method Insert(pkey: seq<int>, values: seq<Scalar>) returns (ok: bool)
      requires adapter.Valid() && Access(t, pkey, []) && |values| == |RowTypes(t)|
      requires forall i :: 0 <= i < |values| ==> NameMatches(RowTypes(t)[i], values[i])
      modifies adapter.Objects()
      ensures adapter.Valid() && (adapter.View(), ok) == InsertRow(old(adapter.View()), t, pkey, values)
    {
      hide MakeKey, KeyFits, Types, NumColumns, PKeySize, RowTypes, EncodeRow, InsertKey, InsertColumns;
      if Grouped(t) {
        var row := Encode(values);
        ok := adapter.Insert(MakeKey(t, pkey, 0), row);
      } else {
        ok := InsertUngrouped(pkey, values);
      }
    }

    method Encode(values: seq<Scalar>) returns (row: Bytes)
      ensures row == EncodeRow(values)
    {
      row := [];
      for i := 0 to |values|
        invariant row == EncodeRow(values[..i])
      {
        assert values[..i + 1][..i] == values[..i];
        row := row + ScalarBytes(values[i]);
      }
      assert values[..|values|] == values;
    }

    method InsertUngrouped(pkey: seq<int>, values: seq<Scalar>) returns (ok: bool)
      requires adapter.Valid() && Access(t, pkey, []) && |values| == |RowTypes(t)|
      modifies adapter.Objects()
      ensures adapter.Valid()
      ensures (adapter.View(), ok) == InsertColumns(old(adapter.View()), t, pkey, values, |values|)
    {
      hide MakeKey, KeyFits, Types, NumColumns, PKeySize, RowTypes, ScalarBytes, InsertKey;
      RowColumns(t);
      ok := true;
      for i := 0 to |values|
        invariant adapter.Valid() && (adapter.View(), ok) == InsertColumns(old(adapter.View()), t, pkey, values, i)
      {
        var inserted := adapter.Insert(MakeKey(t, pkey, PKeySize(t) + i), ScalarBytes(values[i]));
        ok := ok && inserted;
      }
    }

    method Delete(pkey: seq<int>) returns (ok: bool)
      requires adapter.Valid() && Access(t, pkey, [])
      modifies adapter.Objects()
      ensures adapter.Valid() && (adapter.View(), ok) == DeleteRow(old(adapter.View()), t, pkey)
    {
      hide MakeKey, KeyFits, Types, DeleteColumns, DeleteKey;
      if Grouped(t) {
        ok := adapter.Delete(MakeKey(t, pkey, 0));
      } else {
        ok := DeleteUngrouped(pkey);
      }
    }

    method DeleteUngrouped(pkey: seq<int>) returns (ok: bool)
      requires adapter.Valid() && Access(t, pkey, [])
      modifies adapter.Objects()
      ensures adapter.Valid() && (adapter.View(), ok) == DeleteColumns(old(adapter.View()), t, pkey, |RowTypes(t)|)
    {
      hide MakeKey, KeyFits, Types, NumColumns, PKeySize, RowTypes, DeleteKey;
      RowColumns(t);
      ok := true;
      for i := 0 to |RowTypes(t)|
        invariant adapter.Valid() && (adapter.View(), ok) == DeleteColumns(old(adapter.View()), t, pkey, i)
      {
        var deleted := adapter.Delete(MakeKey(t, pkey, PKeySize(t) + i));
        ok := ok && deleted;
      }
    }
  }

  lemma KeySize(t: Table, pkey: seq<int>)
    requires KeyFits(t, pkey)
    ensures |pkey| == PKeySize(t) <= NumColumns(t)
  {
    KeyColumns(t);
  }
}
