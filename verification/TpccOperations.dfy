/** What the operations of execution/tpcc/table.h do with whole rows: selections of all columns, and
    inserts into and deletes from tables whose columns are stored one by one. */
module TpccOperations {
  import opened Prelude
  import opened TpccCodec
  import opened TpccRows
  import opened TpccAdapters
  import opened TpccTables
  import opened TpccRuns

  // ---------------------------------------------------------------------
  // Selections
  // ---------------------------------------------------------------------

  /** The value of a column: primary key columns are taken from the key. */
  function Selected(a: Adapter, t: Table, pkey: seq<int>, c: nat): Scalar
    requires a.Real? && KeyFits(t, pkey) && c < NumColumns(t)
    requires c >= PKeySize(t) ==> MakeKey(t, pkey, if Grouped(t) then 0 else c) in a.cells
  {
    if c < PKeySize(t) then IntS(Types(t)[c].width, pkey[c])
    else if Grouped(t) then ColumnAt(Types(t)[c], a.cells[MakeKey(t, pkey, 0)].value, ColumnOffset(t, c))
    else MakeScalar(Types(t)[c], a.cells[MakeKey(t, pkey, c)].value)
  }

  /** The row is in the key list: as one value, or with a value for every column. */
  ghost predicate Listed(a: Adapter, t: Table, pkey: seq<int>)
    requires KeyFits(t, pkey)
  {
    && a.Real?
    && if Grouped(t) then MakeKey(t, pkey, 0) in a.cells
       else forall c :: PKeySize(t) <= c < NumColumns(t) ==>
         MakeKey(t, pkey, c) in a.cells && a.cells[MakeKey(t, pkey, c)].value != []
  }

  lemma ListedColumn(a: Adapter, t: Table, pkey: seq<int>, c: nat)
    requires !Grouped(t) && KeyFits(t, pkey) && Listed(a, t, pkey) && c < NumColumns(t)
    ensures a.Real?
    ensures c < PKeySize(t) ==> c < |pkey| && Selected(a, t, pkey, c) == PKeyScalar(t, pkey, c)
    ensures c >= PKeySize(t) ==>
      && MakeKey(t, pkey, c) in a.cells && a.cells[MakeKey(t, pkey, c)].value != []
      && Selected(a, t, pkey, c) == MakeScalar(Types(t)[c], a.cells[MakeKey(t, pkey, c)].value)
  {
    assert |pkey| == PKeySize(t);
    hide KeyFits, Types, NumColumns, PKeySize, MakeKey, MakeScalar, Grouped;
  }

  lemma SelectKeyColumn(a: Adapter, t: Table, pkey: seq<int>, cols: seq<nat>)
    requires Access(t, pkey, cols) && cols != [] && cols[|cols| - 1] < PKeySize(t) && cols[|cols| - 1] < |pkey|
    ensures var m := |cols| - 1;
      var (_, row, found) := SelectColumns(a, t, pkey, cols);
      var (_, before, some) := SelectColumns(a, t, pkey, cols[..m]);
      row == before + [PKeyScalar(t, pkey, cols[m])] && found == some
  {
    hide KeyFits, Types, NumColumns, PKeySize, MakeKey, MakeScalar, PKeyScalar, ReadKey;
  }

  lemma SelectValueColumn(a: Adapter, t: Table, pkey: seq<int>, cols: seq<nat>, k: Bytes)
    requires a.Real? && Access(t, pkey, cols) && cols != [] && cols[|cols| - 1] >= PKeySize(t)
    requires k == MakeKey(t, pkey, cols[|cols| - 1]) && k in a.cells && a.cells[k].value != []
    ensures var m := |cols| - 1;
      var (_, row, found) := SelectColumns(a, t, pkey, cols);
      var (_, before, some) := SelectColumns(a, t, pkey, cols[..m]);
      row == before + [MakeScalar(Types(t)[cols[m]], a.cells[k].value)] && found
  {
    hide KeyFits, Types, NumColumns, PKeySize, MakeKey, MakeScalar, PKeyScalar;
    SelectKeeps(a, t, pkey, cols[..|cols| - 1]);
  }

  lemma SelectStep(a: Adapter, t: Table, pkey: seq<int>, cols: seq<nat>)
    requires !Grouped(t) && Access(t, pkey, cols) && Listed(a, t, pkey) && cols != []
    ensures cols[|cols| - 1] >= PKeySize(t) ==> MakeKey(t, pkey, cols[|cols| - 1]) in a.cells
    ensures var m := |cols| - 1;
      var (_, row, found) := SelectColumns(a, t, pkey, cols);
      var (_, before, some) := SelectColumns(a, t, pkey, cols[..m]);
      row == before + [Selected(a, t, pkey, cols[m])] && (found <==> some || cols[m] >= PKeySize(t))
  {
    hide KeyFits, Types, NumColumns, PKeySize, MakeKey, MakeScalar, Selected, PKeyScalar, Grouped, SelectColumns,
      Listed;
    var c := cols[|cols| - 1];
    ListedColumn(a, t, pkey, c);
    if c < PKeySize(t) { SelectKeyColumn(a, t, pkey, cols); }
    else { SelectValueColumn(a, t, pkey, cols, MakeKey(t, pkey, c)); }
  }

  lemma SelectNoColumn(a: Adapter, t: Table, pkey: seq<int>)
    requires Access(t, pkey, [])
    ensures SelectColumns(a, t, pkey, []) == (a, [], false)
  {
  }

  lemma {:induction false} SelectColumnsMeaning(a: Adapter, t: Table, pkey: seq<int>, cols: seq<nat>)
    requires !Grouped(t) && Access(t, pkey, cols) && Listed(a, t, pkey)
    ensures var (_, row, found) := SelectColumns(a, t, pkey, cols);
      && (found <==> exists i :: 0 <= i < |cols| && cols[i] >= PKeySize(t))
      && |row| == |cols| && forall i :: 0 <= i < |cols| ==> row[i] == Selected(a, t, pkey, cols[i])
  {
    hide KeyFits, Types, NumColumns, PKeySize, MakeKey, MakeScalar, Selected, Listed, Grouped, SelectColumns;
    if cols == [] {
      SelectNoColumn(a, t, pkey);
    } else {
      var m := |cols| - 1;
      SelectColumnsMeaning(a, t, pkey, cols[..m]);
      SelectStep(a, t, pkey, cols);
      assert forall i :: 0 <= i < m ==> cols[..m][i] == cols[i];
    }
  }

  /** Without a column list a selection returns all columns of a listed row, in their order. */
  lemma SelectAll(a: Adapter, t: Table, pkey: seq<int>)
    requires KeyFits(t, pkey) && Listed(a, t, pkey)
    ensures var row := Select(a, t, pkey, []).1;
      |row| == NumColumns(t) && forall c :: 0 <= c < NumColumns(t) ==> row[c] == Selected(a, t, pkey, c)
  {
    RowColumns(t);
    hide KeyFits, Types, NumColumns, PKeySize, MakeKey, MakeScalar, ColumnAt, ColumnOffset, SelectColumns;
    var all := Chosen(t, []);
    assert |all| == NumColumns(t) && forall c :: 0 <= c < |all| ==> all[c] == c;
    if !Grouped(t) {
      SelectColumnsMeaning(a, t, pkey, all);
      assert all[PKeySize(t)] >= PKeySize(t);
    }
  }

  // ---------------------------------------------------------------------
  // Inserts and deletes, column by column
  // ---------------------------------------------------------------------

  function ColumnKey(t: Table, pkey: seq<int>, i: nat): Bytes
    requires KeyFits(t, pkey) && i < |RowTypes(t)|
  {
    RowColumns(t);
    MakeKey(t, pkey, PKeySize(t) + i)
  }

  lemma ColumnKeysApart(t: Table, pkey: seq<int>, i: nat, j: nat)
    requires !Grouped(t) && KeyFits(t, pkey) && i < |RowTypes(t)| && j < |RowTypes(t)| && i != j
    ensures ColumnKey(t, pkey, i) != ColumnKey(t, pkey, j)
  {
    RowColumns(t);
    hide KeyFits, RowTypes, Types, PKeySize, ParseKey;
    KeysInjective(t, pkey, PKeySize(t) + i, t, pkey, PKeySize(t) + j);
  }

  /** The cell is listed for writing. */
  predicate Accepts(cells: map<Bytes, Cell>, k: Bytes) {
    k in cells && cells[k].write
  }

  lemma InsertNone(a: Adapter, t: Table, pkey: seq<int>, values: seq<Scalar>)
    requires Access(t, pkey, []) && |values| == |RowTypes(t)|
    ensures InsertColumns(a, t, pkey, values, 0) == (a, true)
  {
  }

  lemma InsertLast(a: Adapter, t: Table, pkey: seq<int>, values: seq<Scalar>, n: nat)
    requires a.Real? && !Grouped(t) && Access(t, pkey, []) && 0 < n <= |values| == |RowTypes(t)|
    requires InsertColumns(a, t, pkey, values, n - 1).0.Real?
    ensures var (before, ok) := InsertColumns(a, t, pkey, values, n - 1);
      var (b, all) := InsertColumns(a, t, pkey, values, n);
      var k := ColumnKey(t, pkey, n - 1);
      && b.Real? && b.deleted == before.deleted && all == (ok && Accepts(before.cells, k))
      && b.cells == if Accepts(before.cells, k)
        then before.cells[k := before.cells[k].(newValue := ScalarBytes(values[n - 1]))] else before.cells
  {
    hide KeyFits, RowTypes, Types, PKeySize, MakeKey, ScalarBytes;
  }

  ghost predicate Among(t: Table, pkey: seq<int>, n: nat, k: Bytes)
    requires KeyFits(t, pkey) && n <= |RowTypes(t)|
  {
    exists i :: 0 <= i < n && k == ColumnKey(t, pkey, i)
  }

  lemma AmongStep(t: Table, pkey: seq<int>, n: nat, k: Bytes)
    requires KeyFits(t, pkey) && 0 < n <= |RowTypes(t)|
    ensures Among(t, pkey, n, k) <==> Among(t, pkey, n - 1, k) || k == ColumnKey(t, pkey, n - 1)
  {
    hide KeyFits, RowTypes, ColumnKey;
  }

  lemma NotAmong(t: Table, pkey: seq<int>, n: nat)
    requires !Grouped(t) && KeyFits(t, pkey) && n < |RowTypes(t)|
    ensures !Among(t, pkey, n, ColumnKey(t, pkey, n))
  {
    hide KeyFits, RowTypes, ColumnKey, Grouped;
    forall i | 0 <= i < n ensures ColumnKey(t, pkey, i) != ColumnKey(t, pkey, n) { ColumnKeysApart(t, pkey, i, n); }
  }

  /** Only the columns of the row that are listed for writing change. */
  lemma {:induction false} InsertKeeps(a: Adapter, t: Table, pkey: seq<int>, values: seq<Scalar>, n: nat, k: Bytes)
    requires a.Real? && !Grouped(t) && Access(t, pkey, []) && n <= |values| == |RowTypes(t)|
    ensures var b := InsertColumns(a, t, pkey, values, n).0;
      && b.Real? && b.deleted == a.deleted && (k in b.cells <==> k in a.cells)
      && (k in a.cells ==> b.cells[k].write == a.cells[k].write)
      && (k in a.cells && !(Among(t, pkey, n, k) && a.cells[k].write) ==> b.cells[k] == a.cells[k])
  {
    hide KeyFits, RowTypes, Types, NumColumns, PKeySize, ColumnKey, Grouped, MakeKey, InsertKey, ScalarBytes,
      InsertColumns;
    InsertNone(a, t, pkey, values);
    if n > 0 {
      hide Among;
      InsertKeeps(a, t, pkey, values, n - 1, k);
      InsertLast(a, t, pkey, values, n);
      AmongStep(t, pkey, n, k);
    }
  }

  /** Each of these gets the bytes of its value. */
  lemma {:induction false} InsertMeaning(a: Adapter, t: Table, pkey: seq<int>, values: seq<Scalar>, n: nat, i: nat)
    requires a.Real? && !Grouped(t) && Access(t, pkey, []) && i < n <= |values| == |RowTypes(t)|
    requires Accepts(a.cells, ColumnKey(t, pkey, i))
    ensures var b, k := InsertColumns(a, t, pkey, values, n).0, ColumnKey(t, pkey, i);
      b.Real? && k in b.cells && b.cells[k] == a.cells[k].(newValue := ScalarBytes(values[i]))
  {
    hide KeyFits, RowTypes, Types, NumColumns, PKeySize, ColumnKey, Grouped, MakeKey, InsertKey, ScalarBytes,
      InsertColumns, Among;
    var k := ColumnKey(t, pkey, i);
    InsertKeeps(a, t, pkey, values, n - 1, k);
    InsertLast(a, t, pkey, values, n);
    if i < n - 1 {
      InsertMeaning(a, t, pkey, values, n - 1, i);
      ColumnKeysApart(t, pkey, i, n - 1);
    } else {
      NotAmong(t, pkey, n - 1);
    }
  }

  /** An insert succeeds exactly if every column is listed for writing. */
  lemma {:induction false} InsertSucceedsIff(a: Adapter, t: Table, pkey: seq<int>, values: seq<Scalar>, n: nat)
    requires a.Real? && !Grouped(t) && Access(t, pkey, []) && n <= |values| == |RowTypes(t)|
    ensures InsertColumns(a, t, pkey, values, n).1 <==>
      forall i :: 0 <= i < n ==> Accepts(a.cells, ColumnKey(t, pkey, i))
  {
    hide KeyFits, RowTypes, Types, NumColumns, PKeySize, ColumnKey, Grouped, MakeKey, InsertKey, ScalarBytes, Among,
      InsertColumns, Accepts;
    InsertNone(a, t, pkey, values);
    if n > 0 {
      SameAcceptance(a, t, pkey, values, n - 1, ColumnKey(t, pkey, n - 1));
      InsertSucceedsIff(a, t, pkey, values, n - 1);
      InsertLast(a, t, pkey, values, n);
    }
  }

  lemma SameAcceptance(a: Adapter, t: Table, pkey: seq<int>, values: seq<Scalar>, n: nat, k: Bytes)
    requires a.Real? && !Grouped(t) && Access(t, pkey, []) && n <= |values| == |RowTypes(t)|
    ensures var b := InsertColumns(a, t, pkey, values, n).0;
      b.Real? && (Accepts(b.cells, k) <==> Accepts(a.cells, k))
  {
    hide KeyFits, RowTypes, Grouped, MakeKey, Among, InsertColumns;
    InsertKeeps(a, t, pkey, values, n, k);
  }

  lemma DeleteNone(a: Adapter, t: Table, pkey: seq<int>)
    requires Access(t, pkey, [])
    ensures DeleteColumns(a, t, pkey, 0) == (a, true)
  {
  }

  lemma DeleteLast(a: Adapter, t: Table, pkey: seq<int>, n: nat)
    requires a.Real? && !Grouped(t) && Access(t, pkey, []) && 0 < n <= |RowTypes(t)|
    requires DeleteColumns(a, t, pkey, n - 1).0.Real?
    ensures var (before, ok) := DeleteColumns(a, t, pkey, n - 1);
      var (b, all) := DeleteColumns(a, t, pkey, n);
      var k := ColumnKey(t, pkey, n - 1);
      && b.Real? && all == (ok && k in before.cells)
      && b.deleted == (if k in before.cells then before.deleted + [k] else before.deleted)
      && b.cells == before.cells - {k}
  {
    hide KeyFits, RowTypes, Types, PKeySize, MakeKey;
  }

  /** The listed columns of the row are deleted, and no other key. */
  lemma {:induction false} DeleteMeaning(a: Adapter, t: Table, pkey: seq<int>, n: nat, k: Bytes)
    requires a.Real? && !Grouped(t) && Access(t, pkey, []) && n <= |RowTypes(t)|
    ensures var b := DeleteColumns(a, t, pkey, n).0;
      && b.Real?
      && (k in b.cells <==> k in a.cells && !Among(t, pkey, n, k)) && (k in b.cells ==> b.cells[k] == a.cells[k])
      && (k in b.deleted <==> k in a.deleted || (k in a.cells && Among(t, pkey, n, k)))
  {
    hide KeyFits, RowTypes, Types, NumColumns, PKeySize, ColumnKey, Grouped, MakeKey, DeleteKey, DeleteColumns;
    DeleteNone(a, t, pkey);
    if n > 0 {
      hide Among;
      DeleteMeaning(a, t, pkey, n - 1, k);
      DeleteLast(a, t, pkey, n);
      AmongStep(t, pkey, n, k);
    }
  }

  /** A delete succeeds exactly if every column is listed. */
  lemma {:induction false} DeleteSucceedsIff(a: Adapter, t: Table, pkey: seq<int>, n: nat)
    requires a.Real? && !Grouped(t) && Access(t, pkey, []) && n <= |RowTypes(t)|
    ensures DeleteColumns(a, t, pkey, n).1 <==> forall i :: 0 <= i < n ==> ColumnKey(t, pkey, i) in a.cells
  {
    hide KeyFits, RowTypes, Types, NumColumns, PKeySize, ColumnKey, Grouped, Among, MakeKey, DeleteKey, DeleteColumns;
    DeleteNone(a, t, pkey);
    if n > 0 {
      DeleteSucceedsIff(a, t, pkey, n - 1);
      DeleteMeaning(a, t, pkey, n - 1, ColumnKey(t, pkey, n - 1));
      DeleteLast(a, t, pkey, n);
      NotAmong(t, pkey, n - 1);
    }
  }
}
