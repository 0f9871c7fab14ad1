/** The table operations of execution/tpcc/table.h over an adapter. */
module TpccTables {
  import opened Prelude
  import opened TpccCodec
  import opened TpccRows
  import opened TpccAdapters

  type I8 = x: int | Fits(1, x)
  type I32 = x: int | Fits(4, x)
  type I64 = x: int | Fits(8, x)

  // ---------------------------------------------------------------------
  // Primary keys
  // ---------------------------------------------------------------------

  /** A primary key fits if each of its columns does. */
  lemma AllFitting(t: Table, pkey: seq<int>)
    requires |pkey| == PKeySize(t) <= |Types(t)|
    requires forall i :: 0 <= i < |pkey| ==> Fits(Types(t)[i].width, pkey[i])
    ensures KeyFits(t, pkey)
  {
    hide Types, Fits;
    KeyColumns(t);
    var types, rest := OtherKeyTypes(t), pkey[1..];
    assert types == Types(t)[1..PKeySize(t)];
    forall i | 0 <= i < |types| ensures Fits(types[i].width, rest[i]) {
      var j := i + 1;
      assert types[i] == Types(t)[j] && rest[i] == pkey[j];
    }
    assert AllFit(types, rest);
  }

  function WarehouseKey(w: I32): (k: seq<int>)
    ensures KeyFits(Warehouse, k)
  {
    assert Types(Warehouse)[0] == Int(4);
    AllFitting(Warehouse, [w]);
    [w]
  }

  function DistrictKey(w: I32, d: I8): (k: seq<int>)
    ensures KeyFits(District, k)
  {
    assert Types(District)[0] == Int(4) && Types(District)[1] == Int(1);
    AllFitting(District, [w, d]);
    [w, d]
  }

  function CustomerKey(w: I32, d: I8, c: I32): (k: seq<int>)
    ensures KeyFits(Customer, k)
  {
    assert Types(Customer)[0] == Types(Customer)[2] == Int(4) && Types(Customer)[1] == Int(1);
    AllFitting(Customer, [w, d, c]);
    [w, d, c]
  }

  function HistoryKey(w: I32, d: I8, c: I32, h: I32): (k: seq<int>)
    ensures KeyFits(History, k)
  {
    assert Types(History)[0] == Types(History)[2] == Types(History)[3] == Int(4) && Types(History)[1] == Int(1);
    AllFitting(History, [w, d, c, h]);
    [w, d, c, h]
  }

  /** Orders and new orders. */
  function OrderKey(w: I32, d: I8, o: I32): (k: seq<int>)
    ensures KeyFits(Order, k) && KeyFits(NewOrder, k)
  {
    assert Types(Order)[0] == Types(Order)[2] == Int(4) && Types(Order)[1] == Int(1);
    assert Types(NewOrder)[0] == Types(NewOrder)[2] == Int(4) && Types(NewOrder)[1] == Int(1);
    AllFitting(Order, [w, d, o]);
    AllFitting(NewOrder, [w, d, o]);
    [w, d, o]
  }

  function OrderLineKey(w: I32, d: I8, o: I32, n: I8): (k: seq<int>)
    ensures KeyFits(OrderLine, k)
  {
    assert Types(OrderLine)[0] == Types(OrderLine)[2] == Int(4);
    assert Types(OrderLine)[1] == Types(OrderLine)[3] == Int(1);
    AllFitting(OrderLine, [w, d, o, n]);
    [w, d, o, n]
  }

  /** Items and stock. */
  function ItemKey(w: I32, i: I32): (k: seq<int>)
    ensures KeyFits(Item, k) && KeyFits(Stock, k)
  {
    assert Types(Item)[0] == Types(Item)[1] == Types(Stock)[0] == Types(Stock)[1] == Int(4);
    AllFitting(Item, [w, i]);
    AllFitting(Stock, [w, i]);
    [w, i]
  }

  // ---------------------------------------------------------------------
  // Operations
  // ---------------------------------------------------------------------

  predicate Access(t: Table, pkey: seq<int>, cols: seq<nat>) {
    KeyFits(t, pkey) && ColumnsOf(t, cols)
  }

  function PKeyScalar(t: Table, pkey: seq<int>, c: nat): Scalar
    requires c < |pkey| && c < NumColumns(t)
  {
    IntS(Types(t)[c].width, pkey[c])
  }

  /** Without a column list all columns are meant. */
  function Chosen(t: Table, cols: seq<nat>): (r: seq<nat>)
    ensures ColumnsOf(t, cols) ==> ColumnsOf(t, r)
  {
    if cols == [] then seq(|Types(t)|, i requires 0 <= i => i) else cols
  }

  function Select(a: Adapter, t: Table, pkey: seq<int>, cols: seq<nat>): (Adapter, seq<Scalar>)
    requires Access(t, pkey, cols)
  {
    if Grouped(t) then SelectGrouped(a, t, pkey, Chosen(t, cols))
    else
      var (b, row, found) := SelectColumns(a, t, pkey, Chosen(t, cols));
      (b, if found then row else [])
  }

  /** The value is decoded in place, whatever its length. */
  function SelectGrouped(a: Adapter, t: Table, pkey: seq<int>, cols: seq<nat>): (Adapter, seq<Scalar>)
    requires Access(t, pkey, cols)
  {
    var (b, value) := ReadKey(a, MakeKey(t, pkey, 0));
    if value.None? then (b, [])
    else
      (b, seq(|cols|, i requires 0 <= i < |cols| =>
        if cols[i] < PKeySize(t) then PKeyScalar(t, pkey, cols[i])
        else ColumnAt(Types(t)[cols[i]], value.value, ColumnOffset(t, cols[i]))))
  }

  /** Columns without a value are left out of the row. */
  function SelectColumns(a: Adapter, t: Table, pkey: seq<int>, cols: seq<nat>): (Adapter, seq<Scalar>, bool)
    requires Access(t, pkey, cols)
  {
    if cols == [] then (a, [], false)
    else
      var m := |cols| - 1;
      var (b, row, found) := SelectColumns(a, t, pkey, cols[..m]);
      if cols[m] < PKeySize(t) then (b, row + [PKeyScalar(t, pkey, cols[m])], found)
      else
        var (b', value) := ReadKey(b, MakeKey(t, pkey, cols[m]));
        if value.None? || value.value == [] then (b', row, found)
        else (b', row + [MakeScalar(Types(t)[cols[m]], value.value)], true)
  }

  /** ValidateType aborts the process on a type of another name. */
  predicate Valid(t: Table, cols: seq<nat>, values: seq<Scalar>) {
    |cols| == |values| && ColumnsOf(t, cols) && forall i ::
      0 <= i < |cols| ==> NameMatches(Types(t)[cols[i]], values[i])
  }

  /** The functions that Update hands to the adapter: they overwrite columns of the row, or the
      whole value of a single column. */
  function RowUpdate(t: Table, cols: seq<nat>, values: seq<Scalar>): Bytes -> Bytes
    requires |cols| == |values| && ColumnsOf(t, cols)
  {
    row => UpdateRow(t, row, cols, values)
  }

  function Overwriting(value: Bytes): Bytes -> Bytes {
    _ => value
  }

  function Update(a: Adapter, t: Table, pkey: seq<int>, cols: seq<nat>, values: seq<Scalar>): (Adapter, bool)
    requires Access(t, pkey, cols) && Valid(t, cols, values)
  {
    if Grouped(t) then UpdateKey(a, MakeKey(t, pkey, 0), RowUpdate(t, cols, values))
    else UpdateColumns(a, t, pkey, cols, values)
  }

  function UpdateColumns(a: Adapter, t: Table, pkey: seq<int>, cols: seq<nat>, values: seq<Scalar>): (Adapter, bool)
    requires Access(t, pkey, cols) && |cols| == |values|
  {
    if cols == [] then (a, true)
    else
      var m := |cols| - 1;
      var (b, ok) := UpdateColumns(a, t, pkey, cols[..m], values[..m]);
      var (b', ok') := UpdateKey(b, MakeKey(t, pkey, cols[m]), Overwriting(ScalarBytes(values[m])));
      (b', ok && ok')
  }

  /** The primary key is the first values of the row. */
  function InsertRow(a: Adapter, t: Table, pkey: seq<int>, values: seq<Scalar>): (Adapter, bool)
    requires Access(t, pkey, []) && |values| == |RowTypes(t)|
    requires forall i :: 0 <= i < |values| ==> NameMatches(RowTypes(t)[i], values[i])
  {
    if Grouped(t) then InsertKey(a, MakeKey(t, pkey, 0), EncodeRow(values))
    else InsertColumns(a, t, pkey, values, |values|)
  }

  function InsertColumns(a: Adapter, t: Table, pkey: seq<int>, values: seq<Scalar>, n: nat): (Adapter, bool)
    requires Access(t, pkey, []) && n <= |values| == |RowTypes(t)|
  {
    if n == 0 then (a, true)
    else
      RowColumns(t);
      var (b, ok) := InsertColumns(a, t, pkey, values, n - 1);
      var (b', ok') := InsertKey(b, MakeKey(t, pkey, PKeySize(t) + n - 1), ScalarBytes(values[n - 1]));
      (b', ok && ok')
  }

  function DeleteRow(a: Adapter, t: Table, pkey: seq<int>): (Adapter, bool)
    requires Access(t, pkey, [])
  {
    if Grouped(t) then DeleteKey(a, MakeKey(t, pkey, 0)) else DeleteColumns(a, t, pkey, |RowTypes(t)|)
  }

  function DeleteColumns(a: Adapter, t: Table, pkey: seq<int>, n: nat): (Adapter, bool)
    requires Access(t, pkey, []) && n <= |RowTypes(t)|
  {
    if n == 0 then (a, true)
    else
      RowColumns(t);
      var (b, ok) := DeleteColumns(a, t, pkey, n - 1);
      var (b', ok') := DeleteKey(b, MakeKey(t, pkey, PKeySize(t) + n - 1));
      (b', ok && ok')
  }

  // ---------------------------------------------------------------------
  // The keys an operation asks for
  // ---------------------------------------------------------------------

  function Reads(t: Table, pkey: seq<int>, cols: seq<nat>): seq<Call>
    requires Access(t, pkey, cols)
  {
    if Grouped(t) then [Call(MakeKey(t, pkey, 0), false)] else ColumnReads(t, pkey, Chosen(t, cols))
  }

  function ColumnReads(t: Table, pkey: seq<int>, cols: seq<nat>): seq<Call>
    requires Access(t, pkey, cols)
  {
    if cols == [] then []
    else
      var m := |cols| - 1;
      ColumnReads(t, pkey, cols[..m]) + if cols[m] < PKeySize(t) then [] else [Call(MakeKey(t, pkey, cols[m]), false)]
  }

  function Writes(t: Table, pkey: seq<int>, cols: seq<nat>): seq<Call>
    requires Access(t, pkey, cols)
  {
    if Grouped(t) then [Call(MakeKey(t, pkey, 0), true)]
    else ColumnWrites(t, pkey, cols)
  }

  function ColumnWrites(t: Table, pkey: seq<int>, cols: seq<nat>): seq<Call>
    requires Access(t, pkey, cols)
  {
    if cols == [] then []
    else
      var m := |cols| - 1;
      ColumnWrites(t, pkey, cols[..m]) + [Call(MakeKey(t, pkey, cols[m]), true)]
  }

  /** The operation called the adapter with exactly these keys, whatever the adapter answered. A
      collecting adapter has noted them; a real one has changed nothing else. */
  predicate Called(a: Adapter, b: Adapter, calls: seq<Call>) {
    && b.calls == a.calls + calls
    && (a.Real? <==> b.Real?)
    && (a.Collect? ==> b.finalized == a.finalized && (Collected(a) && !a.finalized ==> Collected(b)))
    && (a.Real? ==> Kept(a.cells, b.cells, calls) && Removed(a.deleted, b.deleted, b.cells, calls))
  }

  predicate Kept(a: map<Bytes, Cell>, b: map<Bytes, Cell>, calls: seq<Call>) {
    && (forall k :: k in b ==> k in a && b[k].write == a[k].write && b[k].value == a[k].value)
    && (forall k :: k in a && Call(k, true) !in calls ==> k in b && b[k] == a[k])
  }

  predicate Removed(a: seq<Bytes>, b: seq<Bytes>, cells: map<Bytes, Cell>, calls: seq<Call>) {
    forall k :: k in b ==> k in a || (k !in cells && Call(k, true) in calls)
  }

  lemma CalledTrans(a: Adapter, b: Adapter, c: Adapter, x: seq<Call>, y: seq<Call>)
    requires Called(a, b, x) && Called(b, c, y)
    ensures Called(a, c, x + y)
  {
    assert a.calls + x + y == a.calls + (x + y);
    assert forall z :: z in x + y <==> z in x || z in y;
  }

  lemma CalledNothing(a: Adapter)
    ensures Called(a, a, [])
  {
    assert a.calls + [] == a.calls;
  }

  lemma PrimitiveCalled(a: Adapter, k: Bytes, value: Bytes, f: Bytes -> Bytes)
    ensures Called(a, ReadKey(a, k).0, [Call(k, false)])
    ensures Called(a, InsertKey(a, k, value).0, [Call(k, true)])
    ensures Called(a, UpdateKey(a, k, f).0, [Call(k, true)])
    ensures Called(a, DeleteKey(a, k).0, [Call(k, true)])
  {
    assert Call(k, true) in [Call(k, true)];
    if a.Collect? && Collected(a) {
      NoteCollects(a, Call(k, false));
      NoteCollects(a, Call(k, true));
    }
  }

  lemma {:induction false} ColumnsCalled(a: Adapter, t: Table, pkey: seq<int>, cols: seq<nat>)
    requires Access(t, pkey, cols)
    ensures Called(a, SelectColumns(a, t, pkey, cols).0, ColumnReads(t, pkey, cols))
  {
    hide MakeScalar, KeyFits, Types, NumColumns, PKeySize, MakeKey, Called, ReadKey;
    if cols == [] {
      CalledNothing(a);
    } else {
      var m := |cols| - 1;
      var b := SelectColumns(a, t, pkey, cols[..m]).0;
      ColumnsCalled(a, t, pkey, cols[..m]);
      if cols[m] < PKeySize(t) {
        assert ColumnReads(t, pkey, cols) == ColumnReads(t, pkey, cols[..m]);
      } else {
        var k := MakeKey(t, pkey, cols[m]);
        PrimitiveCalled(b, k, [], x => x);
        CalledTrans(a, b, ReadKey(b, k).0, ColumnReads(t, pkey, cols[..m]), [Call(k, false)]);
      }
    }
  }

  lemma SelectCalled(a: Adapter, t: Table, pkey: seq<int>, cols: seq<nat>)
    requires Access(t, pkey, cols)
    ensures Called(a, Select(a, t, pkey, cols).0, Reads(t, pkey, cols))
  {
    hide Called, ReadKey, ColumnAt, ColumnReads, SelectColumns;
    if Grouped(t) { PrimitiveCalled(a, MakeKey(t, pkey, 0), [], x => x); }
    else { ColumnsCalled(a, t, pkey, Chosen(t, cols)); }
  }

  lemma {:induction false} UpdateColumnsCalled(a: Adapter, t: Table, pkey: seq<int>, cols: seq<nat>,
      values: seq<Scalar>)
    requires Access(t, pkey, cols) && |cols| == |values|
    ensures Called(a, UpdateColumns(a, t, pkey, cols, values).0, ColumnWrites(t, pkey, cols))
  {
    hide ScalarBytes, KeyFits, Types, NumColumns, MakeKey, Called, UpdateKey, Overwriting;
    if cols == [] {
      CalledNothing(a);
    } else {
      var m := |cols| - 1;
      var b := UpdateColumns(a, t, pkey, cols[..m], values[..m]).0;
      UpdateColumnsCalled(a, t, pkey, cols[..m], values[..m]);
      var k, f := MakeKey(t, pkey, cols[m]), Overwriting(ScalarBytes(values[m]));
      PrimitiveCalled(b, k, [], f);
      CalledTrans(a, b, UpdateKey(b, k, f).0, ColumnWrites(t, pkey, cols[..m]), [Call(k, true)]);
    }
  }

  lemma UpdateCalled(a: Adapter, t: Table, pkey: seq<int>, cols: seq<nat>, values: seq<Scalar>)
    requires Access(t, pkey, cols) && Valid(t, cols, values)
    ensures Called(a, Update(a, t, pkey, cols, values).0, Writes(t, pkey, cols))
  {
    hide Called, UpdateKey, UpdateColumns, RowUpdate;
    if Grouped(t) {
      PrimitiveCalled(a, MakeKey(t, pkey, 0), [], RowUpdate(t, cols, values));
    } else {
      UpdateColumnsCalled(a, t, pkey, cols, values);
    }
  }

  /** Inserts and deletes of the transactions concern grouped tables only. */
  lemma InsertCalled(a: Adapter, t: Table, pkey: seq<int>, values: seq<Scalar>)
    requires Access(t, pkey, []) && |values| == |RowTypes(t)| && Grouped(t)
    requires forall i :: 0 <= i < |values| ==> NameMatches(RowTypes(t)[i], values[i])
    ensures Called(a, InsertRow(a, t, pkey, values).0, Writes(t, pkey, []))
    ensures Called(a, DeleteRow(a, t, pkey).0, Writes(t, pkey, []))
  {
    hide Called, InsertKey, DeleteKey, EncodeRow;
    PrimitiveCalled(a, MakeKey(t, pkey, 0), EncodeRow(values), x => x);
  }
}
