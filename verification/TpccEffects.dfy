/** What new orders and deliveries leave in the database (execution/tpcc/new_order.cpp and
    deliver.cpp). */
module TpccEffects {
  import opened Prelude
  import opened TpccCodec
  import opened TpccRows
  import opened TpccAdapters
  import opened TpccTables
  import opened TpccTxns
  import opened TpccRuns

  // ---------------------------------------------------------------------
  // Grouped rows
  // ---------------------------------------------------------------------

  function RowKey(t: Table, pkey: seq<int>): Bytes
    requires KeyFits(t, pkey)
  {
    MakeKey(t, pkey, 0)
  }

  /** Selecting from a stored row gives back the columns it was made of. */
  lemma SelectStored(a: Adapter, t: Table, pkey: seq<int>, cols: seq<nat>, values: seq<Scalar>)
    requires a.Real? && Grouped(t) && Access(t, pkey, cols) && NonKey(t, cols) && cols != [] &&
      AllWellTyped(RowTypes(t), values)
    requires RowKey(t, pkey) in a.cells && a.cells[RowKey(t, pkey)].value == EncodeRow(values)
    ensures var row := Select(a, t, pkey, cols).1;
      |row| == |cols| && forall i :: 0 <= i < |cols| ==> row[i] == values[cols[i] - PKeySize(t)]
  {
    hide KeyFits, Types, NumColumns, PKeySize, RowTypes, MakeKey, EncodeRow, ColumnAt, WellTyped, Offset, Grouped;
    RowColumns(t);
    forall i | 0 <= i < |cols| ensures Select(a, t, pkey, cols).1[i] == values[cols[i] - PKeySize(t)] {
      RowRoundTrip(RowTypes(t), values, cols[i] - PKeySize(t));
    }
  }

  lemma InsertSets(a: Adapter, t: Table, pkey: seq<int>, values: seq<Scalar>)
    requires a.Real? && Grouped(t) && Access(t, pkey, []) && |values| == |RowTypes(t)|
    requires (forall i :: 0 <= i < |values| ==> NameMatches(RowTypes(t)[i], values[i])) &&
      InsertRow(a, t, pkey, values).1
    ensures var b := InsertRow(a, t, pkey, values).0; b.Real? && Wrote(b.cells, RowKey(t, pkey), EncodeRow(values))
  {
    hide KeyFits, Types, RowTypes, MakeKey, EncodeRow, NameMatches;
  }

  lemma UpdateSetsRow(a: Adapter, t: Table, pkey: seq<int>, cols: seq<nat>, values: seq<Scalar>)
    requires a.Real? && Grouped(t) && Access(t, pkey, cols) && Valid(t, cols, values) &&
      Update(a, t, pkey, cols, values).1
    ensures var b, k := Update(a, t, pkey, cols, values).0, RowKey(t, pkey);
      b.Real? && k in a.cells && Wrote(b.cells, k, UpdateRow(t, a.cells[k].value, cols, values))
  {
    hide KeyFits, Types, MakeKey, UpdateRow, Valid;
  }

  /** Steps that do not write a key leave its cell alone. */
  lemma CellStays(a: Adapter, b: Adapter, calls: seq<Call>, k: Bytes)
    requires a.Real? && Called(a, b, calls) && Call(k, true) !in calls
    ensures b.Real? && (k in a.cells ==> k in b.cells && b.cells[k] == a.cells[k])
    ensures k in b.cells ==> k in a.cells && b.cells[k].value == a.cells[k].value
  {
  }

  /** Stored values never change while a transaction runs. */
  lemma ValuesStay(a: Adapter, b: Adapter, calls: seq<Call>, k: Bytes)
    requires a.Real? && Called(a, b, calls)
    ensures b.Real? && (k in b.cells ==>
      k in a.cells && b.cells[k].value == a.cells[k].value && b.cells[k].write == a.cells[k].write)
  {
  }

  lemma RowWrites(t: Table, pkey: seq<int>, cols: seq<nat>, c: Call)
    requires Grouped(t) && Access(t, pkey, cols)
    ensures c in Writes(t, pkey, cols) <==> c == Call(RowKey(t, pkey), true)
  {
    hide KeyFits, MakeKey;
  }

  lemma RowReads(t: Table, pkey: seq<int>, cols: seq<nat>, c: Call)
    requires Grouped(t) && Access(t, pkey, cols)
    ensures c in Reads(t, pkey, cols) <==> c == Call(RowKey(t, pkey), false)
  {
    hide KeyFits, MakeKey;
  }

  // ---------------------------------------------------------------------
  // The lines of a new order
  // ---------------------------------------------------------------------

  function StockKey(l: Line): Bytes {
    RowKey(Stock, ItemKey(l.supplyW, l.item))
  }

  function LineKey(x: NewOrderArgs, l: Line): Bytes {
    RowKey(OrderLine, OrderLineKey(x.w, x.d, x.o, l.id))
  }

  /** Lines of one order share a stock row, or an order line row, by these. */
  predicate SameStock(l: Line, m: Line) {
    l.supplyW == m.supplyW && l.item == m.item
  }

  lemma KeysApart(x: NewOrderArgs, l: Line, m: Line)
    ensures StockKey(l) == StockKey(m) <==> SameStock(l, m)
    ensures LineKey(x, l) == LineKey(x, m) <==> l.id == m.id
    ensures StockKey(l) != LineKey(x, m)
  {
    hide KeyFits, MakeKey, ParseKey;
    var a, b := ItemKey(l.supplyW, l.item), ItemKey(m.supplyW, m.item);
    assert ParseKey(StockKey(l)) == Some(Loc(Stock, a, 0)) && ParseKey(StockKey(m)) == Some(Loc(Stock, b, 0));
    var c, d := OrderLineKey(x.w, x.d, x.o, l.id), OrderLineKey(x.w, x.d, x.o, m.id);
    assert ParseKey(LineKey(x, l)) == Some(Loc(OrderLine, c, 0)) &&
      ParseKey(LineKey(x, m)) == Some(Loc(OrderLine, d, 0));
    assert a[0] == l.supplyW && a[1] == l.item && b[0] == m.supplyW && b[1] == m.item && c[3] == l.id && d[3] == m.id;
  }

  /** The stock row with another quantity. */
  function Restocked(row: Bytes, quantity: int): Bytes {
    UpdateRow(Stock, row, [S_QUANTITY], [IntS(2, quantity)])
  }

  ghost predicate StockWrote(cells: map<Bytes, Cell>, l: Line, r: LineRow) {
    StockKey(l) in cells && Wrote(cells, StockKey(l), Restocked(cells[StockKey(l)].value, r.stock))
  }

  ghost predicate LineWrote(cells: map<Bytes, Cell>, x: NewOrderArgs, l: Line, r: LineRow) {
    Wrote(cells, LineKey(x, l), EncodeRow(OrderLineRow(l, r)))
  }

  lemma WriteLineSets(a: Adapter, x: NewOrderArgs, l: Line, r: LineRow)
    requires a.Real? && WriteLine(a, x, l, r).1
    ensures var b := WriteLine(a, x, l, r).0; b.Real? && StockWrote(b.cells, l, r) && LineWrote(b.cells, x, l, r)
  {
    NewOrderTypes();
    hide KeyFits, Types, MakeKey, Update, InsertRow, UpdateRow, EncodeRow, Called, Writes;
    var sk, ok := ItemKey(l.supplyW, l.item), OrderLineKey(x.w, x.d, x.o, l.id);
    var a1 := Update(a, Stock, sk, [S_QUANTITY], [IntS(2, r.stock)]).0;
    var a2 := InsertRow(a1, OrderLine, ok, OrderLineRow(l, r)).0;
    UpdateSetsRow(a, Stock, sk, [S_QUANTITY], [IntS(2, r.stock)]);
    UpdateCalled(a, Stock, sk, [S_QUANTITY], [IntS(2, r.stock)]);
    ValuesStay(a, a1, Writes(Stock, sk, [S_QUANTITY]), StockKey(l));
    InsertCalled(a1, OrderLine, ok, OrderLineRow(l, r));
    InsertSets(a1, OrderLine, ok, OrderLineRow(l, r));
    KeysApart(x, l, l);
    RowWrites(OrderLine, ok, [], Call(StockKey(l), true));
    CellStays(a1, a2, Writes(OrderLine, ok, []), StockKey(l));
  }

  /** Line i is the last of the first n lines to name its stock row, or its order line. */
  predicate LastForStock(x: NewOrderArgs, n: nat, i: nat)
    requires i < n <= |x.lines|
  {
    forall j :: i < j < n ==> !SameStock(x.lines[i], x.lines[j])
  }

  predicate LastForId(x: NewOrderArgs, n: nat, i: nat)
    requires i < n <= |x.lines|
  {
    forall j :: i < j < n ==> x.lines[i].id != x.lines[j].id
  }

  lemma LineCalls(x: NewOrderArgs, l: Line, c: Call)
    requires Access(Stock, ItemKey(l.supplyW, l.item), [S_QUANTITY]) &&
      Access(OrderLine, OrderLineKey(x.w, x.d, x.o, l.id), [])
    ensures c in Writes(Stock, ItemKey(l.supplyW, l.item), [S_QUANTITY]) +
      Writes(OrderLine, OrderLineKey(x.w, x.d, x.o, l.id), [])
      <==> c == Call(StockKey(l), true) || c == Call(LineKey(x, l), true)
  {
    hide KeyFits, MakeKey, Writes;
    RowWrites(Stock, ItemKey(l.supplyW, l.item), [S_QUANTITY], c);
    RowWrites(OrderLine, OrderLineKey(x.w, x.d, x.o, l.id), [], c);
  }

  lemma LineCallsHere(x: NewOrderArgs, l: Line, c: Call)
    ensures Access(Stock, ItemKey(l.supplyW, l.item), [S_QUANTITY]) &&
      Access(OrderLine, OrderLineKey(x.w, x.d, x.o, l.id), [])
    ensures c in Writes(Stock, ItemKey(l.supplyW, l.item), [S_QUANTITY]) +
      Writes(OrderLine, OrderLineKey(x.w, x.d, x.o, l.id), [])
      <==> c == Call(StockKey(l), true) || c == Call(LineKey(x, l), true)
  {
    hide KeyFits, MakeKey, Writes;
    LineCalls(x, l, c);
  }

  /** What an earlier line wrote stays, unless this line writes the same row. */
  lemma LineKeeps(a: Adapter, x: NewOrderArgs, l: Line, r: LineRow, m: Line, q: LineRow)
    requires a.Real?
    ensures WriteLine(a, x, l, r).0.Real?
    ensures StockWrote(a.cells, m, q) && !SameStock(m, l) ==> StockWrote(WriteLine(a, x, l, r).0.cells, m, q)
    ensures LineWrote(a.cells, x, m, q) && m.id != l.id ==> LineWrote(WriteLine(a, x, l, r).0.cells, x, m, q)
  {
    hide KeyFits, MakeKey, WriteLine, UpdateRow, EncodeRow, Called, Writes, StockKey, LineKey, ItemKey, OrderLineKey;
    LineWriteCalled(a, x, l, r);
    var calls := Writes(Stock, ItemKey(l.supplyW, l.item), [S_QUANTITY]) +
      Writes(OrderLine, OrderLineKey(x.w, x.d, x.o, l.id), []);
    var b := WriteLine(a, x, l, r).0;
    KeysApart(x, m, l);
    KeysApart(x, l, m);
    LineCalls(x, l, Call(StockKey(m), true));
    LineCalls(x, l, Call(LineKey(x, m), true));
    if !SameStock(m, l) { CellStays(a, b, calls, StockKey(m)); }
    if m.id != l.id { CellStays(a, b, calls, LineKey(x, m)); }
    ValuesStay(a, b, calls, StockKey(m));
  }

  lemma {:induction false} WriteLinesSet(a: Adapter, x: NewOrderArgs, rows: seq<LineRow>, n: nat, i: nat)
    requires a.Real? && i < n <= |x.lines| == |rows| && WriteLines(a, x, rows, n).1
    ensures var b := WriteLines(a, x, rows, n).0;
      && b.Real?
      && (LastForStock(x, n, i) ==> StockWrote(b.cells, x.lines[i], rows[i]))
      && (LastForId(x, n, i) ==> LineWrote(b.cells, x, x.lines[i], rows[i]))
  {
    hide WriteLine, StockWrote, LineWrote;
    var l, r := x.lines[n - 1], rows[n - 1];
    var a1 := WriteLines(a, x, rows, n - 1).0;
    LinesStayReal(a, x, rows, n - 1);
    if i == n - 1 {
      WriteLineSets(a1, x, l, r);
    } else {
      WriteLinesSet(a, x, rows, n - 1, i);
      LineKeeps(a1, x, l, r, x.lines[i], rows[i]);
    }
  }

  lemma LinesStayReal(a: Adapter, x: NewOrderArgs, rows: seq<LineRow>, n: nat)
    requires a.Real? && n <= |x.lines| == |rows|
    ensures WriteLines(a, x, rows, n).0.Real?
  {
    LinesWriteCalled(a, x, rows, n);
  }

  // ---------------------------------------------------------------------
  // What a new order reads
  // ---------------------------------------------------------------------

  /** A column of a grouped row as the database holds it, whether or not the row is there. */
  function Column(db: Db, t: Table, pkey: seq<int>, c: nat): Scalar
    requires KeyFits(t, pkey) && c < NumColumns(t)
  {
    ColumnAt(Types(t)[c], Value(db, RowKey(t, pkey)), ColumnOffset(t, c))
  }

  function Price(db: Db, x: NewOrderArgs, l: Line): int {
    hide KeyFits;
    IntOf(Column(db, Item, ItemKey(x.itemW, l.item), I_PRICE))
  }

  function Quantity(db: Db, l: Line): int {
    hide KeyFits;
    IntOf(Column(db, Stock, ItemKey(l.supplyW, l.item), S_QUANTITY))
  }

  /** The first 24 bytes of the stock row's district texts. */
  function DistInfo(db: Db, l: Line): (b: Bytes)
    ensures |b| == 24
  {
    hide KeyFits;
    var s := Column(db, Stock, ItemKey(l.supplyW, l.item), S_ALL_DIST);
    Window(if s.TextS? then s.buffer else [], 0, 24)
  }

  function IntOf(s: Scalar): int {
    if s.IntS? then s.value else 0
  }

  lemma GroupedSelect(db: Db, a: Adapter, t: Table, pkey: seq<int>, cols: seq<nat>)
    requires a.Real? && Grouped(t) && Access(t, pkey, cols) && NonKey(t, cols) && cols != []
    requires RowKey(t, pkey) in a.cells && a.cells[RowKey(t, pkey)].value == Value(db, RowKey(t, pkey))
    ensures var (b, row) := Select(a, t, pkey, cols);
      b.Real? && b.cells == a.cells && |row| == |cols| && forall i ::
        0 <= i < |cols| ==> row[i] == Column(db, t, pkey, cols[i])
  {
    hide KeyFits, Types, NumColumns, PKeySize, MakeKey, ColumnAt, ColumnOffset, Grouped;
  }

  lemma ReadLineMeaning(db: Db, a: Adapter, x: NewOrderArgs, l: Line)
    requires a.Real? && RowKey(Item, ItemKey(x.itemW, l.item)) in a.cells && StockKey(l) in a.cells
    requires a.cells[RowKey(Item, ItemKey(x.itemW, l.item))].value == Value(db, RowKey(Item, ItemKey(x.itemW, l.item)))
    requires a.cells[StockKey(l)].value == Value(db, StockKey(l))
    ensures var (b, row, ok) := ReadLine(a, x, l);
      b.Real? && b.cells == a.cells && ok && row.price == Price(db, x, l) && row.stock == Quantity(db, l) &&
        row.distWidth == 24 && row.dist == DistInfo(db, l)
  {
    hide KeyFits, MakeKey, Select, Column, Value;
    GroupedSelect(db, a, Item, ItemKey(x.itemW, l.item), ITEM_COLUMNS);
    var a1 := Select(a, Item, ItemKey(x.itemW, l.item), ITEM_COLUMNS).0;
    GroupedSelect(db, a1, Stock, ItemKey(l.supplyW, l.item), STOCK_COLUMNS);
  }

  /** All rows that the lines read are in the key list, with the values of the database. */
  ghost predicate LinesServed(db: Db, cells: map<Bytes, Cell>, x: NewOrderArgs) {
    forall l :: l in x.lines ==>
      && RowKey(Item, ItemKey(x.itemW, l.item)) in cells && StockKey(l) in cells
      && cells[RowKey(Item, ItemKey(x.itemW, l.item))].value == Value(db, RowKey(Item, ItemKey(x.itemW, l.item)))
      && cells[StockKey(l)].value == Value(db, StockKey(l))
  }

  lemma {:induction false} ReadLinesMeaning(db: Db, a: Adapter, x: NewOrderArgs, n: nat)
    requires a.Real? && LinesServed(db, a.cells, x) && n <= |x.lines|
    ensures var (b, rows, ok) := ReadLines(a, x, n);
      && b.Real? && b.cells == a.cells
      && forall i :: 0 <= i < n ==>
           && rows[i].price == Price(db, x, x.lines[i]) && rows[i].stock == Quantity(db, x.lines[i])
           && rows[i].distWidth == 24 && rows[i].dist == DistInfo(db, x.lines[i])
  {
    hide ReadLine, Price, Quantity, DistInfo, StockKey, RowKey, Value, ItemKey;
    if n > 0 {
      ReadLinesMeaning(db, a, x, n - 1);
      assert x.lines[n - 1] in x.lines;
      ReadLineMeaning(db, ReadLines(a, x, n - 1).0, x, x.lines[n - 1]);
    }
  }

  lemma {:induction false} LineReadsHave(x: NewOrderArgs, n: nat, i: nat)
    requires i < n <= |x.lines|
    ensures Call(RowKey(Item, ItemKey(x.itemW, x.lines[i].item)), false) in LineReads(x, n)
    ensures Call(StockKey(x.lines[i]), false) in LineReads(x, n)
  {
    hide KeyFits, MakeKey;
    if i < n - 1 { LineReadsHave(x, n - 1, i); }
  }

  lemma LinesAreServed(db: Db, x: NewOrderArgs)
    ensures LinesServed(db, Load(db, DeclaredKeys(NewOrderTxn(x))), x)
  {
    hide DeclaredKeys, Declared, LineReads, OrderHeaderReads, WriteCalls, StockKey, RowKey, ItemKey, Value;
    var txn := NewOrderTxn(x);
    DeclaredKeysAre(txn);
    forall l | l in x.lines
      ensures RowKey(Item, ItemKey(x.itemW, l.item)) in DeclaredKeys(txn) && StockKey(l) in DeclaredKeys(txn)
    {
      var i :| 0 <= i < |x.lines| && x.lines[i] == l;
      LineReadsHave(x, |x.lines|, i);
      assert Call(RowKey(Item, ItemKey(x.itemW, l.item)), false) in ReadCalls(txn) + WriteCalls(txn);
      assert Call(StockKey(l), false) in ReadCalls(txn) + WriteCalls(txn);
    }
  }

  lemma NextTypes()
    ensures Types(District)[NEXT_COLUMNS[1]] == Int(4)
  {
  }

  /** The header of an order is read from the district's next order number. */
  lemma ReadHeaderMeaning(db: Db, x: NewOrderArgs)
    requires Whole(db)
    ensures var cells := Load(db, DeclaredKeys(NewOrderTxn(x)));
      var (a, next, ok) := ReadOrderHeader(Real(cells, [], []), x);
      && a.Real? && a.cells == cells && (ok ==> next == IntValue(db, District, DistrictKey(x.w, x.d), D_NEXT_O_ID))
  {
    NextTypes();
    hide KeyFits, Types, MakeKey, MakeScalar, Select, Reads, RowOf, WholeRow, Serves, DeclaredKeys, Load, LineReads;
    var txn := NewOrderTxn(x);
    var a := Real(Load(db, DeclaredKeys(txn)), [], []);
    var wk, dk, ck := WarehouseKey(x.w), DistrictKey(x.w, x.d), CustomerKey(x.w, x.d, x.c);
    ReadsServed(db, txn, Warehouse, wk, [W_TAX]);
    ReadsServed(db, txn, Customer, ck, CREDIT_COLUMNS);
    ReadsServed(db, txn, District, dk, NEXT_COLUMNS);
    SelectWhole(db, a, Warehouse, wk, [W_TAX]);
    var (a1, w) := Select(a, Warehouse, wk, [W_TAX]);
    SelectWhole(db, a1, Customer, ck, CREDIT_COLUMNS);
    var (a2, c) := Select(a1, Customer, ck, CREDIT_COLUMNS);
    SelectWhole(db, a2, District, dk, NEXT_COLUMNS);
    var (a3, d) := Select(a2, District, dk, NEXT_COLUMNS);
    if d != [] { IntColumn(db, District, dk, NEXT_COLUMNS, d, 1); }
  }

  // ---------------------------------------------------------------------
  // What a new order leaves
  // ---------------------------------------------------------------------

  ghost predicate HeaderWrote(cells: map<Bytes, Cell>, x: NewOrderArgs, n: NewOrderRow) {
    && Wrote(cells, NextKey(x), EncodeInt(4, n.nextOId))
    && Wrote(cells, RowKey(Order, OrderKey(x.w, x.d, x.o)), EncodeRow(OrderRow(x, n)))
    && Wrote(cells, RowKey(NewOrder, OrderKey(x.w, x.d, x.o)), EncodeRow([IntS(1, 0)]))
  }

  lemma WriteHeaderSets(a: Adapter, x: NewOrderArgs, n: NewOrderRow)
    requires a.Real? && WriteOrderHeader(a, x, n).1
    ensures WriteOrderHeader(a, x, n).0.Real? && HeaderWrote(WriteOrderHeader(a, x, n).0.cells, x, n)
  {
    NewOrderTypes();
    hide KeyFits, Types, MakeKey, Update, InsertRow, EncodeRow, Called, Writes, Wrote, EncodeInt, ParseKey;
    var dk, k := DistrictKey(x.w, x.d), OrderKey(x.w, x.d, x.o);
    var a1 := Update(a, District, dk, [D_NEXT_O_ID], [IntS(4, n.nextOId)]).0;
    var a2 := InsertRow(a1, Order, k, OrderRow(x, n)).0;
    var a3 := InsertRow(a2, NewOrder, k, [IntS(1, 0)]).0;
    UpdateSets(a, District, dk, [D_NEXT_O_ID], [IntS(4, n.nextOId)]);
    assert Wrote(a1.cells, NextKey(x), EncodeInt(4, n.nextOId)) by {
      assert MakeKey(District, dk, [D_NEXT_O_ID][0]) == NextKey(x) &&
        ScalarBytes([IntS(4, n.nextOId)][0]) == EncodeInt(4, n.nextOId);
    }
    InsertSets(a1, Order, k, OrderRow(x, n));
    InsertSets(a2, NewOrder, k, [IntS(1, 0)]);
    InsertCalled(a1, Order, k, OrderRow(x, n));
    InsertCalled(a2, NewOrder, k, [IntS(1, 0)]);
    OtherTableKeeps(a1, a2, Order, k, [], NextKey(x), EncodeInt(4, n.nextOId));
    OtherTableKeeps(a2, a3, NewOrder, k, [], NextKey(x), EncodeInt(4, n.nextOId));
    OtherTableKeeps(a2, a3, NewOrder, k, [], RowKey(Order, k), EncodeRow(OrderRow(x, n)));
  }

  lemma LinesKeepOthers(a: Adapter, x: NewOrderArgs, rows: seq<LineRow>, k: Bytes, v: Bytes)
    requires a.Real? && |rows| == |x.lines| && Wrote(a.cells, k, v)
    requires ParseKey(k).Some? && ParseKey(k).value.table !in {Stock, OrderLine}
    ensures WriteLines(a, x, rows, |x.lines|).0.Real? && Wrote(WriteLines(a, x, rows, |x.lines|).0.cells, k, v)
  {
    hide ParseKey, WriteLines, LineWrites;
    LinesWriteCalled(a, x, rows, |x.lines|);
    if Call(k, true) in LineWrites(x, |x.lines|) { LineWritesAre(x, |x.lines|, Call(k, true)); }
  }

  lemma NewOrderWriteSets(a: Adapter, x: NewOrderArgs, n: NewOrderRow, i: nat)
    requires |n.lines| == |x.lines| && a.Real? && NewOrderWrite(a, x, n).1
    ensures var b := NewOrderWrite(a, x, n).0;
      && b.Real? && HeaderWrote(b.cells, x, n)
      && (i < |x.lines| && LastForStock(x, |x.lines|, i) ==> StockWrote(b.cells, x.lines[i], n.lines[i]))
      && (i < |x.lines| && LastForId(x, |x.lines|, i) ==> LineWrote(b.cells, x, x.lines[i], n.lines[i]))
  {
    hide KeyFits, MakeKey, WriteOrderHeader, WriteLines, StockWrote, LineWrote, ParseKey, EncodeRow, EncodeInt,
      Wrote, LastForStock, LastForId;
    var a1 := WriteOrderHeader(a, x, n).0;
    WriteHeaderSets(a, x, n);
    LinesKeepOthers(a1, x, n.lines, NextKey(x), EncodeInt(4, n.nextOId));
    LinesKeepOthers(a1, x, n.lines, RowKey(Order, OrderKey(x.w, x.d, x.o)), EncodeRow(OrderRow(x, n)));
    LinesKeepOthers(a1, x, n.lines, RowKey(NewOrder, OrderKey(x.w, x.d, x.o)), EncodeRow([IntS(1, 0)]));
    if i < |x.lines| { WriteLinesSet(a1, x, n.lines, |x.lines|, i); }
  }

  lemma NewOrderReadMeaning(db: Db, x: NewOrderArgs)
    requires Whole(db)
    ensures var cells := Load(db, DeclaredKeys(NewOrderTxn(x)));
      var (a, row, ok) := NewOrderRead(Real(cells, [], []), x);
      && a.Real? && a.cells == cells && |row.lines| == |x.lines|
      && (ok ==> row.nextOId == IntValue(db, District, DistrictKey(x.w, x.d), D_NEXT_O_ID))
      && forall i :: 0 <= i < |x.lines| ==>
           && row.lines[i].price == Price(db, x, x.lines[i]) && row.lines[i].stock == Quantity(db, x.lines[i])
           && row.lines[i].distWidth == 24 && row.lines[i].dist == DistInfo(db, x.lines[i])
  {
    hide ReadOrderHeader, ReadLines, DeclaredKeys, Load, Price, Quantity, DistInfo, IntValue, Whole, LinesServed;
    var a := Real(Load(db, DeclaredKeys(NewOrderTxn(x))), [], []);
    ReadHeaderMeaning(db, x);
    LinesAreServed(db, x);
    ReadLinesMeaning(db, ReadOrderHeader(a, x).0, x, |x.lines|);
  }

  /** Stock falls by the ordered quantity, or is topped up by 91. */
  function Adjusted(stock: int, quantity: int): int {
    Wrap(2, if stock > quantity then stock - quantity else stock - quantity + 91)
  }

  ghost predicate Computed(db: Db, x: NewOrderArgs, n: NewOrderRow) {
    && |n.lines| == |x.lines|
    && n.nextOId == Wrap(4, IntValue(db, District, DistrictKey(x.w, x.d), D_NEXT_O_ID) + 1)
    && (n.allLocal <==> forall l :: l in x.lines ==> l.supplyW == x.w)
    && forall i :: 0 <= i < |x.lines| ==> var l := x.lines[i];
         && n.lines[i].amount == Wrap(4, l.quantity * Price(db, x, l))
         && n.lines[i].stock == Adjusted(Quantity(db, l), l.quantity)
         && n.lines[i].distWidth == 24 && n.lines[i].dist == DistInfo(db, l)
  }

  lemma ComputeIsComputed(db: Db, x: NewOrderArgs, row: NewOrderRow)
    requires |row.lines| == |x.lines| && row.nextOId == IntValue(db, District, DistrictKey(x.w, x.d), D_NEXT_O_ID)
    requires forall i :: 0 <= i < |x.lines| ==>
      && row.lines[i].price == Price(db, x, x.lines[i]) && row.lines[i].stock == Quantity(db, x.lines[i])
      && row.lines[i].distWidth == 24 && row.lines[i].dist == DistInfo(db, x.lines[i])
    ensures Computed(db, x, NewOrderCompute(x, row))
  {
    hide Wrap, Price, Quantity, DistInfo, IntValue;
  }

  /** The key list as a run leaves it. */
  ghost function Final(db: Db, txn: Txn): Adapter {
    Executed(Real(Load(db, DeclaredKeys(txn)), [], []), txn).0
  }

  /** What is left in a cell for writing is in the database afterwards. */
  lemma WroteIsValue(db: Db, txn: Txn, k: Bytes, v: Bytes)
    requires RunTxn(db, txn).1 && Final(db, txn).Real? && Wrote(Final(db, txn).cells, k, v)
    ensures Value(RunTxn(db, txn).0, k) == v && Final(db, txn).cells[k].value == Value(db, k)
  {
    hide Executed, DeclaredKeys, RunTxn, Value, Load;
    Committed(db, txn, k);
  }

  ghost predicate LineDone(cells: map<Bytes, Cell>, x: NewOrderArgs, n: NewOrderRow, i: nat)
    requires i < |x.lines| == |n.lines|
  {
    && (LastForStock(x, |x.lines|, i) ==> StockWrote(cells, x.lines[i], n.lines[i]))
    && (LastForId(x, |x.lines|, i) ==> LineWrote(cells, x, x.lines[i], n.lines[i]))
  }

  /** The row that a committed new order computes, and that it was written. */
  lemma NewOrderRuns(db: Db, x: NewOrderArgs) returns (n: NewOrderRow)
    requires Whole(db) && RunTxn(db, NewOrderTxn(x)).1
    ensures Computed(db, x, n) && |n.lines| == |x.lines|
    ensures Final(db, NewOrderTxn(x)).Real? && HeaderWrote(Final(db, NewOrderTxn(x)).cells, x, n)
    ensures forall i :: 0 <= i < |x.lines| ==> LineDone(Final(db, NewOrderTxn(x)).cells, x, n, i)
  {
    hide NewOrderRead, NewOrderWrite, NewOrderCompute, DeclaredKeys, Load, HeaderWrote, StockWrote, LineWrote,
      LastForStock, LastForId;
    hide Price, Quantity, DistInfo, IntValue, Whole, Wrap;
    var (a, row, read) := NewOrderRead(Real(Load(db, DeclaredKeys(NewOrderTxn(x))), [], []), x);
    NewOrderReadMeaning(db, x);
    RunCommits(db, NewOrderTxn(x));
    n := NewOrderCompute(x, row);
    ComputeIsComputed(db, x, row);
    NewOrderWriteSets(a, x, n, |x.lines|);
    forall i | 0 <= i < |x.lines|
      ensures LineDone(NewOrderWrite(a, x, n).0.cells, x, n, i) { NewOrderWriteSets(a, x, n, i); }
  }

  /** The district's order number is advanced, and the order and a new order are there. */
  ghost predicate OrderLeft(db: Db, db': Db, x: NewOrderArgs, n: NewOrderRow) {
    && IntValue(db', District, DistrictKey(x.w, x.d), D_NEXT_O_ID) ==
      Wrap(4, IntValue(db, District, DistrictKey(x.w, x.d), D_NEXT_O_ID) + 1)
    && Value(db', RowKey(Order, OrderKey(x.w, x.d, x.o))) == EncodeRow(OrderRow(x, n))
    && Value(db', RowKey(NewOrder, OrderKey(x.w, x.d, x.o))) == EncodeRow([IntS(1, 0)])
  }

  /** A line's order line and its stock row. Of several lines for one row the last counts, since
      every update starts again from the stored row. */
  ghost predicate LineLeft(db: Db, db': Db, x: NewOrderArgs, n: NewOrderRow, i: nat)
    requires i < |x.lines| == |n.lines|
  {
    var l := x.lines[i];
    && (LastForId(x, |x.lines|, i) ==> Value(db', LineKey(x, l)) == EncodeRow(OrderLineRow(l, n.lines[i])))
    && (LastForStock(x, |x.lines|, i) ==>
      Value(db', StockKey(l)) == Restocked(Value(db, StockKey(l)), n.lines[i].stock))
  }

  lemma HeaderEffect(db: Db, x: NewOrderArgs, n: NewOrderRow)
    requires RunTxn(db, NewOrderTxn(x)).1 && Computed(db, x, n)
    requires Final(db, NewOrderTxn(x)).Real? && HeaderWrote(Final(db, NewOrderTxn(x)).cells, x, n)
    ensures OrderLeft(db, RunTxn(db, NewOrderTxn(x)).0, x, n)
  {
    hide KeyFits, MakeKey, RunTxn, Final, Value, EncodeRow, Wrote, EncodeInt, DecodeInt, Wrap, Price, Quantity,
      DistInfo, Fits;
    var txn := NewOrderTxn(x);
    WroteIsValue(db, txn, NextKey(x), EncodeInt(4, n.nextOId));
    DecodeEncode(4, n.nextOId);
    WroteIsValue(db, txn, RowKey(Order, OrderKey(x.w, x.d, x.o)), EncodeRow(OrderRow(x, n)));
    WroteIsValue(db, txn, RowKey(NewOrder, OrderKey(x.w, x.d, x.o)), EncodeRow([IntS(1, 0)]));
  }

  lemma LineEffect(db: Db, x: NewOrderArgs, n: NewOrderRow, i: nat)
    requires RunTxn(db, NewOrderTxn(x)).1 && i < |x.lines| == |n.lines|
    requires Final(db, NewOrderTxn(x)).Real? && LineDone(Final(db, NewOrderTxn(x)).cells, x, n, i)
    ensures LineLeft(db, RunTxn(db, NewOrderTxn(x)).0, x, n, i)
  {
    hide RunTxn, Final, Value, EncodeRow, Restocked, Wrote, LastForStock, LastForId, StockKey, LineKey;
    var txn, l := NewOrderTxn(x), x.lines[i];
    if LastForId(x, |x.lines|, i) { WroteIsValue(db, txn, LineKey(x, l), EncodeRow(OrderLineRow(l, n.lines[i]))); }
    if LastForStock(x, |x.lines|, i) {
      WroteIsValue(db, txn, StockKey(l), Restocked(Final(db, txn).cells[StockKey(l)].value, n.lines[i].stock));
    }
  }

  /** What a committed new order leaves, computed from what the database held. */
  lemma NewOrderBytes(db: Db, x: NewOrderArgs) returns (n: NewOrderRow)
    requires Whole(db) && RunTxn(db, NewOrderTxn(x)).1
    ensures Computed(db, x, n) && OrderLeft(db, RunTxn(db, NewOrderTxn(x)).0, x, n) && |n.lines| == |x.lines|
    ensures forall i :: 0 <= i < |x.lines| ==> LineLeft(db, RunTxn(db, NewOrderTxn(x)).0, x, n, i)
  {
    hide RunTxn, Final, Computed, OrderLeft, LineLeft, LineDone, HeaderWrote, Whole;
    n := NewOrderRuns(db, x);
    HeaderEffect(db, x, n);
    forall i | 0 <= i < |x.lines|
      ensures LineLeft(db, RunTxn(db, NewOrderTxn(x)).0, x, n, i) { LineEffect(db, x, n, i); }
  }

  // ---------------------------------------------------------------------
  // What a delivery reads
  // ---------------------------------------------------------------------

  function DeliverLineKey(x: DeliverArgs, n: nat): (k: seq<int>)
    ensures KeyFits(OrderLine, k)
  {
    hide KeyFits;
    OrderLineKey(x.w, x.d, x.o, LineNumber(n))
  }

  function LineRowKey(x: DeliverArgs, n: nat): Bytes {
    hide KeyFits;
    RowKey(OrderLine, DeliverLineKey(x, n))
  }

  /** The amounts of lines 1..n as the database holds them. */
  function Total(db: Db, x: DeliverArgs, n: nat): int {
    hide KeyFits;
    if n == 0 then 0 else Wrap(4, Total(db, x, n - 1) + IntOf(Column(db, OrderLine, DeliverLineKey(x, n), OL_AMOUNT)))
  }

  ghost predicate DeliverServed(db: Db, cells: map<Bytes, Cell>, x: DeliverArgs) {
    forall n ::
      1 <= n <= LINES_PER_ORDER ==>
        LineRowKey(x, n) in cells && cells[LineRowKey(x, n)].value == Value(db, LineRowKey(x, n))
  }

  lemma LineServed(db: Db, cells: map<Bytes, Cell>, x: DeliverArgs, n: nat)
    requires DeliverServed(db, cells, x) && 1 <= n <= LINES_PER_ORDER
    ensures var k := RowKey(OrderLine, DeliverLineKey(x, n)); k in cells && cells[k].value == Value(db, k)
  {
    hide KeyFits, MakeKey, Value, LineNumber;
    assert LineRowKey(x, n) == RowKey(OrderLine, DeliverLineKey(x, n));
  }

  lemma {:induction false} SumLinesMeaning(db: Db, a: Adapter, x: DeliverArgs, n: nat)
    requires a.Real? && DeliverServed(db, a.cells, x) && n <= LINES_PER_ORDER
    ensures var (b, sum) := SumLines(a, x, n); b.Real? && b.cells == a.cells && sum == Total(db, x, n)
  {
    hide KeyFits, MakeKey, Types, Select, Column, Value, Wrap, LineNumber, DeliverServed;
    if n > 0 {
      SumLinesMeaning(db, a, x, n - 1);
      LineServed(db, a.cells, x, n);
      GroupedSelect(db, SumLines(a, x, n - 1).0, OrderLine, DeliverLineKey(x, n), [OL_AMOUNT]);
    }
  }

  lemma {:induction false} SumReadsHave(x: DeliverArgs, n: nat, i: nat)
    requires 1 <= i <= n
    ensures Call(LineRowKey(x, i), false) in SumReads(x, n)
  {
    hide KeyFits, MakeKey, LineNumber, Reads, Types;
    if i < n { SumReadsHave(x, n - 1, i); }
    else { RowReads(OrderLine, DeliverLineKey(x, n), [OL_AMOUNT], Call(LineRowKey(x, n), false)); }
  }

  lemma {:induction false} MarkWritesHave(x: DeliverArgs, n: nat, i: nat)
    requires 1 <= i <= n
    ensures Call(LineRowKey(x, i), true) in MarkWrites(x, n)
  {
    hide KeyFits, MakeKey, LineNumber, Writes, Types;
    if i < n {
      MarkWritesHave(x, n - 1, i);
    } else {
      RowWrites(OrderLine, DeliverLineKey(x, n), [OL_DELIVERY_D], Call(LineRowKey(x, n), true));
    }
  }

  lemma DeliverIsServed(db: Db, x: DeliverArgs)
    ensures DeliverServed(db, Load(db, DeclaredKeys(DeliverTxn(x))), x)
  {
    hide DeclaredKeys, Declared, SumReads, WriteCalls, LineRowKey, Value, Reads;
    var txn := DeliverTxn(x);
    DeclaredKeysAre(txn);
    forall n | 1 <= n <= LINES_PER_ORDER ensures LineRowKey(x, n) in DeclaredKeys(txn) {
      SumReadsHave(x, LINES_PER_ORDER, n);
      assert Call(LineRowKey(x, n), false) in ReadCalls(txn) + WriteCalls(txn);
    }
  }

  lemma DeliveredTypes()
    ensures Types(Customer)[DELIVERED_COLUMNS[0]] == Int(8) && Types(Customer)[DELIVERED_COLUMNS[1]] == Int(2)
  {
  }

  /** The customer's balance and count, zero when there is no such customer. */
  lemma DeliverReadMeaning(db: Db, x: DeliverArgs)
    requires Whole(db)
    ensures var cells := Load(db, DeclaredKeys(DeliverTxn(x)));
      var (a, row) := DeliverRead(Real(cells, [], []), x);
      && a.Real? && a.cells == cells && row.sum == Total(db, x, LINES_PER_ORDER)
      && row.balance == IntValue(db, Customer, CustomerKey(x.w, x.d, x.c), C_BALANCE)
      && row.deliveryCnt == IntValue(db, Customer, CustomerKey(x.w, x.d, x.c), C_DELIVERY_CNT)
  {
    DeliveredTypes();
    hide KeyFits, Types, MakeKey, MakeScalar, Select, Reads, RowOf, WholeRow, Serves, DeclaredKeys, Load, SumReads,
      SumLines, Total, DeliverServed;
    var txn := DeliverTxn(x);
    var a, ck := Real(Load(db, DeclaredKeys(txn)), [], []), CustomerKey(x.w, x.d, x.c);
    ReadsServed(db, txn, Customer, ck, DELIVERED_COLUMNS);
    SelectCalled(a, Order, OrderKey(x.w, x.d, x.o), [O_C_ID]);
    ReadsRead(Order, OrderKey(x.w, x.d, x.o), [O_C_ID]);
    var a1 := Select(a, Order, OrderKey(x.w, x.d, x.o), [O_C_ID]).0;
    CalledReading(a, a1, Reads(Order, OrderKey(x.w, x.d, x.o), [O_C_ID]));
    DeliverIsServed(db, x);
    SumLinesMeaning(db, a1, x, LINES_PER_ORDER);
    var a2 := SumLines(a1, x, LINES_PER_ORDER).0;
    SelectWhole(db, a2, Customer, ck, DELIVERED_COLUMNS);
    SelectNone(db, a2, Customer, ck, DELIVERED_COLUMNS);
    var c := Select(a2, Customer, ck, DELIVERED_COLUMNS).1;
    if c != [] {
      IntColumn(db, Customer, ck, DELIVERED_COLUMNS, c, 0);
      IntColumn(db, Customer, ck, DELIVERED_COLUMNS, c, 1);
    }
  }

  /** No row comes back only if the columns are empty. */
  lemma SelectNone(db: Db, a: Adapter, t: Table, pkey: seq<int>, cols: seq<nat>)
    requires a.Real? && !Grouped(t) && Access(t, pkey, cols) && NonKey(t, cols) && cols != []
    requires WholeRow(db, t, pkey) && Serves(db, a.cells, t, pkey, cols)
    ensures Select(a, t, pkey, cols).1 == [] ==> forall i ::
      0 <= i < |cols| ==> Value(db, MakeKey(t, pkey, cols[i])) == []
  {
    hide KeyFits, Types, NumColumns, PKeySize, MakeKey, MakeScalar, SelectColumns, Value;
    if forall c :: PKeySize(t) <= c < NumColumns(t) ==> Value(db, MakeKey(t, pkey, c)) == [] {
    } else {
      forall i | 0 <= i < |cols| ensures Value(db, MakeKey(t, pkey, cols[i])) != [] { WidthsPositive(t, cols[i]); }
      SelectPresent(a, t, pkey, cols);
    }
  }

  // ---------------------------------------------------------------------
  // What a delivery leaves
  // ---------------------------------------------------------------------

  /** The cell was there to be updated and now holds v; a row that is not there stays empty. */
  ghost predicate Left(db: Db, cells: map<Bytes, Cell>, k: Bytes, v: Bytes) {
    Wrote(cells, k, if Value(db, k) == [] then [] else v)
  }

  lemma UpdateLeaves(db: Db, a: Adapter, t: Table, pkey: seq<int>, cols: seq<nat>, values: seq<Scalar>)
    requires a.Real? && Grouped(t) && Access(t, pkey, cols) && Valid(t, cols, values) &&
      Untouched(db, a.cells, RowKey(t, pkey))
    ensures var b, k := Update(a, t, pkey, cols, values).0, RowKey(t, pkey);
      b.Real? && b.deleted == a.deleted && Left(db, b.cells, k, UpdateRow(t, Value(db, k), cols, values))
  {
    hide KeyFits, Types, MakeKey, UpdateRow, Valid, Value;
  }

  function Carried(row: Bytes, x: DeliverArgs): Bytes {
    UpdateRow(Order, row, [O_CARRIER_ID], [IntS(1, x.carrier)])
  }

  function Dated(row: Bytes, x: DeliverArgs): Bytes {
    UpdateRow(OrderLine, row, [OL_DELIVERY_D], [IntS(8, x.datetime)])
  }

  lemma LineKeysApart(x: DeliverArgs, m: nat, n: nat)
    requires m < 128 && n < 128 && LineRowKey(x, m) == LineRowKey(x, n)
    ensures m == n
  {
    WrapFits(1, m);
    WrapFits(1, n);
    hide KeyFits, MakeKey, ParseKey, Wrap;
    var a, b := DeliverLineKey(x, m), DeliverLineKey(x, n);
    assert ParseKey(LineRowKey(x, m)) == Some(Loc(OrderLine, a, 0)) &&
      ParseKey(LineRowKey(x, n)) == Some(Loc(OrderLine, b, 0));
    assert a[3] == m && b[3] == n;
  }

  lemma {:induction false} MarkLinesLeave(db: Db, a: Adapter, x: DeliverArgs, n: nat, i: nat)
    requires a.Real? && n <= LINES_PER_ORDER && 1 <= i <= LINES_PER_ORDER && forall j ::
      1 <= j <= LINES_PER_ORDER ==> Untouched(db, a.cells, LineRowKey(x, j))
    ensures var b := MarkLines(a, x, n);
      && b.Real? && b.deleted == a.deleted
      && (if i <= n then Left(db, b.cells, LineRowKey(x, i), Dated(Value(db, LineRowKey(x, i)), x))
        else Untouched(db, b.cells, LineRowKey(x, i)))
  {
    DeliverTypes();
    hide KeyFits, MakeKey, Types, Update, UpdateRow, Value, LineNumber, Left, Untouched, Called, Writes, Wrote;
    if n > 0 {
      var k, b := DeliverLineKey(x, n), MarkLines(a, x, n - 1);
      MarkLinesLeave(db, a, x, n - 1, i);
      MarkLinesLeave(db, a, x, n - 1, n);
      UpdateLeaves(db, b, OrderLine, k, [OL_DELIVERY_D], [IntS(8, x.datetime)]);
      if i != n {
        if LineRowKey(x, i) == LineRowKey(x, n) { LineKeysApart(x, i, n); }
        UpdateCalled(b, OrderLine, k, [OL_DELIVERY_D], [IntS(8, x.datetime)]);
        RowWrites(OrderLine, k, [OL_DELIVERY_D], Call(LineRowKey(x, i), true));
        CellKept(db, b, MarkLines(a, x, n), Writes(OrderLine, k, [OL_DELIVERY_D]), LineRowKey(x, i),
          Dated(Value(db, LineRowKey(x, i)), x));
      }
    }
  }

  lemma CellKept(db: Db, a: Adapter, b: Adapter, calls: seq<Call>, k: Bytes, v: Bytes)
    requires a.Real? && Called(a, b, calls) && Call(k, true) !in calls
    ensures b.Real? && (Left(db, a.cells, k, v) ==> Left(db, b.cells, k, v)) &&
      (Untouched(db, a.cells, k) ==> Untouched(db, b.cells, k))
  {
    hide Value;
    CellStays(a, b, calls, k);
  }

  /** Every cell that a delivery writes is as it was loaded. */
  ghost predicate DeliverFresh(db: Db, cells: map<Bytes, Cell>, x: DeliverArgs) {
    && Untouched(db, cells, RowKey(NewOrder, OrderKey(x.w, x.d, x.o))) &&
      Untouched(db, cells, RowKey(Order, OrderKey(x.w, x.d, x.o)))
    && (forall i :: 1 <= i <= LINES_PER_ORDER ==> Untouched(db, cells, LineRowKey(x, i)))
    && Untouched(db, cells, DeliveredKey(x, 0)) && Untouched(db, cells, DeliveredKey(x, 1))
  }

  lemma DeliverStartsFresh(db: Db, x: DeliverArgs)
    ensures DeliverFresh(db, Load(db, DeclaredKeys(DeliverTxn(x))), x)
  {
    hide KeyFits, MakeKey, Types, DeclaredKeys, Load, Untouched, Writes, MarkWrites;
    var txn, k, ck := DeliverTxn(x), OrderKey(x.w, x.d, x.o), CustomerKey(x.w, x.d, x.c);
    RowWrites(NewOrder, k, [], Call(RowKey(NewOrder, k), true));
    RowWrites(Order, k, [O_CARRIER_ID], Call(RowKey(Order, k), true));
    WritesHave(Customer, ck, DELIVERED_COLUMNS, 0);
    WritesHave(Customer, ck, DELIVERED_COLUMNS, 1);
    LoadedForWriting(db, txn, Call(RowKey(NewOrder, k), true));
    LoadedForWriting(db, txn, Call(RowKey(Order, k), true));
    LoadedForWriting(db, txn, Call(DeliveredKey(x, 0), true));
    LoadedForWriting(db, txn, Call(DeliveredKey(x, 1), true));
    forall i | 1 <= i <= LINES_PER_ORDER ensures Untouched(db, Load(db, DeclaredKeys(txn)), LineRowKey(x, i)) {
      MarkWritesHave(x, LINES_PER_ORDER, i);
      LoadedForWriting(db, txn, Call(LineRowKey(x, i), true));
    }
  }

  ghost predicate RowsLeft(db: Db, cells: map<Bytes, Cell>, x: DeliverArgs) {
    && Left(db, cells, RowKey(Order, OrderKey(x.w, x.d, x.o)),
      Carried(Value(db, RowKey(Order, OrderKey(x.w, x.d, x.o))), x))
    && forall i ::
      1 <= i <= LINES_PER_ORDER ==> Left(db, cells, LineRowKey(x, i), Dated(Value(db, LineRowKey(x, i)), x))
  }

  lemma DeleteDrops(a: Adapter, t: Table, pkey: seq<int>)
    requires a.Real? && Grouped(t) && Access(t, pkey, []) && RowKey(t, pkey) in a.cells
    ensures var b := DeleteRow(a, t, pkey).0; b.Real? && b.deleted == a.deleted + [RowKey(t, pkey)]
  {
    hide KeyFits, MakeKey, Types;
  }

  /** The grouped rows: the new order goes, the order and its lines 1 to 10 are updated. */
  lemma DeliverRows(db: Db, a: Adapter, x: DeliverArgs)
    requires a.Real? && DeliverFresh(db, a.cells, x)
    ensures var k := OrderKey(x.w, x.d, x.o);
      var b := MarkLines(Update(DeleteRow(a, NewOrder, k).0, Order, k, [O_CARRIER_ID], [IntS(1, x.carrier)]).0, x,
        LINES_PER_ORDER);
      && b.Real? && RowKey(NewOrder, k) in b.deleted && RowsLeft(db, b.cells, x)
      && Untouched(db, b.cells, DeliveredKey(x, 0)) && Untouched(db, b.cells, DeliveredKey(x, 1))
  {
    DeliverTypes();
    NewOrderTypes();
    hide KeyFits, MakeKey, Types, ParseKey, Update, DeleteRow, MarkLines, MarkWrites, UpdateRow, Value, Left,
      Untouched, Called, Writes;
    var k, ck := OrderKey(x.w, x.d, x.o), CustomerKey(x.w, x.d, x.c);
    var a1 := DeleteRow(a, NewOrder, k).0;
    var a2 := Update(a1, Order, k, [O_CARRIER_ID], [IntS(1, x.carrier)]).0;
    var a3 := MarkLines(a2, x, LINES_PER_ORDER);
    var nk, ok, v := RowKey(NewOrder, k), RowKey(Order, k), Carried(Value(db, RowKey(Order, k)), x);
    UntouchedIn(db, a.cells, nk);
    DeleteDrops(a, NewOrder, k);
    InsertCalled(a, NewOrder, k, [IntS(1, 0)]);
    OtherRow(NewOrder, k, [], ok);
    CellKept(db, a, a1, Writes(NewOrder, k, []), ok, v);
    UpdateLeaves(db, a1, Order, k, [O_CARRIER_ID], [IntS(1, x.carrier)]);
    UpdateCalled(a1, Order, k, [O_CARRIER_ID], [IntS(1, x.carrier)]);
    forall i | 1 <= i <= LINES_PER_ORDER ensures Untouched(db, a2.cells, LineRowKey(x, i)) {
      OtherRow(NewOrder, k, [], LineRowKey(x, i));
      OtherRow(Order, k, [O_CARRIER_ID], LineRowKey(x, i));
      CellKept(db, a, a1, Writes(NewOrder, k, []), LineRowKey(x, i), []);
      CellKept(db, a1, a2, Writes(Order, k, [O_CARRIER_ID]), LineRowKey(x, i), []);
    }
    MarkLinesCalled(a2, x, LINES_PER_ORDER);
    MarkLinesLeave(db, a2, x, LINES_PER_ORDER, 1);
    forall i | 1 <= i <= LINES_PER_ORDER
      ensures Left(db, a3.cells, LineRowKey(x, i), Dated(Value(db, LineRowKey(x, i)), x)) {
      MarkLinesLeave(db, a2, x, LINES_PER_ORDER, i);
    }
    MarkSkips(x, ok);
    CellKept(db, a2, a3, MarkWrites(x, LINES_PER_ORDER), ok, v);
    CustomerUntouched(db, a, a1, a2, a3, x, 0);
    CustomerUntouched(db, a, a1, a2, a3, x, 1);
  }

  lemma UntouchedIn(db: Db, cells: map<Bytes, Cell>, k: Bytes)
    requires Untouched(db, cells, k)
    ensures k in cells
  {
  }

  lemma OtherRow(t: Table, pkey: seq<int>, cols: seq<nat>, k: Bytes)
    requires Access(t, pkey, cols) && ParseKey(k).Some? && ParseKey(k).value.table != t
    ensures Call(k, true) !in Writes(t, pkey, cols)
  {
    hide KeyFits, MakeKey, ParseKey, Writes;
    if Call(k, true) in Writes(t, pkey, cols) { WritesAre(t, pkey, cols, Call(k, true)); }
  }

  lemma {:induction false} MarkWritesTable(x: DeliverArgs, n: nat, c: Call)
    requires c in MarkWrites(x, n)
    ensures ParseKey(c.key).Some? && ParseKey(c.key).value.table == OrderLine
  {
    hide KeyFits, Types, Writes, ParseKey, LineNumber;
    if c in MarkWrites(x, n - 1) { MarkWritesTable(x, n - 1, c); }
    else { WritesAre(OrderLine, OrderLineKey(x.w, x.d, x.o, LineNumber(n)), [OL_DELIVERY_D], c); }
  }

  lemma MarkSkips(x: DeliverArgs, k: Bytes)
    requires ParseKey(k).Some? && ParseKey(k).value.table != OrderLine
    ensures Call(k, true) !in MarkWrites(x, LINES_PER_ORDER)
  {
    hide ParseKey, MarkWrites;
    if Call(k, true) in MarkWrites(x, LINES_PER_ORDER) { MarkWritesTable(x, LINES_PER_ORDER, Call(k, true)); }
  }

  lemma CustomerUntouched(db: Db, a: Adapter, a1: Adapter, a2: Adapter, a3: Adapter, x: DeliverArgs, i: nat)
    requires i < 2 && a.Real? && Untouched(db, a.cells, DeliveredKey(x, i))
    requires Access(NewOrder, OrderKey(x.w, x.d, x.o), []) &&
      Called(a, a1, Writes(NewOrder, OrderKey(x.w, x.d, x.o), []))
    requires Access(Order, OrderKey(x.w, x.d, x.o), [O_CARRIER_ID]) &&
      Called(a1, a2, Writes(Order, OrderKey(x.w, x.d, x.o), [O_CARRIER_ID]))
    requires Called(a2, a3, MarkWrites(x, LINES_PER_ORDER))
    ensures a3.Real? && Untouched(db, a3.cells, DeliveredKey(x, i))
  {
    hide KeyFits, MakeKey, ParseKey, MarkWrites, Untouched, Called, Writes;
    var k, ok := DeliveredKey(x, i), OrderKey(x.w, x.d, x.o);
    OtherRow(NewOrder, ok, [], k);
    OtherRow(Order, ok, [O_CARRIER_ID], k);
    MarkSkips(x, k);
    CellKept(db, a, a1, Writes(NewOrder, ok, []), k, []);
    CellKept(db, a1, a2, Writes(Order, ok, [O_CARRIER_ID]), k, []);
    CellKept(db, a2, a3, MarkWrites(x, LINES_PER_ORDER), k, []);
  }

  ghost predicate CustomerLeft(db: Db, cells: map<Bytes, Cell>, x: DeliverArgs, n: DeliverRow) {
    && Left(db, cells, DeliveredKey(x, 0), EncodeInt(8, n.balance))
    && Left(db, cells, DeliveredKey(x, 1), EncodeInt(2, n.deliveryCnt))
  }

  lemma CustomerUpdated(db: Db, a: Adapter, x: DeliverArgs, n: DeliverRow)
    requires a.Real? && Untouched(db, a.cells, DeliveredKey(x, 0)) && Untouched(db, a.cells, DeliveredKey(x, 1))
    ensures Valid(Customer, DELIVERED_COLUMNS, DeliveredValues(n))
    ensures var b := Update(a, Customer, CustomerKey(x.w, x.d, x.c), DELIVERED_COLUMNS, DeliveredValues(n)).0;
      b.Real? && b.deleted == a.deleted && CustomerLeft(db, b.cells, x, n)
  {
    DeliverTypes();
    hide KeyFits, MakeKey, Types, ParseKey, UpdateColumns, Value, EncodeInt;
    var ck := CustomerKey(x.w, x.d, x.c);
    UpdateMeaning(a, Customer, ck, DELIVERED_COLUMNS, DeliveredValues(n));
    var keys := Keys(Customer, ck, DELIVERED_COLUMNS);
    assert keys[0] == DeliveredKey(x, 0) && keys[1] == DeliveredKey(x, 1);
  }

  lemma RowsKept(db: Db, a: Adapter, b: Adapter, x: DeliverArgs)
    requires a.Real? && RowsLeft(db, a.cells, x) && Access(Customer, CustomerKey(x.w, x.d, x.c), DELIVERED_COLUMNS)
    requires Called(a, b, Writes(Customer, CustomerKey(x.w, x.d, x.c), DELIVERED_COLUMNS))
    ensures b.Real? && RowsLeft(db, b.cells, x)
  {
    hide KeyFits, MakeKey, ParseKey, Called, Writes, Left, UpdateRow, Value;
    var ck, ok := CustomerKey(x.w, x.d, x.c), RowKey(Order, OrderKey(x.w, x.d, x.o));
    var calls := Writes(Customer, ck, DELIVERED_COLUMNS);
    OtherRow(Customer, ck, DELIVERED_COLUMNS, ok);
    CellKept(db, a, b, calls, ok, Carried(Value(db, ok), x));
    forall i | 1 <= i <= LINES_PER_ORDER
      ensures Left(db, b.cells, LineRowKey(x, i), Dated(Value(db, LineRowKey(x, i)), x)) {
      OtherRow(Customer, ck, DELIVERED_COLUMNS, LineRowKey(x, i));
      CellKept(db, a, b, calls, LineRowKey(x, i), Dated(Value(db, LineRowKey(x, i)), x));
    }
  }

  lemma DeliverWriteLeaves(db: Db, a: Adapter, x: DeliverArgs, n: DeliverRow)
    requires a.Real? && DeliverFresh(db, a.cells, x)
    ensures var b := DeliverWrite(a, x, n);
      b.Real? && RowKey(NewOrder, OrderKey(x.w, x.d, x.o)) in b.deleted && RowsLeft(db, b.cells, x) &&
        CustomerLeft(db, b.cells, x, n)
  {
    DeliverTypes();
    hide KeyFits, MakeKey, Types, ParseKey, Update, DeleteRow, MarkLines, Value, Called, Writes, DeliverFresh,
      RowsLeft, CustomerLeft, Untouched;
    var k, ck := OrderKey(x.w, x.d, x.o), CustomerKey(x.w, x.d, x.c);
    var a3 := MarkLines(Update(DeleteRow(a, NewOrder, k).0, Order, k, [O_CARRIER_ID], [IntS(1, x.carrier)]).0, x,
      LINES_PER_ORDER);
    DeliverRows(db, a, x);
    CustomerUpdated(db, a3, x, n);
    UpdateCalled(a3, Customer, ck, DELIVERED_COLUMNS, DeliveredValues(n));
    RowsKept(db, a3, DeliverWrite(a, x, n), x);
  }

  /** The order of a delivery: no new order any more, the carrier on the order and the date on
      its lines 1 to 10, where they are there. */
  ghost predicate Delivered(db: Db, db': Db, x: DeliverArgs) {
    var k := OrderKey(x.w, x.d, x.o);
    && RowKey(NewOrder, k) !in db'
    && Value(db', RowKey(Order, k)) ==
      (if Value(db, RowKey(Order, k)) == [] then [] else Carried(Value(db, RowKey(Order, k)), x))
    && forall i :: 1 <= i <= LINES_PER_ORDER ==>
         Value(db', LineRowKey(x, i)) == if Value(db, LineRowKey(x, i)) == [] then []
           else Dated(Value(db, LineRowKey(x, i)), x)
  }

  /** The customer, if there is one, is charged with the amounts of lines 1 to 10, and counted. */
  ghost predicate Charged(db: Db, db': Db, x: DeliverArgs) {
    var ck := CustomerKey(x.w, x.d, x.c);
    && (Value(db, DeliveredKey(x, 0)) != [] ==>
          IntValue(db', Customer, ck, C_BALANCE) ==
            Wrap(8, IntValue(db, Customer, ck, C_BALANCE) + Total(db, x, LINES_PER_ORDER)))
    && (Value(db, DeliveredKey(x, 1)) != [] ==>
          IntValue(db', Customer, ck, C_DELIVERY_CNT) == Wrap(2, IntValue(db, Customer, ck, C_DELIVERY_CNT) + 1))
  }

  /** What a delivery computes from the database, and that this is in its key list. */
  ghost predicate DeliverWrote(db: Db, txn: Txn, x: DeliverArgs, n: DeliverRow) {
    && n.balance == Wrap(8, IntValue(db, Customer, CustomerKey(x.w, x.d, x.c), C_BALANCE) +
      Total(db, x, LINES_PER_ORDER))
    && n.deliveryCnt == Wrap(2, IntValue(db, Customer, CustomerKey(x.w, x.d, x.c), C_DELIVERY_CNT) + 1)
    && RunTxn(db, txn).1 && Final(db, txn).Real? && RowKey(NewOrder, OrderKey(x.w, x.d, x.o)) in Final(db, txn).deleted
    && RowsLeft(db, Final(db, txn).cells, x) && CustomerLeft(db, Final(db, txn).cells, x, n)
  }

  lemma DeliverRuns(db: Db, x: DeliverArgs) returns (n: DeliverRow)
    requires Whole(db)
    ensures DeliverWrote(db, DeliverTxn(x), x, n)
  {
    hide KeyFits, MakeKey, DeliverRead, DeliverWrite, DeclaredKeys, Load, IntValue, Whole, Wrap, Total, RowsLeft,
      CustomerLeft, DeliverFresh;
    var (a, row) := DeliverRead(Real(Load(db, DeclaredKeys(DeliverTxn(x))), [], []), x);
    DeliverReadMeaning(db, x);
    n := DeliverCompute(row);
    DeliverStartsFresh(db, x);
    DeliverWriteLeaves(db, a, x, n);
  }

  /** A delivery always commits, and this is what it leaves. */
  lemma DeliverBytes(db: Db, x: DeliverArgs)
    requires Whole(db)
    ensures RunTxn(db, DeliverTxn(x)).1
    ensures Delivered(db, RunTxn(db, DeliverTxn(x)).0, x) && Charged(db, RunTxn(db, DeliverTxn(x)).0, x)
  {
    hide RunTxn, Final, Whole, RowsLeft, CustomerLeft, Delivered, Charged, KeyFits, MakeKey, Total, Wrap, IntValue;
    var n := DeliverRuns(db, x);
    RowsDelivered(db, DeliverTxn(x), x);
    CustomerCharged(db, DeliverTxn(x), x, n);
  }

  lemma RowsDelivered(db: Db, txn: Txn, x: DeliverArgs)
    requires RunTxn(db, txn).1 && Final(db, txn).Real? && RowsLeft(db, Final(db, txn).cells, x)
    requires RowKey(NewOrder, OrderKey(x.w, x.d, x.o)) in Final(db, txn).deleted
    ensures Delivered(db, RunTxn(db, txn).0, x)
  {
    hide KeyFits, MakeKey, RunTxn, Final, Value, UpdateRow, Wrote;
    var ok := RowKey(Order, OrderKey(x.w, x.d, x.o));
    DeletedIsGone(db, txn, RowKey(NewOrder, OrderKey(x.w, x.d, x.o)));
    WroteIsValue(db, txn, ok, if Value(db, ok) == [] then [] else Carried(Value(db, ok), x));
    forall i | 1 <= i <= LINES_PER_ORDER
      ensures Value(RunTxn(db, txn).0, LineRowKey(x, i)) == if Value(db, LineRowKey(x, i)) == [] then []
        else Dated(Value(db, LineRowKey(x, i)), x)
    {
      assert Left(db, Final(db, txn).cells, LineRowKey(x, i), Dated(Value(db, LineRowKey(x, i)), x));
      WroteIsValue(db, txn, LineRowKey(x, i), if Value(db, LineRowKey(x, i)) == [] then []
        else Dated(Value(db, LineRowKey(x, i)), x));
    }
  }

  lemma DeletedIsGone(db: Db, txn: Txn, k: Bytes)
    requires RunTxn(db, txn).1 && Final(db, txn).Real? && k in Final(db, txn).deleted
    ensures k !in RunTxn(db, txn).0
  {
    hide Executed, DeclaredKeys, Load;
  }

  lemma CustomerCharged(db: Db, txn: Txn, x: DeliverArgs, n: DeliverRow)
    requires DeliverWrote(db, txn, x, n)
    ensures Charged(db, RunTxn(db, txn).0, x)
  {
    hide KeyFits, MakeKey, RunTxn, Final, Value, Wrote, EncodeInt, DecodeInt, Wrap, Fits, Total, RowsLeft;
    WroteIsValue(db, txn, DeliveredKey(x, 0), if Value(db, DeliveredKey(x, 0)) == [] then []
      else EncodeInt(8, n.balance));
    WroteIsValue(db, txn, DeliveredKey(x, 1), if Value(db, DeliveredKey(x, 1)) == [] then []
      else EncodeInt(2, n.deliveryCnt));
    DecodeEncode(8, n.balance);
    DecodeEncode(2, n.deliveryCnt);
  }
}
