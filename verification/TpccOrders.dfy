/** A new order and the delivery of that order, one after the other, and what repeated stock rows
    and line numbers do to them. */
module TpccOrders {
  import opened Prelude
  import opened TpccCodec
  import opened TpccRows
  import opened TpccAdapters
  import opened TpccTables
  import opened TpccTxns
  import opened TpccRuns
  import opened TpccEffects

  // ---------------------------------------------------------------------
  // The lines that a delivery reaches
  // ---------------------------------------------------------------------

  /** The workload numbers the lines of an order from 0 (workload/tpcc.cpp:247-248), the loader and
      the delivery from 1. */
  predicate Reached(j: I8) {
    1 <= j <= LINES_PER_ORDER
  }

  function LineAt(y: DeliverArgs, j: I8): Bytes {
    hide KeyFits;
    RowKey(OrderLine, OrderLineKey(y.w, y.d, y.o, j))
  }

  lemma SmallFits(n: nat)
    requires n < 128
    ensures Fits(1, n) && LineNumber(n) == n
  {
    WrapFits(1, n);
  }

  lemma LineAtIs(y: DeliverArgs, n: nat)
    requires n < 128
    ensures Fits(1, n) && LineAt(y, n) == LineRowKey(y, n)
  {
    SmallFits(n);
    hide KeyFits, MakeKey, LineNumber;
  }

  lemma LinesApart(y: DeliverArgs, i: I8, j: I8)
    ensures LineAt(y, i) == LineAt(y, j) <==> i == j
  {
    hide KeyFits, MakeKey, ParseKey;
    var a, b := OrderLineKey(y.w, y.d, y.o, i), OrderLineKey(y.w, y.d, y.o, j);
    assert ParseKey(LineAt(y, i)) == Some(Loc(OrderLine, a, 0)) && ParseKey(LineAt(y, j)) == Some(Loc(OrderLine, b, 0));
    assert a[3] == i && b[3] == j;
  }

  lemma {:induction false} ColumnReadsAre(t: Table, pkey: seq<int>, cols: seq<nat>, c: Call)
    requires Access(t, pkey, cols) && c in ColumnReads(t, pkey, cols)
    ensures ParseKey(c.key).Some? && ParseKey(c.key).value.table == t
  {
    hide KeyFits, Types, NumColumns, PKeySize, MakeKey, ParseKey;
    if c in ColumnReads(t, pkey, cols[..|cols| - 1]) { ColumnReadsAre(t, pkey, cols[..|cols| - 1], c); }
  }

  lemma ReadsAre(t: Table, pkey: seq<int>, cols: seq<nat>, c: Call)
    requires Access(t, pkey, cols) && c in Reads(t, pkey, cols)
    ensures ParseKey(c.key).Some? && ParseKey(c.key).value.table == t
  {
    hide KeyFits, MakeKey, ParseKey, ColumnReads;
    if !Grouped(t) { ColumnReadsAre(t, pkey, Chosen(t, cols), c); }
  }

  lemma {:induction false} SumReadsAre(y: DeliverArgs, n: nat, c: Call, j: I8)
    requires c in SumReads(y, n) && n <= LINES_PER_ORDER && c.key == LineAt(y, j)
    ensures Reached(j)
  {
    hide KeyFits, MakeKey, LineNumber, Reads, Types, LineAt, LineRowKey;
    if c in SumReads(y, n - 1) {
      SumReadsAre(y, n - 1, c, j);
    } else {
      LineRead(y, n, c);
      LineAtIs(y, n);
      LinesApart(y, n, j);
    }
  }

  lemma LineRead(y: DeliverArgs, n: nat, c: Call)
    requires c in SumReads(y, n) && (n > 0 ==> c !in SumReads(y, n - 1))
    ensures n > 0 && c.key == LineRowKey(y, n)
  {
    hide KeyFits, MakeKey, LineNumber, Reads, Types;
    RowReads(OrderLine, DeliverLineKey(y, n), [OL_AMOUNT], c);
  }

  lemma {:induction false} MarkWritesReach(y: DeliverArgs, n: nat, c: Call, j: I8)
    requires c in MarkWrites(y, n) && n <= LINES_PER_ORDER && c.key == LineAt(y, j)
    ensures Reached(j)
  {
    hide KeyFits, MakeKey, LineNumber, Writes, Types, LineAt, LineRowKey;
    if c in MarkWrites(y, n - 1) {
      MarkWritesReach(y, n - 1, c, j);
    } else {
      LineWritten(y, n, c);
      LineAtIs(y, n);
      LinesApart(y, n, j);
    }
  }

  lemma LineWritten(y: DeliverArgs, n: nat, c: Call)
    requires c in MarkWrites(y, n) && (n > 0 ==> c !in MarkWrites(y, n - 1))
    ensures n > 0 && c.key == LineRowKey(y, n)
  {
    hide KeyFits, MakeKey, LineNumber, Writes, Types;
    RowWrites(OrderLine, DeliverLineKey(y, n), [OL_DELIVERY_D], c);
  }

  lemma CallReaches(y: DeliverArgs, c: Call, j: I8)
    requires (c in ReadCalls(DeliverTxn(y)) || c in WriteCalls(DeliverTxn(y))) && c.key == LineAt(y, j)
    ensures Reached(j)
  {
    hide KeyFits, MakeKey, Types, ParseKey, Reads, Writes, SumReads, MarkWrites;
    var k, ck := OrderKey(y.w, y.d, y.o), CustomerKey(y.w, y.d, y.c);
    assert ParseKey(LineAt(y, j)).Some? && ParseKey(LineAt(y, j)).value.table == OrderLine;
    if c in SumReads(y, LINES_PER_ORDER) { SumReadsAre(y, LINES_PER_ORDER, c, j); }
    else if c in MarkWrites(y, LINES_PER_ORDER) { MarkWritesReach(y, LINES_PER_ORDER, c, j); }
    else if c in Reads(Order, k, [O_C_ID]) { ReadsAre(Order, k, [O_C_ID], c); }
    else if c in Reads(Customer, ck, DELIVERED_COLUMNS) { ReadsAre(Customer, ck, DELIVERED_COLUMNS, c); }
    else if c in Writes(NewOrder, k, []) { WritesAre(NewOrder, k, [], c); }
    else if c in Writes(Order, k, [O_CARRIER_ID]) { WritesAre(Order, k, [O_CARRIER_ID], c); }
    else { WritesAre(Customer, ck, DELIVERED_COLUMNS, c); }
  }

  /** A delivery asks for a line of its order exactly if the number of the line is 1 to 10. */
  lemma DeliveryTouchesIff(y: DeliverArgs, j: I8)
    ensures (exists c ::
      (c in ReadCalls(DeliverTxn(y)) || c in WriteCalls(DeliverTxn(y))) && c.key == LineAt(y, j)) <==> Reached(j)
  {
    hide ReadCalls, WriteCalls, LineAt, LineRowKey;
    if c :| (c in ReadCalls(DeliverTxn(y)) || c in WriteCalls(DeliverTxn(y))) && c.key == LineAt(y, j) {
      CallReaches(y, c, j);
    }
    if Reached(j) {
      LineAtIs(y, j);
      DeliveryMarks(y, j);
      assert Call(LineRowKey(y, j), true).key == LineAt(y, j);
    }
  }

  lemma DeliveryMarks(y: DeliverArgs, n: nat)
    requires 1 <= n <= LINES_PER_ORDER
    ensures Call(LineRowKey(y, n), true) in WriteCalls(DeliverTxn(y))
  {
    hide MarkWrites, LineRowKey, Writes;
    MarkWritesHave(y, LINES_PER_ORDER, n);
  }

  // ---------------------------------------------------------------------
  // An order and its delivery
  // ---------------------------------------------------------------------

  predicate SameOrder(x: NewOrderArgs, y: DeliverArgs) {
    x.w == y.w && x.d == y.d && x.o == y.o
  }

  /** The database after a new order and a delivery. */
  function Both(db: Db, x: NewOrderArgs, y: DeliverArgs): Db {
    RunTxn(RunTxn(db, NewOrderTxn(x)).0, DeliverTxn(y)).0
  }

  /** An order line with this date of delivery; 0 stands for none. */
  function DatedLine(l: Line, r: LineRow, date: I64): seq<Scalar> {
    OrderLineRow(l, r)[OL_DELIVERY_D - 4 := IntS(8, date)]
  }

  lemma LineColumns()
    ensures PKeySize(OrderLine) == 4 && NumColumns(OrderLine) == 10 &&
      RowTypes(OrderLine) == [Int(4), Int(4), Int(8), Int(1), Int(4), Text(24)]
    ensures Types(OrderLine)[OL_DELIVERY_D] == Int(8) && Types(OrderLine)[OL_AMOUNT] == Int(4)
  {
    NewOrderTypes();
  }

  lemma DatedIs(l: Line, r: LineRow, y: DeliverArgs)
    requires r.distWidth == 24
    ensures Dated(EncodeRow(OrderLineRow(l, r)), y) == EncodeRow(DatedLine(l, r, y.datetime))
    ensures EncodeRow(DatedLine(l, r, 0)) == EncodeRow(OrderLineRow(l, r))
  {
    LineColumns();
    hide EncodeRow, UpdateRow, Types, RowTypes, PKeySize, NumColumns;
    var cols: seq<nat>, values := [OL_DELIVERY_D], [IntS(8, y.datetime)];
    UpdateIsReencode(OrderLine, OrderLineRow(l, r), cols, values);
    assert cols[..0] == [] && values[..0] == [];
    assert DatedLine(l, r, 0) == OrderLineRow(l, r);
  }

  lemma RowThere(l: Line, r: LineRow)
    ensures EncodeRow(OrderLineRow(l, r)) != []
  {
    var row := OrderLineRow(l, r);
    assert EncodeRow(row) == EncodeRow(row[..5]) + ScalarBytes(row[5]);
    assert row[..5][..4] == row[..4];
    assert |EncodeRow(row[..5])| == |EncodeRow(row[..4])| + 4;
  }

  lemma SameLine(x: NewOrderArgs, y: DeliverArgs, l: Line)
    requires SameOrder(x, y)
    ensures LineKey(x, l) == LineAt(y, l.id)
  {
    hide KeyFits, MakeKey;
  }

  /** What a delivery does to one line of its order, whatever its number. */
  lemma DeliveredLine(db: Db, y: DeliverArgs, j: I8)
    requires Whole(db)
    ensures var row, k := Value(db, LineAt(y, j)), LineAt(y, j);
      Value(RunTxn(db, DeliverTxn(y)).0, k) == if Reached(j) && row != [] then Dated(row, y) else row
  {
    hide RunTxn, Whole, LineAt, LineRowKey, Dated, Charged, Value, WriteCalls;
    if Reached(j) {
      LineAtIs(y, j);
      DeliverBytes(db, y);
    } else {
      if Call(LineAt(y, j), true) in WriteCalls(DeliverTxn(y)) { CallReaches(y, Call(LineAt(y, j), true), j); }
      RunFrame(db, DeliverTxn(y), LineAt(y, j));
    }
  }

  ghost predicate LineEnds(db: Db, x: NewOrderArgs, y: DeliverArgs, n: NewOrderRow, i: nat)
    requires i < |x.lines| == |n.lines|
  {
    var l := x.lines[i];
    Value(Both(db, x, y), LineKey(x, l)) == EncodeRow(DatedLine(l, n.lines[i], if Reached(l.id) then y.datetime else 0))
  }

  /** Every line that a committed order leaves is dated by the delivery of the order exactly if
      its number is 1 to 10, and stays as it is otherwise. */
  lemma DeliveredOrder(db: Db, x: NewOrderArgs, y: DeliverArgs) returns (n: NewOrderRow)
    requires Whole(db) && RunTxn(db, NewOrderTxn(x)).1 && SameOrder(x, y)
    ensures Computed(db, x, n) && |n.lines| == |x.lines|
    ensures forall i :: 0 <= i < |x.lines| && LastForId(x, |x.lines|, i) ==> LineEnds(db, x, y, n, i)
  {
    hide RunTxn, Whole, LineAt, LineKey, Dated, DatedLine, Value, OrderLeft, EncodeRow, OrderLineRow, LastForId,
      LastForStock, StockKey, Restocked;
    hide IntValue, Wrap, Price, Quantity, DistInfo, Adjusted;
    n := NewOrderBytes(db, x);
    StaysWhole(db, NewOrderTxn(x));
    forall i | 0 <= i < |x.lines| && LastForId(x, |x.lines|, i) ensures LineEnds(db, x, y, n, i) {
      var l := x.lines[i];
      assert LineLeft(db, RunTxn(db, NewOrderTxn(x)).0, x, n, i);
      SameLine(x, y, l);
      DeliveredLine(RunTxn(db, NewOrderTxn(x)).0, y, l.id);
      DatedIs(l, n.lines[i], y);
      RowThere(l, n.lines[i]);
    }
  }

  predicate DistinctIds(x: NewOrderArgs) {
    forall i, j :: 0 <= i < j < |x.lines| ==> x.lines[i].id != x.lines[j].id
  }

  /** The date of delivery that the database holds for a line. */
  function DateOf(db: Db, x: NewOrderArgs, l: Line): int {
    hide KeyFits;
    IntOf(Column(db, OrderLine, OrderLineKey(x.w, x.d, x.o, l.id), OL_DELIVERY_D))
  }

  lemma LineTyped(l: Line, r: LineRow, date: I64)
    requires r.distWidth == 24 && |r.dist| == 24 && Fits(4, r.amount)
    ensures AllWellTyped(RowTypes(OrderLine), DatedLine(l, r, date))
  {
    LineColumns();
    hide Types, RowTypes, Fits;
    var types, row := RowTypes(OrderLine), DatedLine(l, r, date);
    assert Fits(8, 0) by { ZeroFits(); }
    assert WellTyped(types[0], row[0]) && WellTyped(types[1], row[1]) && WellTyped(types[2], row[2]);
    assert WellTyped(types[3], row[3]) && WellTyped(types[4], row[4]) && WellTyped(types[5], row[5]);
  }

  lemma ZeroFits()
    ensures Fits(8, 0)
  {
  }

  lemma StoredDate(db: Db, x: NewOrderArgs, l: Line, r: LineRow, date: I64)
    requires Value(db, LineKey(x, l)) == EncodeRow(DatedLine(l, r, date))
    requires r.distWidth == 24 && |r.dist| == 24 && Fits(4, r.amount)
    ensures DateOf(db, x, l) == date
  {
    LineColumns();
    LineTyped(l, r, date);
    hide KeyFits, MakeKey, Types, RowTypes, PKeySize, NumColumns, EncodeRow, ColumnAt, Offset, Value, WellTyped, Fits;
    RowRoundTrip(RowTypes(OrderLine), DatedLine(l, r, date), OL_DELIVERY_D - 4);
  }

  lemma AmountFits(l: Line, price: int)
    ensures Fits(4, Wrap(4, l.quantity * price))
  {
    hide Wrap, Fits;
  }

  lemma {:induction false} LastIdExists(x: NewOrderArgs, i: nat) returns (j: nat)
    requires i < |x.lines|
    ensures i <= j < |x.lines| && x.lines[j].id == x.lines[i].id && LastForId(x, |x.lines|, j)
    decreases |x.lines| - i
  {
    if k :| i < k < |x.lines| && x.lines[i].id == x.lines[k].id {
      j := LastIdExists(x, k);
    } else {
      j := i;
    }
  }

  lemma SameDate(db: Db, x: NewOrderArgs, l: Line, m: Line)
    requires l.id == m.id
    ensures DateOf(db, x, l) == DateOf(db, x, m)
  {
  }

  /** A delivery with a date dates all lines of the order exactly if all are numbered 1 to 10. */
  lemma AllDatedIff(db: Db, x: NewOrderArgs, y: DeliverArgs)
    requires Whole(db) && RunTxn(db, NewOrderTxn(x)).1 && SameOrder(x, y) && y.datetime != 0
    ensures forall l :: l in x.lines ==> DateOf(Both(db, x, y), x, l) == if Reached(l.id) then y.datetime else 0
    ensures (forall l :: l in x.lines ==> DateOf(Both(db, x, y), x, l) == y.datetime) <==>
      forall l :: l in x.lines ==> Reached(l.id)
  {
    hide RunTxn, Whole, LineKey, DatedLine, Value, EncodeRow, DateOf, Both, Wrap, Price, Quantity, IntValue, Adjusted,
      Fits, Reached, LastForId;
    var n := DeliveredOrder(db, x, y);
    forall l | l in x.lines ensures DateOf(Both(db, x, y), x, l) == if Reached(l.id) then y.datetime else 0 {
      var i :| 0 <= i < |x.lines| && x.lines[i] == l;
      var j := LastIdExists(x, i);
      var m := x.lines[j];
      AmountFits(m, Price(db, x, m));
      ZeroFits();
      assert LineEnds(db, x, y, n, j);
      StoredDate(Both(db, x, y), x, m, n.lines[j], if Reached(m.id) then y.datetime else 0);
      SameDate(Both(db, x, y), x, l, m);
    }
  }

  /** The orders of the workload are numbered 0 to 9: line 0 is never delivered. */
  lemma WorkloadLineMissed(db: Db, x: NewOrderArgs, y: DeliverArgs)
    requires Whole(db) && RunTxn(db, NewOrderTxn(x)).1 && SameOrder(x, y) && y.datetime != 0
    requires |x.lines| == LINES_PER_ORDER && forall i :: 0 <= i < |x.lines| ==> x.lines[i].id == i
    ensures DateOf(Both(db, x, y), x, x.lines[0]) == 0
    ensures forall i :: 1 <= i < |x.lines| ==> DateOf(Both(db, x, y), x, x.lines[i]) == y.datetime
  {
    hide RunTxn, Whole, DateOf, Both;
    AllDatedIff(db, x, y);
  }

  // ---------------------------------------------------------------------
  // What the customer is charged
  // ---------------------------------------------------------------------

  /** The amounts of those of the first m lines that are numbered 1 to j. */
  function Billed(x: NewOrderArgs, n: NewOrderRow, m: nat, j: nat): int
    requires m <= |x.lines| == |n.lines|
  {
    if m == 0 then 0 else Billed(x, n, m - 1, j) + if 1 <= x.lines[m - 1].id <= j then n.lines[m - 1].amount else 0
  }

  /** The amount of the line numbered j among them, if there is one. */
  function AmountAt(x: NewOrderArgs, n: NewOrderRow, m: nat, j: nat): int
    requires m <= |x.lines| == |n.lines|
  {
    if m == 0 then 0 else AmountAt(x, n, m - 1, j) + if x.lines[m - 1].id == j then n.lines[m - 1].amount else 0
  }

  lemma {:induction false} BilledStep(x: NewOrderArgs, n: NewOrderRow, m: nat, j: nat)
    requires m <= |x.lines| == |n.lines| && j > 0
    ensures Billed(x, n, m, j) == Billed(x, n, m, j - 1) + AmountAt(x, n, m, j)
  {
    if m > 0 { BilledStep(x, n, m - 1, j); }
  }

  lemma {:induction false} BilledNone(x: NewOrderArgs, n: NewOrderRow, m: nat)
    requires m <= |x.lines| == |n.lines|
    ensures Billed(x, n, m, 0) == 0
  {
    if m > 0 { BilledNone(x, n, m - 1); }
  }

  lemma {:induction false} AmountIs(x: NewOrderArgs, n: NewOrderRow, m: nat, j: nat, i: nat)
    requires m <= |x.lines| == |n.lines| && DistinctIds(x)
    ensures i < m && x.lines[i].id == j ==> AmountAt(x, n, m, j) == n.lines[i].amount
    ensures (forall k :: 0 <= k < m ==> x.lines[k].id != j) ==> AmountAt(x, n, m, j) == 0
  {
    if m > 0 { AmountIs(x, n, m - 1, j, i); }
  }

  lemma StoredAmount(db: Db, y: DeliverArgs, l: Line, r: LineRow)
    requires Value(db, LineAt(y, l.id)) == EncodeRow(OrderLineRow(l, r)) && r.distWidth == 24 && |r.dist| == 24 &&
      Fits(4, r.amount)
    ensures IntOf(Column(db, OrderLine, OrderLineKey(y.w, y.d, y.o, l.id), OL_AMOUNT)) == r.amount
  {
    LineColumns();
    ZeroFits();
    LineTyped(l, r, 0);
    assert DatedLine(l, r, 0) == OrderLineRow(l, r);
    hide KeyFits, MakeKey, Types, RowTypes, PKeySize, NumColumns, EncodeRow, ColumnAt, Offset, Value, WellTyped, Fits;
    RowRoundTrip(RowTypes(OrderLine), OrderLineRow(l, r), OL_AMOUNT - 4);
  }

  /** Where there is no row the code reads zeros. */
  lemma NoAmount(db: Db, pkey: seq<int>)
    requires KeyFits(OrderLine, pkey) && Value(db, RowKey(OrderLine, pkey)) == []
    ensures IntOf(Column(db, OrderLine, pkey, OL_AMOUNT)) == 0
  {
    LineColumns();
    hide KeyFits, MakeKey, Types, Value, ColumnOffset;
    assert Window(Window([], ColumnOffset(OrderLine, OL_AMOUNT), 4), 0, 4) == [0, 0, 0, 0];
    DecodeEncode(4, 0);
    assert EncodeInt(4, 0) == [0, 0, 0, 0];
  }

  lemma {:induction false} LineWritesIds(x: NewOrderArgs, y: DeliverArgs, m: nat, j: I8)
    requires SameOrder(x, y) && m <= |x.lines| && Call(LineAt(y, j), true) in LineWrites(x, m)
    ensures exists l :: l in x.lines && l.id == j
  {
    hide KeyFits, Types, Writes, MakeKey, LineAt, LineKey, StockKey, ItemKey, OrderLineKey;
    var l, c := x.lines[m - 1], Call(LineAt(y, j), true);
    assert l in x.lines;
    if c in LineWrites(x, m - 1) {
      LineWritesIds(x, y, m - 1, j);
    } else {
      LineCallsHere(x, l, c);
      SameLine(x, y, l);
      SameLine(x, y, l.(id := j));
      KeysApart(x, l, l.(id := j));
    }
  }

  /** A new order leaves lines with other numbers alone. */
  lemma OtherLinesKept(db: Db, x: NewOrderArgs, y: DeliverArgs, j: I8)
    requires SameOrder(x, y) && forall l :: l in x.lines ==> l.id != j
    ensures Value(RunTxn(db, NewOrderTxn(x)).0, LineAt(y, j)) == Value(db, LineAt(y, j))
  {
    hide KeyFits, Types, Writes, MakeKey, ParseKey, LineWrites, RunTxn, Value;
    var k, c := OrderKey(x.w, x.d, x.o), Call(LineAt(y, j), true);
    assert ParseKey(c.key).Some? && ParseKey(c.key).value.table == OrderLine;
    if c in WriteCalls(NewOrderTxn(x)) {
      if c in LineWrites(x, |x.lines|) { LineWritesIds(x, y, |x.lines|, j); }
      else if c in Writes(District, DistrictKey(x.w, x.d),
        [D_NEXT_O_ID]) { WritesAre(District, DistrictKey(x.w, x.d), [D_NEXT_O_ID], c); }
      else if c in Writes(Order, k, []) { WritesAre(Order, k, [], c); }
      else { WritesAre(NewOrder, k, [], c); }
    }
    RunFrame(db, NewOrderTxn(x), LineAt(y, j));
  }

  /** The order has no lines but its own among those that a delivery reaches. */
  ghost predicate NoOtherLines(db: Db, x: NewOrderArgs, y: DeliverArgs) {
    forall j: I8 :: Reached(j) && (forall l :: l in x.lines ==> l.id != j) ==> Value(db, LineAt(y, j)) == []
  }

  /** The lines as a new order leaves them. */
  ghost predicate LinesStored(db: Db, x: NewOrderArgs, y: DeliverArgs, n: NewOrderRow) {
    && |n.lines| == |x.lines|
    && (forall i :: 0 <= i < |x.lines| ==>
          && Value(db, LineAt(y, x.lines[i].id)) == EncodeRow(OrderLineRow(x.lines[i], n.lines[i]))
          && n.lines[i].distWidth == 24 && |n.lines[i].dist| == 24 && Fits(4, n.lines[i].amount))
  }

  lemma NewOrderStores(db: Db, x: NewOrderArgs, y: DeliverArgs, n: NewOrderRow)
    requires |n.lines| == |x.lines| && Computed(db, x, n) && SameOrder(x, y) && DistinctIds(x)
    requires forall i :: 0 <= i < |x.lines| ==> LineLeft(db, RunTxn(db, NewOrderTxn(x)).0, x, n, i)
    ensures LinesStored(RunTxn(db, NewOrderTxn(x)).0, x, y, n)
  {
    hide RunTxn, LineAt, LineKey, Value, EncodeRow, OrderLineRow, StockKey, Restocked, Fits, Wrap, Price, Quantity,
      IntValue, Adjusted, LastForStock;
    forall i | 0 <= i < |x.lines|
      ensures Value(RunTxn(db, NewOrderTxn(x)).0, LineAt(y, x.lines[i].id)) ==
        EncodeRow(OrderLineRow(x.lines[i], n.lines[i]))
      ensures n.lines[i].distWidth == 24 && |n.lines[i].dist| == 24 && Fits(4, n.lines[i].amount)
    {
      assert LineLeft(db, RunTxn(db, NewOrderTxn(x)).0, x, n, i);
      assert LastForId(x, |x.lines|, i);
      SameLine(x, y, x.lines[i]);
      AmountFits(x.lines[i], Price(db, x, x.lines[i]));
    }
  }

  lemma AmountRead(db: Db, x: NewOrderArgs, y: DeliverArgs, n: NewOrderRow, j: nat)
    requires LinesStored(db, x, y, n) && DistinctIds(x) && NoOtherLines(db, x, y) && 1 <= j <= LINES_PER_ORDER
    ensures IntOf(Column(db, OrderLine, DeliverLineKey(y, j), OL_AMOUNT)) == AmountAt(x, n, |x.lines|, j)
  {
    SmallFits(j);
    hide KeyFits, MakeKey, LineNumber, Value, EncodeRow, Column, Fits;
    var key := OrderLineKey(y.w, y.d, y.o, j);
    assert DeliverLineKey(y, j) == key;
    if i: nat :| i < |x.lines| && x.lines[i].id == j {
      StoredAmount(db, y, x.lines[i], n.lines[i]);
      AmountIs(x, n, |x.lines|, j, i);
    } else {
      assert forall l :: l in x.lines ==> l.id != j;
      assert Value(db, LineAt(y, j)) == [];
      NoAmount(db, key);
      AmountIs(x, n, |x.lines|, j, 0);
    }
  }

  lemma {:induction false} TotalIsBilled(db: Db, x: NewOrderArgs, y: DeliverArgs, n: NewOrderRow, j: nat)
    requires |x.lines| == |n.lines| && LinesStored(db, x, y, n) && DistinctIds(x) && NoOtherLines(db, x, y) &&
      j <= LINES_PER_ORDER
    ensures Total(db, y, j) == Wrap(4, Billed(x, n, |x.lines|, j))
  {
    hide DistinctIds, KeyFits, Column, Wrap, Fits, LinesStored, NoOtherLines, DeliverLineKey, Billed, AmountAt, Total;
    TotalStep(db, y, j);
    if j == 0 {
      BilledNone(x, n, |x.lines|);
    } else {
      TotalIsBilled(db, x, y, n, j - 1);
      AmountRead(db, x, y, n, j);
      BilledStep(x, n, |x.lines|, j);
      WrapAdd(4, Billed(x, n, |x.lines|, j - 1), AmountAt(x, n, |x.lines|, j));
    }
  }

  lemma TotalStep(db: Db, y: DeliverArgs, j: nat)
    ensures j == 0 ==> Total(db, y, j) == Wrap(4, 0)
    ensures j > 0 ==>
      Total(db, y, j) == Wrap(4, Total(db, y, j - 1) + IntOf(Column(db, OrderLine, DeliverLineKey(y, j), OL_AMOUNT)))
  {
    hide KeyFits, Column, LineNumber;
    if j == 0 { WrapFits(4, 0); }
  }

  /** After the order: its lines are stored, and the delivery will sum up those numbered 1 to 10. */
  lemma OrderTotals(db: Db, x: NewOrderArgs, y: DeliverArgs) returns (n: NewOrderRow)
    requires Whole(db) && RunTxn(db, NewOrderTxn(x)).1 && SameOrder(x, y) && DistinctIds(x) && NoOtherLines(db, x, y)
    ensures Computed(db, x, n) && |n.lines| == |x.lines|
    ensures Total(RunTxn(db, NewOrderTxn(x)).0, y, LINES_PER_ORDER) == Wrap(4, Billed(x, n, |x.lines|, LINES_PER_ORDER))
  {
    hide RunTxn, Whole, Wrap, Computed, OrderLeft, LineLeft, LinesStored, NoOtherLines, DistinctIds, SameOrder, Total,
      Billed;
    n := NewOrderBytes(db, x);
    NewOrderStores(db, x, y, n);
    NoOtherLinesKept(db, x, y);
    TotalIsBilled(RunTxn(db, NewOrderTxn(x)).0, x, y, n, LINES_PER_ORDER);
  }

  /** A new order leaves customers alone. */
  lemma CustomerKept(db: Db, x: NewOrderArgs, y: DeliverArgs)
    ensures Value(RunTxn(db, NewOrderTxn(x)).0, DeliveredKey(y, 0)) == Value(db, DeliveredKey(y, 0))
    ensures var ck := CustomerKey(y.w, y.d, y.c);
      IntValue(RunTxn(db, NewOrderTxn(x)).0, Customer, ck, C_BALANCE) == IntValue(db, Customer, ck, C_BALANCE)
  {
    hide KeyFits, MakeKey, RunTxn, Value, DecodeInt;
    ColumnFrame(db, NewOrderTxn(x), Customer, CustomerKey(y.w, y.d, y.c), C_BALANCE);
  }

  lemma DeliveryCharges(db: Db, y: DeliverArgs)
    requires Whole(db)
    ensures var ck := CustomerKey(y.w, y.d, y.c);
      Value(db, DeliveredKey(y, 0)) != [] ==>
        IntValue(RunTxn(db, DeliverTxn(y)).0, Customer, ck, C_BALANCE) ==
        Wrap(8, IntValue(db, Customer, ck, C_BALANCE) + Total(db, y, LINES_PER_ORDER))
  {
    hide KeyFits, MakeKey, RunTxn, Whole, Value, Wrap, Delivered, IntValue, Total;
    DeliverBytes(db, y);
  }

  /** The delivery charges the customer with the amounts of exactly the lines numbered 1 to 10.
      Where the order has no line of such a number there is no row either, and what the code then
      reads past the end of the empty value is taken to be zero: for the line numbers of the
      workload, 0 to 9, this is line 10. */
  lemma OrderCharged(db: Db, x: NewOrderArgs, y: DeliverArgs) returns (n: NewOrderRow)
    requires Whole(db) && RunTxn(db, NewOrderTxn(x)).1 && SameOrder(x, y) && DistinctIds(x) && NoOtherLines(db, x, y)
    ensures Computed(db, x, n) && |n.lines| == |x.lines|
    ensures var ck := CustomerKey(y.w, y.d, y.c);
      Value(db, DeliveredKey(y, 0)) != [] ==>
        IntValue(Both(db, x, y), Customer, ck, C_BALANCE) ==
        Wrap(8, IntValue(db, Customer, ck, C_BALANCE) + Wrap(4, Billed(x, n, |x.lines|, LINES_PER_ORDER)))
  {
    hide KeyFits, RunTxn, Whole, Value, Wrap, Computed, NoOtherLines, DistinctIds, SameOrder, Total, Billed, IntValue,
      DeliveredKey;
    n := OrderTotals(db, x, y);
    StaysWhole(db, NewOrderTxn(x));
    CustomerKept(db, x, y);
    DeliveryCharges(RunTxn(db, NewOrderTxn(x)).0, y);
  }

  lemma NoOtherLinesKept(db: Db, x: NewOrderArgs, y: DeliverArgs)
    requires NoOtherLines(db, x, y) && SameOrder(x, y)
    ensures NoOtherLines(RunTxn(db, NewOrderTxn(x)).0, x, y)
  {
    hide RunTxn, Value, LineAt, Reached;
    forall j: I8 | Reached(j) && (forall l :: l in x.lines ==> l.id != j)
      ensures Value(RunTxn(db, NewOrderTxn(x)).0, LineAt(y, j)) == []
    {
      OtherLinesKept(db, x, y, j);
    }
  }
}
