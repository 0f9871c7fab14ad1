/** What payments, new orders and deliveries leave in the columns of the database
    (execution/tpcc). Places are given by table, primary key and column. */
module TpccColumns {
  import opened Prelude
  import opened TpccCodec
  import opened TpccRows
  import opened TpccAdapters
  import opened TpccTables
  import opened TpccTxns
  import opened TpccRuns
  import opened TpccEffects
  import opened TpccOrders

  // Columns that are written but not read back
  const H_C_D_ID: nat := 4
  const H_C_W_ID: nat := 5
  const H_DATE: nat := 6
  const H_AMOUNT: nat := 7
  const NO_DUMMY: nat := 3
  const O_OL_CNT: nat := 6
  const O_ALL_LOCAL: nat := 7
  const OL_DIST_INFO: nat := 9

  /** The bytes stored for a column: a value of its own, or the row of a grouped table. */
  function Stored(db: Db, t: Table, pkey: seq<int>, c: nat): Option<Bytes> {
    if !KeyFits(t, pkey) || c >= 128 then None
    else
      var k := MakeKey(t, pkey, if Grouped(t) then 0 else c);
      if k in db && db[k] != [] then Some(db[k]) else None
  }

  /** A column outside the primary key, as the code decodes it. Where nothing is stored it reads
      zeros. */
  function At(db: Db, t: Table, pkey: seq<int>, c: nat): Option<Scalar> {
    if !KeyFits(t, pkey) || c < PKeySize(t) || NumColumns(t) <= c then None
    else if Grouped(t) then Some(Column(db, t, pkey, c))
    else Some(MakeScalar(Types(t)[c], Value(db, MakeKey(t, pkey, c))))
  }

  function NumberAt(db: Db, t: Table, pkey: seq<int>, c: nat): int {
    var s := At(db, t, pkey, c);
    if s.Some? && s.value.IntS? then s.value.value else 0
  }

  function TextOf(db: Db, t: Table, pkey: seq<int>, c: nat): Bytes {
    var s := At(db, t, pkey, c);
    if s.Some? && s.value.TextS? then s.value.buffer else []
  }

  // ---------------------------------------------------------------------
  // Columns of grouped rows
  // ---------------------------------------------------------------------

  lemma {:induction false} OffsetsApart(types: seq<Type>, i: nat, j: nat)
    requires i < j <= |types|
    ensures Offset(types, i) + types[i].width <= Offset(types, j)
  {
    if i < j - 1 { OffsetsApart(types, i, j - 1); }
  }

  lemma OverwriteElsewhere(row: Bytes, offset: nat, bytes: Bytes, from: nat, n: nat)
    requires from + n <= offset || offset + |bytes| <= from
    ensures Window(Overwrite(row, offset, bytes), from, n) == Window(row, from, n)
  {
  }

  lemma OverwriteHere(row: Bytes, offset: nat, bytes: Bytes)
    requires offset <= |row|
    ensures Window(Overwrite(row, offset, bytes), offset, |bytes|) == bytes
  {
  }

  lemma ColumnsApart(t: Table, c: nat, e: nat)
    requires PKeySize(t) <= c < NumColumns(t) && PKeySize(t) <= e < NumColumns(t) && c != e
    ensures ColumnOffset(t, e) + Types(t)[e].width <= ColumnOffset(t, c) ||
      ColumnOffset(t, c) + Types(t)[c].width <= ColumnOffset(t, e)
  {
    hide Types, PKeySize, NumColumns, RowTypes;
    RowColumns(t);
    var i, j := c - PKeySize(t), e - PKeySize(t);
    if i < j { OffsetsApart(RowTypes(t), i, j); } else { OffsetsApart(RowTypes(t), j, i); }
  }

  lemma UpdateOneIs(t: Table, row: Bytes, c: nat, v: Scalar)
    requires c < NumColumns(t)
    ensures UpdateRow(t, row, [c], [v]) == Overwrite(row, ColumnOffset(t, c), ScalarBytes(v))
  {
    hide Overwrite, ScalarBytes, ColumnOffset;
    assert [c][..0] == [] && [v][..0] == [];
  }

  lemma UpdateOneSets(t: Table, row: Bytes, c: nat, v: Scalar)
    requires PKeySize(t) <= c < NumColumns(t) && WellTyped(Types(t)[c], v) && ColumnOffset(t, c) <= |row|
    ensures var row' := UpdateRow(t, row, [c], [v]);
      |row'| >= Types(t)[c].width && ColumnAt(Types(t)[c], row', ColumnOffset(t, c)) == v
  {
    UpdateOneIs(t, row, c, v);
    hide Types, PKeySize, NumColumns, ColumnOffset, UpdateRow, MakeScalar, ScalarBytes, WellTyped, Window;
    OverwriteHere(row, ColumnOffset(t, c), ScalarBytes(v));
    ScalarRoundTrip(Types(t)[c], v);
    Sized(Types(t)[c], v);
  }

  lemma UpdateOneKeeps(t: Table, row: Bytes, c: nat, v: Scalar, e: nat)
    requires PKeySize(t) <= c < NumColumns(t) && WellTyped(Types(t)[c], v)
    requires PKeySize(t) <= e < NumColumns(t) && e != c
    ensures ColumnAt(Types(t)[e], UpdateRow(t, row, [c], [v]), ColumnOffset(t, e)) ==
      ColumnAt(Types(t)[e], row, ColumnOffset(t, e))
  {
    UpdateOneIs(t, row, c, v);
    hide Types, PKeySize, NumColumns, ColumnOffset, UpdateRow, MakeScalar, ScalarBytes, WellTyped, Window, Overwrite;
    ColumnsApart(t, c, e);
    Sized(Types(t)[c], v);
    OverwriteElsewhere(row, ColumnOffset(t, c), ScalarBytes(v), ColumnOffset(t, e), Types(t)[e].width);
  }

  lemma AtBytes(db: Db, t: Table, pkey: seq<int>, c: nat)
    requires Grouped(t) && KeyFits(t, pkey) && PKeySize(t) <= c < NumColumns(t)
    ensures At(db, t, pkey, c) == Some(ColumnAt(Types(t)[c], Value(db, RowKey(t, pkey)), ColumnOffset(t, c)))
  {
    hide Types, PKeySize, NumColumns, ColumnOffset, ColumnAt, KeyFits, MakeKey;
  }

  /** Setting a column of a row that reaches up to it sets it, and no other column. */
  lemma SetColumn(db: Db, db': Db, t: Table, pkey: seq<int>, c: nat, v: Scalar)
    requires Grouped(t) && KeyFits(t, pkey) && PKeySize(t) <= c < NumColumns(t) && WellTyped(Types(t)[c], v)
    requires Value(db', RowKey(t, pkey)) == UpdateRow(t, Value(db, RowKey(t, pkey)), [c], [v])
    ensures ColumnOffset(t, c) <= |Value(db, RowKey(t, pkey))| ==>
      At(db', t, pkey, c) == Some(v) && |Value(db', RowKey(t, pkey))| >= Types(t)[c].width
    ensures forall e :: e != c ==> At(db', t, pkey, e) == At(db, t, pkey, e)
  {
    hide Types, PKeySize, NumColumns, ColumnOffset, ColumnAt, KeyFits, RowKey, UpdateRow, Value, WellTyped;
    var row := Value(db, RowKey(t, pkey));
    forall e: nat | e != c ensures At(db', t, pkey, e) == At(db, t, pkey, e) {
      if PKeySize(t) <= e < NumColumns(t) {
        AtBytes(db, t, pkey, e);
        AtBytes(db', t, pkey, e);
        UpdateOneKeeps(t, row, c, v, e);
      }
    }
    hide At;
    AtBytes(db', t, pkey, c);
    if ColumnOffset(t, c) <= |row| { UpdateOneSets(t, row, c, v); }
  }

  lemma Sized(t: Type, v: Scalar)
    requires WellTyped(t, v)
    ensures |ScalarBytes(v)| == v.width == t.width
  {
  }

  /** The columns of a row that was stored column by column. */
  lemma StoredRow(db: Db, t: Table, pkey: seq<int>, values: seq<Scalar>, c: nat)
    requires Grouped(t) && KeyFits(t, pkey) && PKeySize(t) <= c < NumColumns(t)
    requires AllWellTyped(RowTypes(t), values) && Value(db, RowKey(t, pkey)) == EncodeRow(values)
    ensures c - PKeySize(t) < |values| && At(db, t, pkey, c) == Some(values[c - PKeySize(t)])
  {
    hide KeyFits, Types, PKeySize, NumColumns, RowTypes, EncodeRow, ColumnAt, WellTyped, MakeKey, Value, Offset;
    RowColumns(t);
    RowRoundTrip(RowTypes(t), values, c - PKeySize(t));
  }

  // ---------------------------------------------------------------------
  // Numbers of ungrouped tables
  // ---------------------------------------------------------------------

  lemma {:induction false} ZerosDecode(n: nat)
    ensures DecodeInt(Window([], 0, n)) == 0
  {
    if n > 0 {
      assert Window([], 0, n)[1..] == Window([], 0, n - 1);
      ZerosDecode(n - 1);
    }
  }

  lemma NumberIs(db: Db, t: Table, pkey: seq<int>, c: nat)
    requires !Grouped(t) && KeyFits(t, pkey) && PKeySize(t) <= c < NumColumns(t) && Types(t)[c].Int?
    requires WholeRow(db, t, pkey)
    ensures NumberAt(db, t, pkey, c) == IntValue(db, t, pkey, c)
  {
    hide KeyFits, Types, PKeySize, NumColumns, MakeKey, Value;
    var v, w := Value(db, MakeKey(t, pkey, c)), Types(t)[c].width;
    if v == [] {
      ZerosDecode(w);
    } else {
      assert Window(v, 0, w) == v;
    }
  }

  lemma NumberHere(db: Db, t: Table, pkey: seq<int>, c: nat)
    requires Whole(db) && !Grouped(t) && KeyFits(t, pkey) && PKeySize(t) <= c < NumColumns(t) && Types(t)[c].Int?
    ensures NumberAt(db, t, pkey, c) == IntValue(db, t, pkey, c)
  {
    hide KeyFits, Types, PKeySize, NumColumns, MakeKey, Value, WholeRow;
    NumberIs(db, t, pkey, c);
  }

  // ---------------------------------------------------------------------
  // Payment
  // ---------------------------------------------------------------------

  /** A committed payment moves its amount: into the year-to-date sums of the warehouse, the
      district and the customer, and out of the customer's balance. It is counted, the customer's
      data are as they were, and its history row names the customer's district and warehouse, the
      date and the amount. */
  lemma PaymentEffect(db: Db, x: PaymentArgs)
    requires Whole(db) && RunTxn(db, PaymentTxn(x)).1
    ensures var db' := RunTxn(db, PaymentTxn(x)).0; var w, d, c := [x.w], [x.w, x.d], [x.cw, x.cd, x.c];
      && NumberAt(db', Warehouse, w, W_YTD) == Wrap(8, NumberAt(db, Warehouse, w, W_YTD) + x.amount)
      && NumberAt(db', District, d, D_YTD) == Wrap(8, NumberAt(db, District, d, D_YTD) + x.amount)
      && NumberAt(db', Customer, c, C_BALANCE) == Wrap(8, NumberAt(db, Customer, c, C_BALANCE) - x.amount)
      && NumberAt(db', Customer, c, C_YTD_PAYMENT) == Wrap(8, NumberAt(db, Customer, c, C_YTD_PAYMENT) + x.amount)
      && NumberAt(db', Customer, c, C_PAYMENT_CNT) == Wrap(2, NumberAt(db, Customer, c, C_PAYMENT_CNT) + 1)
      && At(db', Customer, c, C_DATA) == At(db, Customer, c, C_DATA)
    ensures var db' := RunTxn(db, PaymentTxn(x)).0; var h := [x.w, x.d, x.c, x.h];
      && At(db', History, h, H_C_D_ID) == Some(IntS(1, x.cd)) && At(db', History, h, H_C_W_ID) == Some(IntS(4, x.cw))
      && At(db', History, h, H_DATE) == Some(IntS(8, x.datetime))
      && At(db', History, h, H_AMOUNT) == Some(IntS(4, x.amount)) && Stored(db', History, h, 0).Some?
  {
    hide KeyFits, RunTxn, Whole, Value, Wrap, NumberAt, IntValue, EncodeRow, HistoryRowKey, StoredHistory, MakeKey, At,
      Stored, MakeScalar;
    var db' := RunTxn(db, PaymentTxn(x)).0;
    StaysWhole(db, PaymentTxn(x));
    PaymentNumbers(db, x);
    PaymentNumbers(db', x);
    HistoryColumns(db, x);
    PaymentBytes(db, x);
  }

  lemma PaymentNumbers(db: Db, x: PaymentArgs)
    requires Whole(db)
    ensures NumberAt(db, Warehouse, [x.w], W_YTD) == IntValue(db, Warehouse, WarehouseKey(x.w), W_YTD)
    ensures NumberAt(db, District, [x.w, x.d], D_YTD) == IntValue(db, District, DistrictKey(x.w, x.d), D_YTD)
    ensures var k := CustomerKey(x.cw, x.cd, x.c);
      && NumberAt(db, Customer, [x.cw, x.cd, x.c], C_BALANCE) == IntValue(db, Customer, k, C_BALANCE)
      && NumberAt(db, Customer, [x.cw, x.cd, x.c], C_YTD_PAYMENT) == IntValue(db, Customer, k, C_YTD_PAYMENT)
      && NumberAt(db, Customer, [x.cw, x.cd, x.c], C_PAYMENT_CNT) == IntValue(db, Customer, k, C_PAYMENT_CNT)
      && At(db, Customer, [x.cw, x.cd, x.c], C_DATA) ==
        Some(MakeScalar(Text(250), Value(db, CustomerColumn(x, C_DATA))))
  {
    PaymentTypes();
    hide KeyFits, Types, MakeKey, Value, Whole, IntValue, MakeScalar;
    NumberHere(db, Warehouse, WarehouseKey(x.w), W_YTD);
    NumberHere(db, District, DistrictKey(x.w, x.d), D_YTD);
    NumberHere(db, Customer, CustomerKey(x.cw, x.cd, x.c), C_BALANCE);
    NumberHere(db, Customer, CustomerKey(x.cw, x.cd, x.c), C_YTD_PAYMENT);
    NumberHere(db, Customer, CustomerKey(x.cw, x.cd, x.c), C_PAYMENT_CNT);
  }

  /** The four columns before the text, which is not stored. */
  lemma HistoryColumns(db: Db, x: PaymentArgs)
    requires Whole(db) && RunTxn(db, PaymentTxn(x)).1
    ensures var db', h := RunTxn(db, PaymentTxn(x)).0, [x.w, x.d, x.c, x.h];
      && At(db', History, h, H_C_D_ID) == Some(IntS(1, x.cd)) && At(db', History, h, H_C_W_ID) == Some(IntS(4, x.cw))
      && At(db', History, h, H_DATE) == Some(IntS(8, x.datetime))
      && At(db', History, h, H_AMOUNT) == Some(IntS(4, x.amount)) && Stored(db', History, h, 0).Some?
  {
    var db' := RunTxn(db, PaymentTxn(x)).0;
    hide RunTxn, Whole;
    HistoryStored(db, x);
    forall i | 0 <= i < 4 ensures At(db', History, [x.w, x.d, x.c, x.h], H_C_D_ID + i) == Some(StoredHistory(x)[i]) {
      HistoryColumn(db', x, i);
    }
    hide At, Stored;
    assert At(db', History, [x.w, x.d, x.c, x.h], H_C_D_ID + 0) == Some(StoredHistory(x)[0]);
    assert At(db', History, [x.w, x.d, x.c, x.h], H_C_D_ID + 1) == Some(StoredHistory(x)[1]);
    assert At(db', History, [x.w, x.d, x.c, x.h], H_C_D_ID + 2) == Some(StoredHistory(x)[2]);
    assert At(db', History, [x.w, x.d, x.c, x.h], H_C_D_ID + 3) == Some(StoredHistory(x)[3]);
  }

  lemma HistoryStored(db: Db, x: PaymentArgs)
    requires Whole(db) && RunTxn(db, PaymentTxn(x)).1
    ensures var db' := RunTxn(db, PaymentTxn(x)).0;
      Value(db', HistoryRowKey(x)) == EncodeRow(StoredHistory(x)) && Stored(db', History, [x.w, x.d, x.c, x.h], 0).Some?
  {
    hide KeyFits, RunTxn, Whole, Wrap, IntValue, EncodeRow, StoredHistory, MakeKey;
    PaymentBytes(db, x);
    HistoryLength(x, PaymentRow(0, 0, 0, 0, 0, 0, [], [], []));
    HistoryWidth();
  }

  lemma {:induction false} OffsetOfPrefix(types: seq<Type>, m: nat, i: nat)
    requires i <= m <= |types|
    ensures Offset(types[..m], i) == Offset(types, i)
  {
    if i > 0 { OffsetOfPrefix(types, m, i - 1); }
  }

  lemma OffsetNext(types: seq<Type>, i: nat)
    requires i < |types|
    ensures Offset(types, 0) == 0 && Offset(types, i + 1) == Offset(types, i) + types[i].width
  {
  }

  lemma HistoryWidth()
    ensures |RowTypes(History)| == 5 && Offset(RowTypes(History), 5) == 41
    ensures forall i :: 0 <= i <= 4 ==> Offset(RowTypes(History)[..4], i) == Offset(RowTypes(History), i)
    ensures PKeySize(History) == 4 && NumColumns(History) == 9
  {
    PaymentTypes();
    hide Types, RowTypes, Offset;
    var types := RowTypes(History);
    assert types[0].width == 1 && types[1].width == 4 && types[2].width == 8 && types[3].width == 4;
    assert types[4].width == 24;
    OffsetNext(types, 0);
    OffsetNext(types, 1);
    OffsetNext(types, 2);
    OffsetNext(types, 3);
    OffsetNext(types, 4);
    forall i | 0 <= i <= 4 ensures Offset(types[..4], i) == Offset(types, i) { OffsetOfPrefix(types, 4, i); }
  }

  lemma HistoryColumn(db: Db, x: PaymentArgs, i: nat)
    requires i < 4 && Value(db, HistoryRowKey(x)) == EncodeRow(StoredHistory(x))
    ensures At(db, History, [x.w, x.d, x.c, x.h], H_C_D_ID + i) == Some(StoredHistory(x)[i])
  {
    PaymentTypes();
    HistoryWidth();
    RowColumns(History);
    hide KeyFits, Types, RowTypes, EncodeRow, ColumnAt, MakeKey, Value, Offset, PKeySize, NumColumns, Fits;
    var types := RowTypes(History)[..4];
    assert AllWellTyped(types, StoredHistory(x));
    RowRoundTrip(types, StoredHistory(x), i);
    var k := HistoryKey(x.w, x.d, x.c, x.h);
    assert RowKey(History, k) == HistoryRowKey(x);
  }

  // ---------------------------------------------------------------------
  // New order
  // ---------------------------------------------------------------------

  /** Line i is the last with its number, or the last for its stock row. */
  predicate LastNumbered(x: NewOrderArgs, i: nat)
    requires i < |x.lines|
  {
    forall j :: i < j < |x.lines| ==> x.lines[j].id != x.lines[i].id
  }

  predicate LastFromStock(x: NewOrderArgs, i: nat)
    requires i < |x.lines|
  {
    forall j :: i < j < |x.lines| ==> x.lines[j].supplyW != x.lines[i].supplyW || x.lines[j].item != x.lines[i].item
  }

  /** The order line of a line: what was ordered, the amount at the stored price and the first 24
      bytes of the district texts of the stock row; not delivered yet. */
  ghost predicate LineHolds(db: Db, db': Db, x: NewOrderArgs, l: Line, date: int) {
    var k, stock := [x.w, x.d, x.o, l.id], [l.supplyW, l.item];
    && Stored(db', OrderLine, k, 0).Some?
    && At(db', OrderLine, k, OL_I_ID) == Some(IntS(4, l.item))
    && At(db', OrderLine, k, OL_SUPPLY_W_ID) == Some(IntS(4, l.supplyW))
    && At(db', OrderLine, k, OL_DELIVERY_D) == Some(IntS(8, date))
    && At(db', OrderLine, k, OL_QUANTITY) == Some(IntS(1, l.quantity))
    && At(db', OrderLine, k, OL_AMOUNT) ==
      Some(IntS(4, Wrap(4, l.quantity * NumberAt(db, Item, [x.itemW, l.item], I_PRICE))))
    && |TextOf(db, Stock, stock, S_ALL_DIST)| >= 24
    && At(db', OrderLine, k, OL_DIST_INFO) == Some(TextS(24, TextOf(db, Stock, stock, S_ALL_DIST)[..24]))
  }

  /** The stock row of a line: its quantity falls by what was ordered, or is topped up by 91 first
      if that would leave nothing; nothing else changes. */
  ghost predicate StockHolds(db: Db, db': Db, l: Line) {
    var k := [l.supplyW, l.item];
    var q := NumberAt(db, Stock, k, S_QUANTITY);
    && NumberAt(db', Stock, k, S_QUANTITY) == Wrap(2, if q > l.quantity then q - l.quantity else q - l.quantity + 91)
    && forall c :: c != S_QUANTITY ==> At(db', Stock, k, c) == At(db, Stock, k, c)
  }

  /** The district's next order number, the order and the new order. */
  ghost predicate OrderHolds(db: Db, db': Db, x: NewOrderArgs) {
    var d, o := [x.w, x.d], [x.w, x.d, x.o];
    && NumberAt(db', District, d, D_NEXT_O_ID) == Wrap(4, NumberAt(db, District, d, D_NEXT_O_ID) + 1)
    && Stored(db', Order, o, 0).Some?
    && At(db', Order, o, O_C_ID) == Some(IntS(4, x.c)) && At(db', Order, o, O_ENTRY_D) == Some(IntS(8, x.datetime))
    && At(db', Order, o, O_CARRIER_ID) == Some(IntS(1, 0))
    && At(db', Order, o, O_OL_CNT) == Some(IntS(1, Wrap(1, |x.lines|)))
    && At(db', Order, o, O_ALL_LOCAL) ==
      Some(IntS(1, if forall i :: 0 <= i < |x.lines| ==> x.lines[i].supplyW == x.w then 1 else 0))
    && Stored(db', NewOrder, o, 0).Some? && At(db', NewOrder, o, NO_DUMMY) == Some(IntS(1, 0))
  }

  lemma OrderTyped(x: NewOrderArgs, n: NewOrderRow)
    ensures AllWellTyped(RowTypes(Order), OrderRow(x, n)) && AllWellTyped(RowTypes(NewOrder), [IntS(1, 0)])
    ensures PKeySize(Order) == 3 == PKeySize(NewOrder) && NumColumns(Order) == 8 && NumColumns(NewOrder) == 4
    ensures EncodeRow(OrderRow(x, n)) != [] && EncodeRow([IntS(1, 0)]) != []
  {
    NewOrderTypes();
    RowLength(OrderRow(x, n));
    RowLength([IntS(1, 0)]);
    OrderWidth(x, n);
    hide Types, RowTypes, EncodeRow, TotalWidth;
  }

  lemma OrderWidth(x: NewOrderArgs, n: NewOrderRow)
    ensures TotalWidth(OrderRow(x, n)) == 15 && TotalWidth([IntS(1, 0)]) == 1
  {
    var row := OrderRow(x, n);
    assert row[..5] == row && row[..4][..3] == row[..3] && row[..3][..2] == row[..2] && row[..2][..1] == row[..1];
    assert TotalWidth(row[..1]) == 4 && TotalWidth(row[..2]) == 12 && TotalWidth(row[..3]) == 13;
    assert TotalWidth(row[..4]) == 14;
    assert [IntS(1, 0)][..0] == [];
  }

  lemma IsStored(db: Db, t: Table, pkey: seq<int>)
    requires Grouped(t) && KeyFits(t, pkey) && Value(db, RowKey(t, pkey)) != []
    ensures Stored(db, t, pkey, 0) == Some(Value(db, RowKey(t, pkey)))
  {
    hide KeyFits, MakeKey;
  }

  lemma HeaderColumns(db: Db, db': Db, x: NewOrderArgs, n: NewOrderRow)
    requires Whole(db) && Whole(db') && Computed(db, x, n) && OrderLeft(db, db', x, n)
    ensures OrderHolds(db, db', x)
  {
    NewOrderTypes();
    OrderTyped(x, n);
    DistrictNext();
    hide KeyFits, Types, RowTypes, MakeKey, Value, Whole, EncodeRow, Wrap, IntValue, At, Price, Quantity, DistInfo,
      Adjusted, AllWellTyped, PKeySize, NumColumns, NumberAt, Stored;
    var k, row := OrderKey(x.w, x.d, x.o), OrderRow(x, n);
    NumberHere(db, District, DistrictKey(x.w, x.d), D_NEXT_O_ID);
    NumberHere(db', District, DistrictKey(x.w, x.d), D_NEXT_O_ID);
    IsStored(db', Order, k);
    IsStored(db', NewOrder, k);
    StoredRow(db', Order, k, row, O_C_ID);
    StoredRow(db', Order, k, row, O_ENTRY_D);
    StoredRow(db', Order, k, row, O_CARRIER_ID);
    StoredRow(db', Order, k, row, O_OL_CNT);
    StoredRow(db', Order, k, row, O_ALL_LOCAL);
    StoredRow(db', NewOrder, k, [IntS(1, 0)], NO_DUMMY);
  }

  lemma DistrictNext()
    ensures PKeySize(District) <= D_NEXT_O_ID < NumColumns(District)
  {
  }

  /** What the lines read, by column. */
  lemma LineReadsColumns(db: Db, x: NewOrderArgs, l: Line)
    ensures Price(db, x, l) == NumberAt(db, Item, [x.itemW, l.item], I_PRICE)
    ensures Quantity(db, l) == NumberAt(db, Stock, [l.supplyW, l.item], S_QUANTITY)
    ensures |TextOf(db, Stock, [l.supplyW, l.item], S_ALL_DIST)| == 240
    ensures DistInfo(db, l) == TextOf(db, Stock, [l.supplyW, l.item], S_ALL_DIST)[..24]
  {
    ItemColumns();
    hide KeyFits, Types, MakeKey, Value, Column, PKeySize, NumColumns;
    var k := ItemKey(l.supplyW, l.item);
    var s := Column(db, Stock, k, S_ALL_DIST);
    assert WellTyped(Text(240), s) by { ColumnTyped(db, Stock, k, S_ALL_DIST); }
    assert Window(s.buffer, 0, 24) == s.buffer[..24];
  }

  lemma ItemColumns()
    ensures PKeySize(Item) == 2 == PKeySize(Stock) && NumColumns(Item) == 6 && NumColumns(Stock) == 8
    ensures Types(Stock)[S_ALL_DIST] == Text(240)
  {
  }

  lemma ColumnTyped(db: Db, t: Table, pkey: seq<int>, c: nat)
    requires KeyFits(t, pkey) && c < NumColumns(t)
    ensures WellTyped(Types(t)[c], Column(db, t, pkey, c))
  {
    hide KeyFits, Types, MakeKey, Value, ColumnOffset, NumColumns;
  }

  lemma LineColumnsHold(db: Db, db': Db, x: NewOrderArgs, l: Line, r: LineRow, date: I64)
    requires Value(db', LineKey(x, l)) == EncodeRow(DatedLine(l, r, date))
    requires r.amount == Wrap(4, l.quantity * Price(db, x, l)) && r.distWidth == 24 && r.dist == DistInfo(db, l)
    ensures LineHolds(db, db', x, l, date)
  {
    LineColumns();
    AmountFits(l, Price(db, x, l));
    LineTyped(l, r, date);
    DatedThere(l, r, date);
    LineReadsColumns(db, x, l);
    hide KeyFits, Types, RowTypes, MakeKey, Value, EncodeRow, Wrap, At, Price, AllWellTyped, PKeySize, NumColumns,
      NumberAt, Stored, TextOf, Fits;
    var k, row := OrderLineKey(x.w, x.d, x.o, l.id), DatedLine(l, r, date);
    IsStored(db', OrderLine, k);
    StoredRow(db', OrderLine, k, row, OL_I_ID);
    StoredRow(db', OrderLine, k, row, OL_SUPPLY_W_ID);
    StoredRow(db', OrderLine, k, row, OL_DELIVERY_D);
    StoredRow(db', OrderLine, k, row, OL_QUANTITY);
    StoredRow(db', OrderLine, k, row, OL_AMOUNT);
    StoredRow(db', OrderLine, k, row, OL_DIST_INFO);
  }

  lemma DatedThere(l: Line, r: LineRow, date: I64)
    ensures EncodeRow(DatedLine(l, r, date)) != []
  {
    var row := DatedLine(l, r, date);
    assert EncodeRow(row) == EncodeRow(row[..5]) + ScalarBytes(row[5]);
    assert row[..5][..4] == row[..4];
    assert |EncodeRow(row[..5])| == |EncodeRow(row[..4])| + 4;
  }

  lemma StockColumnsHold(db: Db, db': Db, l: Line, stock: int)
    requires stock == Adjusted(Quantity(db, l), l.quantity)
    requires Value(db', StockKey(l)) == Restocked(Value(db, StockKey(l)), stock)
    ensures StockHolds(db, db', l)
  {
    ItemColumns();
    StockFirst();
    QuantityReads(db, l);
    WrapFitting(Quantity(db, l), l.quantity);
    hide KeyFits, Types, MakeKey, Value, PKeySize, NumColumns, UpdateRow, ColumnOffset, At, Wrap, Fits, Quantity;
    SetColumn(db, db', Stock, ItemKey(l.supplyW, l.item), S_QUANTITY, IntS(2, stock));
  }

  lemma QuantityReads(db: Db, l: Line)
    ensures Quantity(db, l) == NumberAt(db, Stock, [l.supplyW, l.item], S_QUANTITY)
  {
    ItemColumns();
    hide KeyFits, Types, MakeKey, Value, Column, PKeySize, NumColumns;
  }

  lemma StockFirst()
    ensures Types(Stock)[S_QUANTITY] == Int(2) && ColumnOffset(Stock, S_QUANTITY) == 0
  {
  }

  lemma WrapFitting(stock: int, quantity: int)
    ensures Fits(2, Adjusted(stock, quantity))
  {
    hide Wrap;
  }

  /** What a committed new order leaves. Of several lines with one number, or for one stock row,
      the last counts. */
  lemma NewOrderEffect(db: Db, x: NewOrderArgs)
    requires Whole(db) && RunTxn(db, NewOrderTxn(x)).1
    ensures OrderHolds(db, RunTxn(db, NewOrderTxn(x)).0, x)
    ensures forall i :: 0 <= i < |x.lines| ==>
      && (LastNumbered(x, i) ==> LineHolds(db, RunTxn(db, NewOrderTxn(x)).0, x, x.lines[i], 0))
      && (LastFromStock(x, i) ==> StockHolds(db, RunTxn(db, NewOrderTxn(x)).0, x.lines[i]))
  {
    hide RunTxn, Whole, OrderHolds, LineHolds, StockHolds, Price, Quantity, DistInfo, Adjusted, IntValue, Wrap,
      Value, EncodeRow, OrderLeft, Restocked, LineKey, StockKey;
    var db' := RunTxn(db, NewOrderTxn(x)).0;
    StaysWhole(db, NewOrderTxn(x));
    var n := NewOrderBytes(db, x);
    HeaderColumns(db, db', x, n);
    forall i | 0 <= i < |x.lines|
      ensures LastNumbered(x, i) ==> LineHolds(db, db', x, x.lines[i], 0)
      ensures LastFromStock(x, i) ==> StockHolds(db, db', x.lines[i])
    {
      assert LineLeft(db, db', x, n, i);
      ZeroFits();
      if LastNumbered(x, i) {
        assert DatedLine(x.lines[i], n.lines[i], 0) == OrderLineRow(x.lines[i], n.lines[i]);
        LineColumnsHold(db, db', x, x.lines[i], n.lines[i], 0);
      }
      if LastFromStock(x, i) { StockColumnsHold(db, db', x.lines[i], n.lines[i].stock); }
    }
  }

  /** Every line that a committed order leaves keeps its columns through the delivery of the order,
      and has the date of delivery exactly if its number is 1 to 10. */
  lemma OrderThenDelivery(db: Db, x: NewOrderArgs, y: DeliverArgs)
    requires Whole(db) && RunTxn(db, NewOrderTxn(x)).1 && y.w == x.w && y.d == x.d && y.o == x.o
    ensures forall i :: 0 <= i < |x.lines| && LastNumbered(x, i) ==>
      LineHolds(db, RunTxn(RunTxn(db, NewOrderTxn(x)).0, DeliverTxn(y)).0, x, x.lines[i],
        if 1 <= x.lines[i].id <= 10 then y.datetime else 0)
  {
    hide RunTxn, Whole, LineHolds, Price, Quantity, DistInfo, Adjusted, IntValue, Wrap, Value, EncodeRow, DatedLine,
      LineKey;
    var n := DeliveredOrder(db, x, y);
    forall i | 0 <= i < |x.lines| && LastNumbered(x, i)
      ensures LineHolds(db, Both(db, x, y), x, x.lines[i], if 1 <= x.lines[i].id <= 10 then y.datetime else 0)
    {
      assert LastForId(x, |x.lines|, i);
      assert LineEnds(db, x, y, n, i);
      ZeroFits();
      LineColumnsHold(db, Both(db, x, y), x, x.lines[i], n.lines[i], if 1 <= x.lines[i].id <= 10 then y.datetime
        else 0);
    }
  }

  // ---------------------------------------------------------------------
  // Delivery
  // ---------------------------------------------------------------------

  /** The amounts of lines 1 to n of an order. */
  function Amounts(db: Db, w: int, d: int, o: int, n: nat): int {
    if n == 0 then 0 else Amounts(db, w, d, o, n - 1) + NumberAt(db, OrderLine, [w, d, o, n], OL_AMOUNT)
  }

  /** In a row that reaches up to the column the column has the new value and the others are as
      they were; a row that is not there stays away. */
  ghost predicate SetAt(db: Db, db': Db, t: Table, pkey: seq<int>, c: nat, v: Scalar) {
    && (Stored(db, t, pkey, 0).None? ==> Stored(db', t, pkey, 0).None?)
    && (Stored(db, t, pkey, 0).Some? && c < NumColumns(t) && ColumnOffset(t, c) <= |Stored(db, t, pkey, 0).value| ==>
          Stored(db', t, pkey, 0).Some? && At(db', t, pkey, c) == Some(v))
    && forall e :: e != c ==> At(db', t, pkey, e) == At(db, t, pkey, e)
  }

  lemma SetBytes(db: Db, db': Db, t: Table, pkey: seq<int>, c: nat, v: Scalar)
    requires Grouped(t) && KeyFits(t, pkey) && PKeySize(t) <= c < NumColumns(t) && WellTyped(Types(t)[c], v)
    requires Types(t)[c].width > 0
    requires var row := Value(db, RowKey(t, pkey));
      Value(db', RowKey(t, pkey)) == if row == [] then [] else UpdateRow(t, row, [c], [v])
    ensures SetAt(db, db', t, pkey, c, v)
  {
    StoredIs(db, t, pkey);
    StoredIs(db', t, pkey);
    hide KeyFits, Types, RowKey, PKeySize, NumColumns, UpdateRow, ColumnOffset, At, Stored, Value, WellTyped, Grouped;
    if Value(db, RowKey(t, pkey)) == [] {
      SameColumns(db, db', t, pkey);
    } else {
      SetColumn(db, db', t, pkey, c, v);
    }
  }

  lemma StoredIs(db: Db, t: Table, pkey: seq<int>)
    requires Grouped(t) && KeyFits(t, pkey)
    ensures Stored(db, t, pkey, 0) == if Value(db, RowKey(t, pkey)) == [] then None
      else Some(Value(db, RowKey(t, pkey)))
  {
    hide KeyFits, MakeKey;
  }

  lemma SameColumns(db: Db, db': Db, t: Table, pkey: seq<int>)
    requires Grouped(t) && KeyFits(t, pkey) && Value(db', RowKey(t, pkey)) == Value(db, RowKey(t, pkey))
    ensures forall e :: At(db', t, pkey, e) == At(db, t, pkey, e)
  {
    hide KeyFits, Types, MakeKey, Value, ColumnAt, ColumnOffset, PKeySize, NumColumns;
  }

  /** A delivery always commits. The new order is gone; carrier and date are set on the order and
      on its lines 1 to 10, where these are stored; and the customer, if there is one, owes the
      amounts of those lines more and has one delivery more. */
  lemma DeliverEffect(db: Db, x: DeliverArgs)
    requires Whole(db)
    ensures RunTxn(db, DeliverTxn(x)).1
    ensures var db', o := RunTxn(db, DeliverTxn(x)).0, [x.w, x.d, x.o];
      && KeyFits(NewOrder, o) && Stored(db', NewOrder, o, 0).None?
      && SetAt(db, db', Order, o, O_CARRIER_ID, IntS(1, x.carrier))
      && forall n :: 1 <= n <= 10 ==> SetAt(db, db', OrderLine, [x.w, x.d, x.o, n], OL_DELIVERY_D, IntS(8, x.datetime))
    ensures var db', c := RunTxn(db, DeliverTxn(x)).0, [x.w, x.d, x.c];
      Stored(db, Customer, c, C_BALANCE).Some? ==>
        && NumberAt(db', Customer, c, C_BALANCE) ==
          Wrap(8, NumberAt(db, Customer, c, C_BALANCE) + Wrap(4, Amounts(db, x.w, x.d, x.o, 10)))
        && NumberAt(db', Customer, c, C_DELIVERY_CNT) == Wrap(2, NumberAt(db, Customer, c, C_DELIVERY_CNT) + 1)
  {
    var db' := RunTxn(db, DeliverTxn(x)).0;
    DeliverBytes(db, x);
    StaysWhole(db, DeliverTxn(x));
    hide RunTxn;
    RowsSet(db, db', x);
    CustomerSet(db, db', x);
  }

  lemma RowsSet(db: Db, db': Db, x: DeliverArgs)
    requires Delivered(db, db', x)
    ensures var o := [x.w, x.d, x.o];
      && KeyFits(NewOrder, o) && Stored(db', NewOrder, o, 0).None?
      && SetAt(db, db', Order, o, O_CARRIER_ID, IntS(1, x.carrier))
      && forall n :: 1 <= n <= 10 ==> SetAt(db, db', OrderLine, [x.w, x.d, x.o, n], OL_DELIVERY_D, IntS(8, x.datetime))
  {
    DeliverTypes();
    LineColumns();
    OrderTyped(NewOrderArgs(0, 0, 0, 0, 0, 0, []), NewOrderRow(0, false, []));
    hide KeyFits, Types, RowTypes, MakeKey, UpdateRow, PKeySize, NumColumns, SetAt, Wrap, EncodeRow, LineRowKey;
    SetBytes(db, db', Order, OrderKey(x.w, x.d, x.o), O_CARRIER_ID, IntS(1, x.carrier));
    forall n | 1 <= n <= 10
      ensures SetAt(db, db', OrderLine, [x.w, x.d, x.o, n], OL_DELIVERY_D, IntS(8, x.datetime)) {
      LineSet(db, db', x, n);
    }
  }

  lemma LineSet(db: Db, db': Db, x: DeliverArgs, n: nat)
    requires 1 <= n <= 10
    requires var row := Value(db, LineRowKey(x, n));
      Value(db', LineRowKey(x, n)) == if row == [] then [] else Dated(row, x)
    ensures SetAt(db, db', OrderLine, [x.w, x.d, x.o, n], OL_DELIVERY_D, IntS(8, x.datetime))
  {
    LineColumns();
    SmallFits(n);
    hide KeyFits, Types, RowTypes, MakeKey, UpdateRow, PKeySize, NumColumns, SetAt, Wrap, Value;
    assert DeliverLineKey(x, n) == [x.w, x.d, x.o, n];
    SetBytes(db, db', OrderLine, DeliverLineKey(x, n), OL_DELIVERY_D, IntS(8, x.datetime));
  }

  lemma AmountReads(db: Db, x: DeliverArgs, n: nat)
    requires 1 <= n <= 10
    ensures NumberAt(db, OrderLine, [x.w, x.d, x.o, n], OL_AMOUNT) ==
      IntOf(Column(db, OrderLine, DeliverLineKey(x, n), OL_AMOUNT))
  {
    LineColumns();
    SmallFits(n);
    hide KeyFits, Types, MakeKey, Value, Column, PKeySize, NumColumns, RowTypes, Wrap;
    assert DeliverLineKey(x, n) == [x.w, x.d, x.o, n];
  }

  lemma {:induction false} TotalIsAmounts(db: Db, x: DeliverArgs, n: nat)
    requires n <= 10
    ensures Total(db, x, n) == Wrap(4, Amounts(db, x.w, x.d, x.o, n))
  {
    hide Total, Wrap, NumberAt, Column, KeyFits, DeliverLineKey;
    TotalStep(db, x, n);
    if n > 0 {
      TotalIsAmounts(db, x, n - 1);
      AmountReads(db, x, n);
      WrapAdd(4, Amounts(db, x.w, x.d, x.o, n - 1), NumberAt(db, OrderLine, [x.w, x.d, x.o, n], OL_AMOUNT));
    }
  }

  lemma CustomerSet(db: Db, db': Db, x: DeliverArgs)
    requires Whole(db) && Whole(db') && Charged(db, db', x)
    ensures var c := [x.w, x.d, x.c];
      Stored(db, Customer, c, C_BALANCE).Some? ==>
        && NumberAt(db', Customer, c, C_BALANCE) ==
          Wrap(8, NumberAt(db, Customer, c, C_BALANCE) + Wrap(4, Amounts(db, x.w, x.d, x.o, 10)))
        && NumberAt(db', Customer, c, C_DELIVERY_CNT) == Wrap(2, NumberAt(db, Customer, c, C_DELIVERY_CNT) + 1)
  {
    hide KeyFits, MakeKey, Value, Whole, IntValue, NumberAt, Wrap, Total, Amounts, Stored;
    var c := CustomerKey(x.w, x.d, x.c);
    TotalIsAmounts(db, x, LINES_PER_ORDER);
    CustomerNumbers(db, x);
    CustomerNumbers(db', x);
    if Stored(db, Customer, c, C_BALANCE).Some? { BothThere(db, x); }
  }

  lemma CustomerNumbers(db: Db, x: DeliverArgs)
    requires Whole(db)
    ensures var c := CustomerKey(x.w, x.d, x.c);
      && NumberAt(db, Customer, [x.w, x.d, x.c], C_BALANCE) == IntValue(db, Customer, c, C_BALANCE)
      && NumberAt(db, Customer, [x.w, x.d, x.c], C_DELIVERY_CNT) == IntValue(db, Customer, c, C_DELIVERY_CNT)
  {
    DeliveredTypes();
    CustomerWide();
    hide KeyFits, Types, MakeKey, Value, Whole, IntValue, PKeySize, NumColumns, NumberAt;
    NumberHere(db, Customer, CustomerKey(x.w, x.d, x.c), C_BALANCE);
    NumberHere(db, Customer, CustomerKey(x.w, x.d, x.c), C_DELIVERY_CNT);
  }

  lemma CustomerWide()
    ensures PKeySize(Customer) == 3 && NumColumns(Customer) == 15
    ensures forall c :: 3 <= c < 15 ==> Types(Customer)[c].width > 0
  {
  }

  /** A customer row is whole: with a balance it has a delivery count. */
  lemma BothThere(db: Db, x: DeliverArgs)
    requires Whole(db) && Stored(db, Customer, CustomerKey(x.w, x.d, x.c), C_BALANCE).Some?
    ensures Value(db, DeliveredKey(x, 0)) != [] && Value(db, DeliveredKey(x, 1)) != []
  {
    CustomerWide();
    hide KeyFits, Types, MakeKey, PKeySize, NumColumns;
    var k := CustomerKey(x.w, x.d, x.c);
    assert WholeRow(db, Customer, k);
    assert Value(db, MakeKey(Customer, k, C_BALANCE)) != [];
    assert |Value(db, MakeKey(Customer, k, C_DELIVERY_CNT))| == Types(Customer)[C_DELIVERY_CNT].width;
  }
}
