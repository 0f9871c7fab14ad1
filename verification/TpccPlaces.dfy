/** The places of the database, by table, primary key and column, that each of the five
    transactions reads and writes, and so declares (workload/tpcc.cpp and execution/tpcc). */
module TpccPlaces {
  import opened Prelude
  import opened TpccCodec
  import opened TpccRows
  import opened TpccAdapters
  import opened TpccTables
  import opened TpccTxns
  import opened TpccRuns

  /** In a grouped table the whole row is one place, with column 0. */
  predicate Place(l: Loc) {
    KeyFits(l.table, l.pkey) && l.col < 128 && (Grouped(l.table) ==> l.col == 0)
  }

  function KeyOf(l: Loc): Bytes
    requires Place(l)
  {
    MakeKey(l.table, l.pkey, l.col)
  }

  /** An order line with a number from first to last. */
  predicate LineOf(w: int, d: int, o: int, first: int, last: int, l: Loc) {
    exists n :: first <= n <= last && l == Loc(OrderLine, [w, d, o, n], 0)
  }

  /** The order m before the given one, as a 32-bit number. */
  function OrderBefore(o: I32, m: int): int {
    Wrap(4, o - m)
  }

  predicate ReadsPlace(txn: Txn, l: Loc) {
    match txn
    case NewOrderTxn(x) =>
      || l == Loc(Warehouse, [x.w], W_TAX)
      || (l.table == Customer && l.pkey == [x.w, x.d, x.c] && l.col in {C_DISCOUNT, C_FULL_NAME, C_CREDIT})
      || (l.table == District && l.pkey == [x.w, x.d] && l.col in {D_TAX, D_NEXT_O_ID})
      || exists i :: 0 <= i < |x.lines| && (l == Loc(Item, [x.itemW, x.lines[i].item], 0) ||
                                            l == Loc(Stock, [x.lines[i].supplyW, x.lines[i].item], 0))
    case PaymentTxn(x) =>
      || (l.table == Warehouse && l.pkey == [x.w] && l.col in {W_NAME, W_ADDRESS, W_YTD})
      || (l.table == District && l.pkey == [x.w, x.d] && l.col in {D_NAME, D_ADDRESS, D_YTD})
      || (l.table == Customer && l.pkey == [x.cw, x.cd, x.c] && 3 <= l.col <= 14 && l.col != C_DELIVERY_CNT)
    case DeliverTxn(x) =>
      || l == Loc(Order, [x.w, x.d, x.o], 0)
      || LineOf(x.w, x.d, x.o, 1, 10, l)
      || (l.table == Customer && l.pkey == [x.w, x.d, x.c] && l.col in {C_BALANCE, C_DELIVERY_CNT})
    case OrderStatusTxn(x) =>
      || (l.table == Customer && l.pkey == [x.w, x.d, x.c] && l.col in {C_FULL_NAME, C_BALANCE})
      || l == Loc(Order, [x.w, x.d, x.o], 0)
      || LineOf(x.w, x.d, x.o, 1, 10, l)
    case StockLevelTxn(x) =>
      || l == Loc(District, [x.w, x.d], D_NEXT_O_ID)
      || (exists m :: 1 <= m <= 20 && LineOf(x.w, x.d, OrderBefore(x.o, m), 0, 9, l))
      || exists i :: 0 <= i < |x.items| && l == Loc(Stock, [x.w, x.items[i]], 0)
  }

  predicate WritesPlace(txn: Txn, l: Loc) {
    match txn
    case NewOrderTxn(x) =>
      || l == Loc(District, [x.w, x.d], D_NEXT_O_ID)
      || l == Loc(Order, [x.w, x.d, x.o], 0) || l == Loc(NewOrder, [x.w, x.d, x.o], 0)
      || exists i :: 0 <= i < |x.lines| && (l == Loc(Stock, [x.lines[i].supplyW, x.lines[i].item], 0) ||
                                            l == Loc(OrderLine, [x.w, x.d, x.o, x.lines[i].id], 0))
    case PaymentTxn(x) =>
      || l == Loc(Warehouse, [x.w], W_YTD) || l == Loc(District, [x.w, x.d], D_YTD)
      || (l.table == Customer && l.pkey == [x.cw, x.cd, x.c] &&
          l.col in {C_BALANCE, C_YTD_PAYMENT, C_PAYMENT_CNT, C_DATA})
      || l == Loc(History, [x.w, x.d, x.c, x.h], 0)
    case DeliverTxn(x) =>
      || l == Loc(NewOrder, [x.w, x.d, x.o], 0) || l == Loc(Order, [x.w, x.d, x.o], 0)
      || LineOf(x.w, x.d, x.o, 1, 10, l)
      || (l.table == Customer && l.pkey == [x.w, x.d, x.c] && l.col in {C_BALANCE, C_DELIVERY_CNT})
    case _ => false
  }

  // ---------------------------------------------------------------------
  // One table operation
  // ---------------------------------------------------------------------

  /** The place belongs to the row and, in an ungrouped table, to one of the columns. */
  predicate Within(t: Table, pkey: seq<int>, cols: seq<nat>, l: Loc) {
    l.table == t && l.pkey == pkey && (Grouped(t) || l.col in cols)
  }

  lemma SamePlace(t: Table, pkey: seq<int>, c: nat, l: Loc)
    requires KeyFits(t, pkey) && c < 128 && Place(l)
    ensures MakeKey(t, pkey, c) == KeyOf(l) <==> l == LocOf(t, pkey, c)
  {
    hide KeyFits, ParseKey;
    KeysInjective(t, pkey, c, l.table, l.pkey, l.col);
  }

  lemma {:induction false} ColumnReadsWithin(t: Table, pkey: seq<int>, cols: seq<nat>, l: Loc)
    requires !Grouped(t) && Access(t, pkey, cols) && NonKey(t, cols) && Place(l)
    ensures Call(KeyOf(l), false) in ColumnReads(t, pkey, cols) <==> Within(t, pkey, cols, l)
  {
    hide KeyFits, Types, PKeySize, MakeKey, KeyOf, Place;
    if cols != [] {
      var m := |cols| - 1;
      ColumnReadsWithin(t, pkey, cols[..m], l);
      SamePlace(t, pkey, cols[m], l);
      assert cols == cols[..m] + [cols[m]];
    }
  }

  lemma ReadsWithin(t: Table, pkey: seq<int>, cols: seq<nat>, l: Loc)
    requires Access(t, pkey, cols) && NonKey(t, cols) && cols != [] && Place(l)
    ensures Call(KeyOf(l), false) in Reads(t, pkey, cols) <==> Within(t, pkey, cols, l)
  {
    if Grouped(t) { GroupedPlace(t, pkey, l); }
    hide KeyFits, Types, PKeySize, MakeKey, KeyOf, Place, ColumnReads, Grouped;
    if !Grouped(t) { ColumnReadsWithin(t, pkey, cols, l); }
  }

  lemma GroupedPlace(t: Table, pkey: seq<int>, l: Loc)
    requires Grouped(t) && KeyFits(t, pkey) && Place(l)
    ensures MakeKey(t, pkey, 0) == KeyOf(l) <==> l.table == t && l.pkey == pkey
  {
    hide KeyFits;
    SamePlace(t, pkey, 0, l);
  }

  lemma {:induction false} ColumnWritesWithin(t: Table, pkey: seq<int>, cols: seq<nat>, l: Loc)
    requires !Grouped(t) && Access(t, pkey, cols) && Place(l)
    ensures Call(KeyOf(l), true) in ColumnWrites(t, pkey, cols) <==> Within(t, pkey, cols, l)
  {
    hide KeyFits, Types, MakeKey, KeyOf, Place;
    if cols != [] {
      var m := |cols| - 1;
      ColumnWritesWithin(t, pkey, cols[..m], l);
      SamePlace(t, pkey, cols[m], l);
      assert cols == cols[..m] + [cols[m]];
    }
  }

  lemma WritesWithin(t: Table, pkey: seq<int>, cols: seq<nat>, l: Loc)
    requires Access(t, pkey, cols) && Place(l)
    ensures Call(KeyOf(l), true) in Writes(t, pkey, cols) <==> Within(t, pkey, cols, l)
  {
    if Grouped(t) { GroupedPlace(t, pkey, l); }
    hide KeyFits, Types, PKeySize, MakeKey, KeyOf, Place, ColumnWrites, Grouped;
    if !Grouped(t) { ColumnWritesWithin(t, pkey, cols, l); }
  }

  // ---------------------------------------------------------------------
  // The loops
  // ---------------------------------------------------------------------

  lemma {:induction false} LineReadsPlaces(x: NewOrderArgs, n: nat, l: Loc)
    requires n <= |x.lines| && Place(l)
    ensures Call(KeyOf(l), false) in LineReads(x, n) <==>
      exists i :: 0 <= i < n && (l == Loc(Item, [x.itemW, x.lines[i].item], 0) ||
                                 l == Loc(Stock, [x.lines[i].supplyW, x.lines[i].item], 0))
  {
    hide KeyFits, Types, Reads, KeyOf;
    if n > 0 {
      var m := x.lines[n - 1];
      LineReadsPlaces(x, n - 1, l);
      ReadsWithin(Item, ItemKey(x.itemW, m.item), ITEM_COLUMNS, l);
      ReadsWithin(Stock, ItemKey(m.supplyW, m.item), STOCK_COLUMNS, l);
    }
  }

  lemma {:induction false} LineWritesPlaces(x: NewOrderArgs, n: nat, l: Loc)
    requires n <= |x.lines| && Place(l)
    ensures Call(KeyOf(l), true) in LineWrites(x, n) <==>
      exists i :: 0 <= i < n && (l == Loc(Stock, [x.lines[i].supplyW, x.lines[i].item], 0) ||
                                 l == Loc(OrderLine, [x.w, x.d, x.o, x.lines[i].id], 0))
  {
    hide KeyFits, Types, Writes, KeyOf;
    if n > 0 {
      var m := x.lines[n - 1];
      LineWritesPlaces(x, n - 1, l);
      WritesWithin(Stock, ItemKey(m.supplyW, m.item), [S_QUANTITY], l);
      WritesWithin(OrderLine, OrderLineKey(x.w, x.d, x.o, m.id), [], l);
    }
  }

  lemma SmallNumber(n: int)
    requires -1 <= n < 128
    ensures Wrap(1, n) == n && Fits(1, n)
  {
    WrapFits(1, n);
  }

  lemma {:induction false} SumReadsPlaces(x: DeliverArgs, n: nat, l: Loc)
    requires n < 128 && Place(l)
    ensures Call(KeyOf(l), false) in SumReads(x, n) <==>
      LineOf(x.w, x.d, x.o, 1, n, l)
  {
    hide KeyFits, Types, Reads, KeyOf, Wrap;
    if n > 0 {
      SumReadsPlaces(x, n - 1, l);
      SmallNumber(n);
      ReadsWithin(OrderLine, OrderLineKey(x.w, x.d, x.o, LineNumber(n)), [OL_AMOUNT], l);
    }
  }

  lemma {:induction false} MarkWritesPlaces(x: DeliverArgs, n: nat, l: Loc)
    requires n < 128 && Place(l)
    ensures Call(KeyOf(l), true) in MarkWrites(x, n) <==>
      LineOf(x.w, x.d, x.o, 1, n, l)
  {
    hide KeyFits, Types, Writes, KeyOf, Wrap;
    if n > 0 {
      MarkWritesPlaces(x, n - 1, l);
      SmallNumber(n);
      WritesWithin(OrderLine, OrderLineKey(x.w, x.d, x.o, LineNumber(n)), [OL_DELIVERY_D], l);
    }
  }

  lemma {:induction false} LinesReadsPlaces(w: I32, d: I8, o: I32, from: int, cols: seq<nat>, n: nat, l: Loc)
    requires ColumnsOf(OrderLine, cols) && NonKey(OrderLine, cols) && cols != [] && -1 <= from && from + n < 128
    requires Place(l)
    ensures Call(KeyOf(l), false) in LinesReads(w, d, o, from, cols, n) <==>
      LineOf(w, d, o, from + 1, from + n, l)
  {
    hide KeyFits, Types, Reads, KeyOf, Wrap;
    if n > 0 {
      LinesReadsPlaces(w, d, o, from, cols, n - 1, l);
      SmallNumber(from + n);
      ReadsWithin(OrderLine, OrderLineKey(w, d, o, Wrap(1, from + n)), cols, l);
    }
  }

  lemma {:induction false} OrdersReadsPlaces(x: LevelArgs, n: nat, l: Loc)
    requires n <= RECENT_ORDERS && Place(l)
    ensures Call(KeyOf(l), false) in OrdersReads(x, n) <==>
      exists m :: RECENT_ORDERS - n < m <= RECENT_ORDERS && LineOf(x.w, x.d, OrderBefore(x.o, m), 0, 9, l)
  {
    hide KeyFits, Types, KeyOf, Wrap, LinesReads, LineOf;
    if n > 0 {
      OrdersReadsPlaces(x, n - 1, l);
      var m := RECENT_ORDERS - n + 1;
      assert Wrap(4, x.o - RECENT_ORDERS + n - 1) == OrderBefore(x.o, m);
      LinesReadsPlaces(x.w, x.d, OrderBefore(x.o, m), -1, [OL_I_ID], LINES_PER_ORDER, l);
    }
  }

  lemma {:induction false} StocksReadsPlaces(x: LevelArgs, n: nat, l: Loc)
    requires n <= |x.items| && Place(l)
    ensures Call(KeyOf(l), false) in StocksReads(x, n) <==>
      exists i :: 0 <= i < n && l == Loc(Stock, [x.w, x.items[i]], 0)
  {
    hide KeyFits, Types, Reads, KeyOf;
    if n > 0 {
      StocksReadsPlaces(x, n - 1, l);
      ReadsWithin(Stock, ItemKey(x.w, x.items[n - 1]), [S_QUANTITY], l);
    }
  }

  // ---------------------------------------------------------------------
  // The transactions
  // ---------------------------------------------------------------------

  lemma NewOrderPlaces(x: NewOrderArgs, l: Loc)
    requires Place(l)
    ensures Call(KeyOf(l), false) in ReadCalls(NewOrderTxn(x)) <==> ReadsPlace(NewOrderTxn(x), l)
    ensures Call(KeyOf(l), true) in WriteCalls(NewOrderTxn(x)) <==> WritesPlace(NewOrderTxn(x), l)
  {
    hide KeyFits, Types, Reads, Writes, KeyOf, LineReads, LineWrites;
    ReadsWithin(Warehouse, WarehouseKey(x.w), [W_TAX], l);
    ReadsWithin(Customer, CustomerKey(x.w, x.d, x.c), CREDIT_COLUMNS, l);
    ReadsWithin(District, DistrictKey(x.w, x.d), NEXT_COLUMNS, l);
    LineReadsPlaces(x, |x.lines|, l);
    WritesWithin(District, DistrictKey(x.w, x.d), [D_NEXT_O_ID], l);
    WritesWithin(Order, OrderKey(x.w, x.d, x.o), [], l);
    WritesWithin(NewOrder, OrderKey(x.w, x.d, x.o), [], l);
    LineWritesPlaces(x, |x.lines|, l);
  }

  lemma PaymentPlaces(x: PaymentArgs, l: Loc)
    requires Place(l)
    ensures Call(KeyOf(l), false) in ReadCalls(PaymentTxn(x)) <==> ReadsPlace(PaymentTxn(x), l)
    ensures Call(KeyOf(l), true) in WriteCalls(PaymentTxn(x)) <==> WritesPlace(PaymentTxn(x), l)
  {
    hide KeyFits, Types, Reads, Writes, KeyOf;
    ReadsWithin(Warehouse, WarehouseKey(x.w), WAREHOUSE_COLUMNS, l);
    ReadsWithin(District, DistrictKey(x.w, x.d), DISTRICT_COLUMNS, l);
    ReadsWithin(Customer, CustomerKey(x.cw, x.cd, x.c), CUSTOMER_COLUMNS, l);
    WritesWithin(Warehouse, WarehouseKey(x.w), [W_YTD], l);
    WritesWithin(District, DistrictKey(x.w, x.d), [D_YTD], l);
    WritesWithin(Customer, CustomerKey(x.cw, x.cd, x.c), PAID_COLUMNS, l);
    WritesWithin(History, HistoryKey(x.w, x.d, x.c, x.h), [], l);
  }

  lemma DeliverPlaces(x: DeliverArgs, l: Loc)
    requires Place(l)
    ensures Call(KeyOf(l), false) in ReadCalls(DeliverTxn(x)) <==> ReadsPlace(DeliverTxn(x), l)
    ensures Call(KeyOf(l), true) in WriteCalls(DeliverTxn(x)) <==> WritesPlace(DeliverTxn(x), l)
  {
    hide KeyFits, Types, Reads, Writes, KeyOf, SumReads, MarkWrites;
    ReadsWithin(Order, OrderKey(x.w, x.d, x.o), [O_C_ID], l);
    SumReadsPlaces(x, LINES_PER_ORDER, l);
    ReadsWithin(Customer, CustomerKey(x.w, x.d, x.c), DELIVERED_COLUMNS, l);
    WritesWithin(NewOrder, OrderKey(x.w, x.d, x.o), [], l);
    WritesWithin(Order, OrderKey(x.w, x.d, x.o), [O_CARRIER_ID], l);
    MarkWritesPlaces(x, LINES_PER_ORDER, l);
    WritesWithin(Customer, CustomerKey(x.w, x.d, x.c), DELIVERED_COLUMNS, l);
  }

  lemma StatusPlaces(x: StatusArgs, l: Loc)
    requires Place(l)
    ensures Call(KeyOf(l), false) in ReadCalls(OrderStatusTxn(x)) <==> ReadsPlace(OrderStatusTxn(x), l)
  {
    hide KeyFits, Types, Reads, KeyOf, LinesReads;
    ReadsWithin(Customer, CustomerKey(x.w, x.d, x.c), STATUS_COLUMNS, l);
    ReadsWithin(Order, OrderKey(x.w, x.d, x.o), ENTRY_COLUMNS, l);
    LinesReadsPlaces(x.w, x.d, x.o, 0, LINE_COLUMNS, LINES_PER_ORDER, l);
  }

  lemma LevelPlaces(x: LevelArgs, l: Loc)
    requires Place(l)
    ensures Call(KeyOf(l), false) in ReadCalls(StockLevelTxn(x)) <==> ReadsPlace(StockLevelTxn(x), l)
  {
    hide KeyFits, Types, Reads, KeyOf, OrdersReads, StocksReads, Wrap;
    ReadsWithin(District, DistrictKey(x.w, x.d), [D_NEXT_O_ID], l);
    OrdersReadsPlaces(x, RECENT_ORDERS, l);
    StocksReadsPlaces(x, |x.items|, l);
  }

  /** The keys of a transaction are those of the places it reads and writes, and a key is declared
      for writing exactly if its place is written. */
  lemma DeclaredPlaces(txn: Txn, l: Loc)
    requires Place(l)
    ensures KeyOf(l) in DeclaredKeys(txn) <==> ReadsPlace(txn, l) || WritesPlace(txn, l)
    ensures KeyOf(l) in DeclaredKeys(txn) ==> DeclaredKeys(txn)[KeyOf(l)] == WritesPlace(txn, l)
  {
    hide Place, KeyOf, DeclaredKeys, Declared, ReadCalls, WriteCalls, ReadsPlace, WritesPlace;
    DeclaredKeysAre(txn);
    CallsPlaces(txn, l);
    var k, calls := KeyOf(l), ReadCalls(txn) + WriteCalls(txn);
    assert k in DeclaredKeys(txn) <==> Call(k, false) in calls || Call(k, true) in calls;
    assert Call(k, true) in calls <==> WritesPlace(txn, l);
    assert Call(k, false) in calls <==> ReadsPlace(txn, l);
  }

  lemma CallsPlaces(txn: Txn, l: Loc)
    requires Place(l)
    ensures var calls := ReadCalls(txn) + WriteCalls(txn);
      && (Call(KeyOf(l), false) in calls <==> ReadsPlace(txn, l))
      && (Call(KeyOf(l), true) in calls <==> WritesPlace(txn, l))
      && (Call(KeyOf(l), true) in WriteCalls(txn) <==> WritesPlace(txn, l))
  {
    hide Place, KeyOf, ReadsPlace;
    ReadCallsRead(txn);
    if Call(KeyOf(l), false) in WriteCalls(txn) { WriteCallsWrite(txn, Call(KeyOf(l), false)); }
    match txn
    case NewOrderTxn(x) => hide OrderHeaderReads, LineReads, OrderHeaderWrites, LineWrites; NewOrderPlaces(x, l);
    case PaymentTxn(x) => hide PaymentReads, PaymentWrites; PaymentPlaces(x, l);
    case DeliverTxn(x) => hide DeliverReads, DeliverWrites; DeliverPlaces(x, l);
    case OrderStatusTxn(x) => hide StatusReads; StatusPlaces(x, l);
    case StockLevelTxn(x) => hide LevelReads; LevelPlaces(x, l);
  }

  lemma WritesWrite(t: Table, pkey: seq<int>, cols: seq<nat>, c: Call)
    requires Access(t, pkey, cols) && c in Writes(t, pkey, cols)
    ensures c.write
  {
    hide KeyFits, Types, ColumnWrites;
    if !Grouped(t) { ColumnWritesAre(t, pkey, cols, c); }
  }

  lemma {:induction false} LineWritesWrite(x: NewOrderArgs, n: nat, c: Call)
    requires n <= |x.lines| && c in LineWrites(x, n)
    ensures c.write
  {
    hide KeyFits, Types, Writes;
    var m := x.lines[n - 1];
    if c in LineWrites(x, n - 1) { LineWritesWrite(x, n - 1, c); }
    else if c in Writes(Stock, ItemKey(m.supplyW, m.item), [S_QUANTITY]) {
      WritesWrite(Stock, ItemKey(m.supplyW, m.item), [S_QUANTITY], c);
    } else {
      WritesWrite(OrderLine, OrderLineKey(x.w, x.d, x.o, m.id), [], c);
    }
  }

  lemma {:induction false} MarkWritesWrite(x: DeliverArgs, n: nat, c: Call)
    requires c in MarkWrites(x, n)
    ensures c.write
  {
    hide KeyFits, Types, Writes, LineNumber;
    if c in MarkWrites(x, n - 1) { MarkWritesWrite(x, n - 1, c); }
    else { WritesWrite(OrderLine, OrderLineKey(x.w, x.d, x.o, LineNumber(n)), [OL_DELIVERY_D], c); }
  }

  lemma WriteCallsWrite(txn: Txn, c: Call)
    requires c in WriteCalls(txn)
    ensures c.write
  {
    hide KeyFits, Types, Writes, LineWrites, MarkWrites;
    match txn
    case NewOrderTxn(x) =>
      if c in LineWrites(x, |x.lines|) { LineWritesWrite(x, |x.lines|, c); }
      else if c in Writes(District, DistrictKey(x.w, x.d), [D_NEXT_O_ID]) {
        WritesWrite(District, DistrictKey(x.w, x.d), [D_NEXT_O_ID], c);
      } else if c in Writes(Order, OrderKey(x.w, x.d, x.o), []) {
        WritesWrite(Order, OrderKey(x.w, x.d, x.o), [], c);
      } else {
        WritesWrite(NewOrder, OrderKey(x.w, x.d, x.o), [], c);
      }
    case PaymentTxn(x) =>
      if c in Writes(Warehouse, WarehouseKey(x.w), [W_YTD]) { WritesWrite(Warehouse, WarehouseKey(x.w), [W_YTD], c); }
      else if c in Writes(District, DistrictKey(x.w, x.d), [D_YTD]) {
        WritesWrite(District, DistrictKey(x.w, x.d), [D_YTD], c);
      } else if c in Writes(Customer, CustomerKey(x.cw, x.cd, x.c), PAID_COLUMNS) {
        WritesWrite(Customer, CustomerKey(x.cw, x.cd, x.c), PAID_COLUMNS, c);
      } else {
        WritesWrite(History, HistoryKey(x.w, x.d, x.c, x.h), [], c);
      }
    case DeliverTxn(x) =>
      if c in MarkWrites(x, LINES_PER_ORDER) { MarkWritesWrite(x, LINES_PER_ORDER, c); }
      else if c in Writes(NewOrder, OrderKey(x.w, x.d, x.o), []) {
        WritesWrite(NewOrder, OrderKey(x.w, x.d, x.o), [], c);
      } else if c in Writes(Order, OrderKey(x.w, x.d, x.o), [O_CARRIER_ID]) {
        WritesWrite(Order, OrderKey(x.w, x.d, x.o), [O_CARRIER_ID], c);
      } else {
        WritesWrite(Customer, CustomerKey(x.w, x.d, x.c), DELIVERED_COLUMNS, c);
      }
    case _ =>
  }

  /** A transaction, committed or not, changes nothing but the places it writes, in any table. */
  lemma PlaceFrame(db: Db, txn: Txn, l: Loc)
    requires Place(l) && !WritesPlace(txn, l)
    ensures Value(RunTxn(db, txn).0, KeyOf(l)) == Value(db, KeyOf(l))
  {
    hide Place, KeyOf, RunTxn, WriteCalls, ReadsPlace, WritesPlace;
    CallsPlaces(txn, l);
    RunFrame(db, txn, KeyOf(l));
  }
}
