/** What the transactions do to the database (execution/tpcc.cpp, execution/execution.cpp): the
    keys are loaded, the transaction runs on them, and a committed one writes them back. */
module TpccRuns {
  import opened TpccCodec
  import opened TpccRows
  import opened TpccAdapters
  import opened TpccTables
  import opened TpccTxns

  type Db = map<Bytes, Bytes>

  /** A missing key reads as the empty string. */
  function Value(db: Db, k: Bytes): Bytes {
    if k in db then db[k] else []
  }

  function Load(db: Db, declared: map<Bytes, bool>): map<Bytes, Cell> {
    map k | k in declared :: Cell(declared[k], Value(db, k), [])
  }

  /** ApplyWrites over all partitions: every write key gets its new value, written to or not,
      and the deleted keys go. */
  function Apply(db: Db, cells: map<Bytes, Cell>, deleted: seq<Bytes>): Db {
    (db + map k | k in cells && cells[k].write :: cells[k].newValue) - set k | k in deleted
  }

  /** Execute: an aborted transaction returns before its writes are applied. */
  function RunTxn(db: Db, txn: Txn): (Db, bool) {
    var (a, ok) := Executed(Real(Load(db, DeclaredKeys(txn)), [], []), txn);
    if ok && a.Real? then (Apply(db, a.cells, a.deleted), true) else (db, false)
  }

  function Run(db: Db, txns: seq<Txn>): Db {
    if txns == [] then db else RunTxn(Run(db, txns[..|txns| - 1]), txns[|txns| - 1]).0
  }

  // ---------------------------------------------------------------------
  // Rows of ungrouped tables
  // ---------------------------------------------------------------------

  /** A row is absent, or every column has a value of its type's width. */
  ghost predicate WholeRow(db: Db, t: Table, pkey: seq<int>)
    requires KeyFits(t, pkey)
  {
    || (forall c :: PKeySize(t) <= c < NumColumns(t) ==> Value(db, MakeKey(t, pkey, c)) == [])
    || (forall c :: PKeySize(t) <= c < NumColumns(t) ==> |Value(db, MakeKey(t, pkey, c))| == Types(t)[c].width)
  }

  /** The rows of the ungrouped tables are whole, as the loader leaves them. */
  ghost predicate Whole(db: Db) {
    forall t, pkey :: !Grouped(t) && KeyFits(t, pkey) ==> WholeRow(db, t, pkey)
  }

  /** Reading changes no cell. */
  lemma SelectKeeps(a: Adapter, t: Table, pkey: seq<int>, cols: seq<nat>)
    requires a.Real? && Access(t, pkey, cols)
    ensures SelectColumns(a, t, pkey, cols).0.Real? && SelectColumns(a, t, pkey, cols).0.cells == a.cells
  {
    hide KeyFits, Types, NumColumns, PKeySize, MakeKey, MakeScalar, SelectColumns, Removed;
    ColumnsCalled(a, t, pkey, cols);
    NoWrites(t, pkey, cols);
    SameCells(a.cells, SelectColumns(a, t, pkey, cols).0.cells, ColumnReads(t, pkey, cols));
  }

  lemma {:induction false} NoWrites(t: Table, pkey: seq<int>, cols: seq<nat>)
    requires Access(t, pkey, cols)
    ensures forall c :: c in ColumnReads(t, pkey, cols) ==> !c.write
  {
    hide KeyFits, Types, NumColumns, PKeySize, MakeKey;
    if cols != [] { NoWrites(t, pkey, cols[..|cols| - 1]); }
  }

  lemma SameCells(a: map<Bytes, Cell>, b: map<Bytes, Cell>, calls: seq<Call>)
    requires Kept(a, b, calls) && forall c :: c in calls ==> !c.write
    ensures a == b
  {
  }

  /** The last column of a selection adds its value, if there is one. */
  lemma SelectLast(a: Adapter, t: Table, pkey: seq<int>, cols: seq<nat>)
    requires a.Real? && Access(t, pkey, cols) && NonKey(t, cols) && cols != []
    ensures var m := |cols| - 1;
      var (_, row, found) := SelectColumns(a, t, pkey, cols);
      var (_, before, some) := SelectColumns(a, t, pkey, cols[..m]);
      var k := MakeKey(t, pkey, cols[m]);
      if k in a.cells && a.cells[k].value != [] then row ==
        before + [MakeScalar(Types(t)[cols[m]], a.cells[k].value)] && found
      else row == before && found == some
  {
    hide KeyFits, Types, NumColumns, PKeySize, MakeKey, MakeScalar;
    SelectKeeps(a, t, pkey, cols[..|cols| - 1]);
  }

  lemma {:induction false} SelectAbsent(a: Adapter, t: Table, pkey: seq<int>, cols: seq<nat>)
    requires a.Real? && Access(t, pkey, cols) && NonKey(t, cols)
    requires forall i :: 0 <= i < |cols| ==> var k := MakeKey(t, pkey, cols[i]); k in a.cells && a.cells[k].value == []
    ensures SelectColumns(a, t, pkey, cols).1 == [] && !SelectColumns(a, t, pkey, cols).2
  {
    hide KeyFits, Types, NumColumns, PKeySize, MakeKey, MakeScalar;
    if cols != [] {
      hide SelectColumns;
      SelectLast(a, t, pkey, cols);
      SelectAbsent(a, t, pkey, cols[..|cols| - 1]);
    }
  }

  lemma {:induction false} SelectPresent(a: Adapter, t: Table, pkey: seq<int>, cols: seq<nat>)
    requires a.Real? && Access(t, pkey, cols) && NonKey(t, cols)
    requires forall i :: 0 <= i < |cols| ==> var k := MakeKey(t, pkey, cols[i]); k in a.cells && a.cells[k].value != []
    ensures var (_, row, found) := SelectColumns(a, t, pkey, cols);
      && found == (cols != []) && |row| == |cols|
      && forall i ::
        0 <= i < |cols| ==> row[i] == MakeScalar(Types(t)[cols[i]], a.cells[MakeKey(t, pkey, cols[i])].value)
  {
    hide KeyFits, Types, NumColumns, PKeySize, MakeKey, MakeScalar;
    if cols != [] {
      hide SelectColumns;
      SelectLast(a, t, pkey, cols);
      SelectPresent(a, t, pkey, cols[..|cols| - 1]);
    }
  }

  // Updates of single columns

  /** The cell takes an update. */
  predicate Takes(cells: map<Bytes, Cell>, k: Bytes) {
    k in cells && cells[k].write && cells[k].value != []
  }

  /** An update succeeded exactly if every cell took it, and then the cells hold the new values. */
  ghost predicate ColumnsSet(a: map<Bytes, Cell>, b: map<Bytes, Cell>, keys: seq<Bytes>, values: seq<Scalar>,
      ok: bool) {
    && |keys| == |values| && b.Keys == a.Keys
    && (ok <==> forall i :: 0 <= i < |keys| ==> Takes(a, keys[i]))
    && forall i :: 0 <= i < |keys| ==>
         if Takes(a, keys[i]) then b[keys[i]] == a[keys[i]].(newValue := ScalarBytes(values[i]))
         else keys[i] in a ==> b[keys[i]] == a[keys[i]]
  }

  lemma ColumnsSetStep(a: map<Bytes, Cell>, b: map<Bytes, Cell>, keys: seq<Bytes>, values: seq<Scalar>, ok: bool,
      k: Bytes, v: Scalar)
    requires ColumnsSet(a, b, keys, values, ok) && k !in keys && (k in a ==> b[k] == a[k])
    ensures ColumnsSet(a, if Takes(b, k) then b[k := b[k].(newValue := ScalarBytes(v))]
      else b, keys + [k], values + [v], ok && Takes(b, k))
  {
    hide ScalarBytes;
    var all := keys + [k];
    assert all[|keys|] == k && forall i :: 0 <= i < |keys| ==> all[i] == keys[i] && keys[i] in keys;
  }

  function Keys(t: Table, pkey: seq<int>, cols: seq<nat>): seq<Bytes>
    requires Access(t, pkey, cols)
  {
    seq(|cols|, i requires 0 <= i < |cols| => MakeKey(t, pkey, cols[i]))
  }

  lemma {:induction false} UpdateMeaning(a: Adapter, t: Table, pkey: seq<int>, cols: seq<nat>, values: seq<Scalar>)
    requires a.Real? && Access(t, pkey, cols) && |cols| == |values| && !Grouped(t)
    requires forall i, j :: 0 <= i < j < |cols| ==> cols[i] != cols[j]
    ensures var (b, ok) := UpdateColumns(a, t, pkey, cols, values);
      b.Real? && b.deleted == a.deleted && ColumnsSet(a.cells, b.cells, Keys(t, pkey, cols), values, ok)
  {
    hide KeyFits, Types, NumColumns, MakeKey, ScalarBytes, ParseKey, Keys, LocOf, Grouped;
    if cols == [] {
      assert Keys(t, pkey, cols) == [] by { NoKeys(t, pkey); }
    } else {
      hide UpdateColumns, ColumnsSet;
      var m := |cols| - 1;
      var k, keys := MakeKey(t, pkey, cols[m]), Keys(t, pkey, cols[..m]);
      UpdateMeaning(a, t, pkey, cols[..m], values[..m]);
      var (before, ok) := UpdateColumns(a, t, pkey, cols[..m], values[..m]);
      KeyNotIn(t, pkey, cols[..m], cols[m]);
      UpdateOthers(a, t, pkey, cols[..m], values[..m], k);
      UpdateLast(a, t, pkey, cols, values);
      ColumnsSetStep(a.cells, before.cells, keys, values[..m], ok, k, values[m]);
      KeysLast(t, pkey, cols);
      assert values == values[..m] + [values[m]];
    }
  }

  lemma NoKeys(t: Table, pkey: seq<int>)
    requires Access(t, pkey, [])
    ensures Keys(t, pkey, []) == []
  {
  }

  lemma KeysLast(t: Table, pkey: seq<int>, cols: seq<nat>)
    requires Access(t, pkey, cols) && cols != []
    ensures Keys(t, pkey, cols) == Keys(t, pkey, cols[..|cols| - 1]) + [MakeKey(t, pkey, cols[|cols| - 1])]
  {
    hide KeyFits, Types, NumColumns, MakeKey;
  }

  lemma KeyNotIn(t: Table, pkey: seq<int>, cols: seq<nat>, c: nat)
    requires Access(t, pkey, cols) && c < NumColumns(t) && !Grouped(t) && c !in cols
    ensures MakeKey(t, pkey, c) !in Keys(t, pkey, cols)
    ensures forall i :: 0 <= i < |cols| ==> MakeKey(t, pkey, cols[i]) != MakeKey(t, pkey, c)
  {
    hide KeyFits, Types, NumColumns, MakeKey, ParseKey;
    assert forall i :: 0 <= i < |cols| ==> cols[i] in cols;
  }

  lemma UpdateLast(a: Adapter, t: Table, pkey: seq<int>, cols: seq<nat>, values: seq<Scalar>)
    requires a.Real? && Access(t, pkey, cols) && |cols| == |values| && cols != []
    requires UpdateColumns(a, t, pkey, cols[..|cols| - 1], values[..|cols| - 1]).0.Real?
    ensures var m := |cols| - 1;
      var (b, ok) := UpdateColumns(a, t, pkey, cols, values);
      var (before, some) := UpdateColumns(a, t, pkey, cols[..m], values[..m]);
      var k := MakeKey(t, pkey, cols[m]);
      && b.Real? && b.deleted == before.deleted && ok == (some && Takes(before.cells, k))
      && b.cells == if Takes(before.cells,
        k) then before.cells[k := before.cells[k].(newValue := ScalarBytes(values[m]))] else before.cells
  {
    hide KeyFits, Types, NumColumns, MakeKey, ScalarBytes;
  }

  lemma UpdateOthers(a: Adapter, t: Table, pkey: seq<int>, cols: seq<nat>, values: seq<Scalar>, k: Bytes)
    requires a.Real? && Access(t, pkey, cols) && |cols| == |values|
    requires forall i :: 0 <= i < |cols| ==> MakeKey(t, pkey, cols[i]) != k
    ensures var b := UpdateColumns(a, t, pkey, cols, values).0;
      b.Real? && (k in a.cells ==> k in b.cells && b.cells[k] == a.cells[k])
  {
    hide KeyFits, Types, NumColumns, MakeKey, ScalarBytes, UpdateColumns, ColumnWrites;
    UpdateColumnsCalled(a, t, pkey, cols, values);
    if Call(k, true) in ColumnWrites(t, pkey, cols) { ColumnWritesAre(t, pkey, cols, Call(k, true)); }
  }

  lemma {:induction false} ColumnWritesAre(t: Table, pkey: seq<int>, cols: seq<nat>, c: Call)
    requires Access(t, pkey, cols) && c in ColumnWrites(t, pkey, cols)
    ensures c.write && exists i :: 0 <= i < |cols| && c.key == MakeKey(t, pkey, cols[i])
  {
    hide KeyFits, Types, NumColumns, MakeKey;
    var m := |cols| - 1;
    if c in ColumnWrites(t, pkey, cols[..m]) {
      ColumnWritesAre(t, pkey, cols[..m], c);
      var i :| 0 <= i < m && c.key == MakeKey(t, pkey, cols[..m][i]);
      assert c.key == MakeKey(t, pkey, cols[i]);
    } else {
      assert c.key == MakeKey(t, pkey, cols[m]);
    }
  }

  // ---------------------------------------------------------------------
  // What a transaction does not touch
  // ---------------------------------------------------------------------

  lemma ReadsRead(t: Table, pkey: seq<int>, cols: seq<nat>)
    requires Access(t, pkey, cols)
    ensures forall c :: c in Reads(t, pkey, cols) ==> !c.write
  {
    if !Grouped(t) { NoWrites(t, pkey, Chosen(t, cols)); }
  }

  ghost predicate OnlyReads(calls: seq<Call>) {
    forall c :: c in calls ==> !c.write
  }

  lemma {:induction false} LineReadsRead(x: NewOrderArgs, n: nat)
    requires n <= |x.lines|
    ensures OnlyReads(LineReads(x, n))
  {
    hide KeyFits, Types, Reads;
    if n > 0 {
      LineReadsRead(x, n - 1);
      ReadsRead(Item, ItemKey(x.itemW, x.lines[n - 1].item), ITEM_COLUMNS);
      ReadsRead(Stock, ItemKey(x.lines[n - 1].supplyW, x.lines[n - 1].item), STOCK_COLUMNS);
    }
  }

  lemma {:induction false} SumReadsRead(x: DeliverArgs, n: nat)
    ensures OnlyReads(SumReads(x, n))
  {
    hide KeyFits, Types, Reads, LineNumber;
    if n > 0 {
      SumReadsRead(x, n - 1);
      ReadsRead(OrderLine, OrderLineKey(x.w, x.d, x.o, LineNumber(n)), [OL_AMOUNT]);
    }
  }

  lemma {:induction false} LinesReadsRead(w: I32, d: I8, o: I32, from: int, cols: seq<nat>, n: nat)
    requires ColumnsOf(OrderLine, cols)
    ensures OnlyReads(LinesReads(w, d, o, from, cols, n))
  {
    hide KeyFits, Types, Reads, Wrap;
    if n > 0 {
      LinesReadsRead(w, d, o, from, cols, n - 1);
      ReadsRead(OrderLine, OrderLineKey(w, d, o, Wrap(1, from + n)), cols);
    }
  }

  lemma {:induction false} LevelReadsRead(x: LevelArgs, orders: nat, items: nat)
    requires items <= |x.items|
    ensures OnlyReads(OrdersReads(x, orders)) && OnlyReads(StocksReads(x, items))
    decreases orders + items
  {
    hide KeyFits, Types, Reads, Wrap, LinesReads;
    if orders > 0 {
      LevelReadsRead(x, orders - 1, items);
      LinesReadsRead(x.w, x.d, Wrap(4, x.o - RECENT_ORDERS + orders - 1), -1, [OL_I_ID], LINES_PER_ORDER);
    } else if items > 0 {
      LevelReadsRead(x, orders, items - 1);
      ReadsRead(Stock, ItemKey(x.w, x.items[items - 1]), [S_QUANTITY]);
    }
  }

  lemma ReadCallsRead(txn: Txn)
    ensures OnlyReads(ReadCalls(txn))
  {
    hide KeyFits, Types, Reads, LineReads, SumReads, LinesReads, OrdersReads, StocksReads;
    match txn
    case NewOrderTxn(x) =>
      ReadsRead(Warehouse, WarehouseKey(x.w), [W_TAX]);
      ReadsRead(Customer, CustomerKey(x.w, x.d, x.c), CREDIT_COLUMNS);
      ReadsRead(District, DistrictKey(x.w, x.d), NEXT_COLUMNS);
      LineReadsRead(x, |x.lines|);
    case PaymentTxn(x) =>
      ReadsRead(Warehouse, WarehouseKey(x.w), WAREHOUSE_COLUMNS);
      ReadsRead(District, DistrictKey(x.w, x.d), DISTRICT_COLUMNS);
      ReadsRead(Customer, CustomerKey(x.cw, x.cd, x.c), CUSTOMER_COLUMNS);
    case DeliverTxn(x) =>
      ReadsRead(Order, OrderKey(x.w, x.d, x.o), [O_C_ID]);
      SumReadsRead(x, LINES_PER_ORDER);
      ReadsRead(Customer, CustomerKey(x.w, x.d, x.c), DELIVERED_COLUMNS);
    case OrderStatusTxn(x) =>
      ReadsRead(Customer, CustomerKey(x.w, x.d, x.c), STATUS_COLUMNS);
      ReadsRead(Order, OrderKey(x.w, x.d, x.o), ENTRY_COLUMNS);
      LinesReadsRead(x.w, x.d, x.o, 0, LINE_COLUMNS, LINES_PER_ORDER);
    case StockLevelTxn(x) =>
      ReadsRead(District, DistrictKey(x.w, x.d), [D_NEXT_O_ID]);
      LevelReadsRead(x, RECENT_ORDERS, |x.items|);
  }

  /** A key that the transaction does not write keeps its value, whether or not it commits. */
  lemma RunFrame(db: Db, txn: Txn, k: Bytes)
    requires Call(k, true) !in WriteCalls(txn)
    ensures Value(RunTxn(db, txn).0, k) == Value(db, k)
  {
    hide Executed, ReadCalls, WriteCalls, Declared, DeclaredKeys;
    var cells := Load(db, DeclaredKeys(txn));
    var a := Executed(Real(cells, [], []), txn).0;
    ExecutedCalls(Real(cells, [], []), txn);
    DeclaredKeysAre(txn);
    ReadCallsRead(txn);
    assert Call(k, true) !in ReadCalls(txn) + WriteCalls(txn);
    assert a.Real? && (k in a.cells ==> !a.cells[k].write) && k !in a.deleted;
  }

  // ---------------------------------------------------------------------
  // The places a transaction writes
  // ---------------------------------------------------------------------

  lemma WritesAre(t: Table, pkey: seq<int>, cols: seq<nat>, c: Call)
    requires Access(t, pkey, cols) && c in Writes(t, pkey, cols)
    ensures c.write && ParseKey(c.key).Some?
    ensures var l := ParseKey(c.key).value; l.table == t && l.pkey == pkey && (!Grouped(t) ==> l.col in cols)
  {
    hide KeyFits, Types, NumColumns, MakeKey, ParseKey, ColumnWrites;
    if !Grouped(t) {
      ColumnWritesAre(t, pkey, cols, c);
      var i :| 0 <= i < |cols| && c.key == MakeKey(t, pkey, cols[i]);
      assert cols[i] in cols;
    }
  }

  /** Where in the ungrouped tables a transaction writes; the others are grouped. */
  predicate MayWrite(txn: Txn, l: Loc) {
    Grouped(l.table) ||
    match txn
    case NewOrderTxn(x) => l == Loc(District, [x.w, x.d], D_NEXT_O_ID)
    case PaymentTxn(x) =>
      || l == Loc(Warehouse, [x.w], W_YTD)
      || l == Loc(District, [x.w, x.d], D_YTD)
      || (l.table == Customer && l.pkey == [x.cw, x.cd, x.c] && l.col in PAID_COLUMNS)
    case DeliverTxn(x) => l.table == Customer && l.pkey == [x.w, x.d, x.c] && l.col in DELIVERED_COLUMNS
    case _ => false
  }

  lemma {:induction false} LineWritesAre(x: NewOrderArgs, n: nat, c: Call)
    requires n <= |x.lines| && c in LineWrites(x, n)
    ensures ParseKey(c.key).Some? && ParseKey(c.key).value.table in {Stock, OrderLine}
  {
    hide KeyFits, Types, Writes, ParseKey;
    var l := x.lines[n - 1];
    if c in LineWrites(x, n - 1) { LineWritesAre(x, n - 1, c); }
    else if c in Writes(Stock, ItemKey(l.supplyW, l.item),
      [S_QUANTITY]) { WritesAre(Stock, ItemKey(l.supplyW, l.item), [S_QUANTITY], c); }
    else { WritesAre(OrderLine, OrderLineKey(x.w, x.d, x.o, l.id), [], c); }
  }

  lemma {:induction false} MarkWritesAre(x: DeliverArgs, n: nat, c: Call)
    requires c in MarkWrites(x, n)
    ensures ParseKey(c.key).Some? && Grouped(ParseKey(c.key).value.table)
  {
    hide KeyFits, Types, Writes, ParseKey, LineNumber;
    if c in MarkWrites(x, n - 1) { MarkWritesAre(x, n - 1, c); }
    else { WritesAre(OrderLine, OrderLineKey(x.w, x.d, x.o, LineNumber(n)), [OL_DELIVERY_D], c); }
  }

  lemma WriteCallsAre(txn: Txn, c: Call)
    requires c in WriteCalls(txn)
    ensures ParseKey(c.key).Some? && MayWrite(txn, ParseKey(c.key).value)
  {
    hide KeyFits, Types, Writes, ParseKey, LineWrites, MarkWrites;
    match txn
    case NewOrderTxn(x) =>
      if c in LineWrites(x, |x.lines|) { LineWritesAre(x, |x.lines|, c); }
      else if c in Writes(District, DistrictKey(x.w, x.d),
        [D_NEXT_O_ID]) { WritesAre(District, DistrictKey(x.w, x.d), [D_NEXT_O_ID], c); }
      else if c in Writes(Order, OrderKey(x.w, x.d, x.o), []) { WritesAre(Order, OrderKey(x.w, x.d, x.o), [], c); }
      else { WritesAre(NewOrder, OrderKey(x.w, x.d, x.o), [], c); }
    case PaymentTxn(x) =>
      if c in Writes(Warehouse, WarehouseKey(x.w), [W_YTD]) { WritesAre(Warehouse, WarehouseKey(x.w), [W_YTD], c); }
      else if c in Writes(District, DistrictKey(x.w, x.d),
        [D_YTD]) { WritesAre(District, DistrictKey(x.w, x.d), [D_YTD], c); }
      else if c in Writes(Customer, CustomerKey(x.cw, x.cd, x.c),
        PAID_COLUMNS) { WritesAre(Customer, CustomerKey(x.cw, x.cd, x.c), PAID_COLUMNS, c); }
      else { WritesAre(History, HistoryKey(x.w, x.d, x.c, x.h), [], c); }
    case DeliverTxn(x) =>
      if c in MarkWrites(x, LINES_PER_ORDER) { MarkWritesAre(x, LINES_PER_ORDER, c); }
      else if c in Writes(NewOrder, OrderKey(x.w, x.d, x.o),
        []) { WritesAre(NewOrder, OrderKey(x.w, x.d, x.o), [], c); }
      else if c in Writes(Order, OrderKey(x.w, x.d, x.o),
        [O_CARRIER_ID]) { WritesAre(Order, OrderKey(x.w, x.d, x.o), [O_CARRIER_ID], c); }
      else { WritesAre(Customer, CustomerKey(x.w, x.d, x.c), DELIVERED_COLUMNS, c); }
    case _ =>
  }

  /** A column of an ungrouped table that the transaction may not write keeps its value. */
  lemma ColumnFrame(db: Db, txn: Txn, t: Table, pkey: seq<int>, c: nat)
    requires KeyFits(t, pkey) && c < 128 && !Grouped(t) && !MayWrite(txn, Loc(t, pkey, c))
    ensures var k := MakeKey(t, pkey, c); Value(RunTxn(db, txn).0, k) == Value(db, k)
  {
    hide KeyFits, Types, ParseKey, RunTxn, WriteCalls, MakeKey;
    var k := MakeKey(t, pkey, c);
    if Call(k, true) in WriteCalls(txn) { WriteCallsAre(txn, Call(k, true)); }
    RunFrame(db, txn, k);
  }

  // ---------------------------------------------------------------------
  // Reading whole rows
  // ---------------------------------------------------------------------

  /** The adapter serves these columns with the values of the database. */
  ghost predicate Serves(db: Db, cells: map<Bytes, Cell>, t: Table, pkey: seq<int>, cols: seq<nat>)
    requires Access(t, pkey, cols)
  {
    forall i :: 0 <= i < |cols| ==> var k := MakeKey(t, pkey, cols[i]); k in cells && cells[k].value == Value(db, k)
  }

  lemma {:induction false} ColumnReadsHave(t: Table, pkey: seq<int>, cols: seq<nat>, i: nat)
    requires Access(t, pkey, cols) && NonKey(t, cols) && i < |cols|
    ensures Call(MakeKey(t, pkey, cols[i]), false) in ColumnReads(t, pkey, cols)
  {
    hide KeyFits, Types, NumColumns, PKeySize, MakeKey;
    if i < |cols| - 1 { ColumnReadsHave(t, pkey, cols[..|cols| - 1], i); }
  }

  lemma ReadsServed(db: Db, txn: Txn, t: Table, pkey: seq<int>, cols: seq<nat>)
    requires !Grouped(t) && Access(t, pkey, cols) && NonKey(t, cols) && cols != []
    requires forall c :: c in Reads(t, pkey, cols) ==> c in ReadCalls(txn)
    ensures Serves(db, Load(db, DeclaredKeys(txn)), t, pkey, cols)
  {
    hide KeyFits, Types, NumColumns, PKeySize, MakeKey, ReadCalls, WriteCalls, DeclaredKeys, Declared, ColumnReads;
    DeclaredKeysAre(txn);
    forall i | 0 <= i < |cols| ensures MakeKey(t, pkey, cols[i]) in DeclaredKeys(txn) {
      ColumnReadsHave(t, pkey, cols, i);
      assert Call(MakeKey(t, pkey, cols[i]), false) in ReadCalls(txn) + WriteCalls(txn);
    }
  }

  /** What a whole row yields: all of the columns with values of full width, or none. */
  ghost predicate RowOf(db: Db, t: Table, pkey: seq<int>, cols: seq<nat>, row: seq<Scalar>)
    requires Access(t, pkey, cols)
  {
    |row| == |cols| && forall i :: 0 <= i < |cols| ==>
      var v := Value(db, MakeKey(t, pkey, cols[i]));
      |v| == Types(t)[cols[i]].width && row[i] == MakeScalar(Types(t)[cols[i]], v)
  }

  lemma WidthsPositive(t: Table, c: nat)
    requires c < NumColumns(t)
    ensures Types(t)[c].width > 0
  {
  }

  lemma SelectWhole(db: Db, a: Adapter, t: Table, pkey: seq<int>, cols: seq<nat>)
    requires a.Real? && !Grouped(t) && Access(t, pkey, cols) && NonKey(t, cols) && cols != []
    requires WholeRow(db, t, pkey) && Serves(db, a.cells, t, pkey, cols)
    ensures var (b, row) := Select(a, t, pkey, cols);
      && b.Real? && b.cells == a.cells
      && (row != [] ==> RowOf(db, t, pkey, cols, row))
  {
    hide KeyFits, Types, NumColumns, PKeySize, MakeKey, MakeScalar, SelectColumns, Value, WholeRow, NonKey;
    SelectKeeps(a, t, pkey, cols);
    AllOrNone(db, t, pkey, cols);
    if Value(db, MakeKey(t, pkey, cols[0])) == [] {
      SelectAbsent(a, t, pkey, cols);
    } else {
      SelectPresent(a, t, pkey, cols);
    }
  }

  lemma AllOrNone(db: Db, t: Table, pkey: seq<int>, cols: seq<nat>)
    requires Access(t, pkey, cols) && NonKey(t, cols) && cols != [] && WholeRow(db, t, pkey)
    ensures Value(db, MakeKey(t, pkey, cols[0])) == [] ==>
      forall i :: 0 <= i < |cols| ==> Value(db, MakeKey(t, pkey, cols[i])) == []
    ensures Value(db, MakeKey(t, pkey, cols[0])) != [] ==>
      forall i :: 0 <= i < |cols| ==>
        Value(db, MakeKey(t, pkey, cols[i])) != [] && |Value(db, MakeKey(t, pkey, cols[i]))| == Types(t)[cols[i]].width
  {
    hide KeyFits, Types, NumColumns, PKeySize, MakeKey, Value;
    forall i | 0 <= i < |cols| ensures Types(t)[cols[i]].width > 0 { WidthsPositive(t, cols[i]); }
  }

  // ---------------------------------------------------------------------
  // Payment
  // ---------------------------------------------------------------------

  function IntValue(db: Db, t: Table, pkey: seq<int>, c: nat): int
    requires KeyFits(t, pkey) && c < 128
  {
    DecodeInt(Value(db, MakeKey(t, pkey, c)))
  }

  lemma IntColumn(db: Db, t: Table, pkey: seq<int>, cols: seq<nat>, row: seq<Scalar>, i: nat)
    requires Access(t, pkey, cols) && RowOf(db, t, pkey, cols, row) && i < |cols| && Types(t)[cols[i]].Int?
    ensures IntAt(row, i) == IntValue(db, t, pkey, cols[i])
    ensures |Value(db, MakeKey(t, pkey, cols[i]))| == Types(t)[cols[i]].width
  {
    hide KeyFits, Types, NumColumns, MakeKey, Value;
    var v, w := Value(db, MakeKey(t, pkey, cols[i])), Types(t)[cols[i]].width;
    assert Window(v, 0, w) == v;
  }

  lemma PaymentReadTypes()
    ensures Types(Warehouse)[WAREHOUSE_COLUMNS[2]] == Int(8) && Types(District)[DISTRICT_COLUMNS[2]] == Int(8)
    ensures Types(Customer)[CUSTOMER_COLUMNS[7]] == Types(Customer)[CUSTOMER_COLUMNS[8]] == Int(8)
    ensures Types(Customer)[CUSTOMER_COLUMNS[9]] == Int(2) && Types(Customer)[CUSTOMER_COLUMNS[10]] == Text(250)
  {
  }

  function WYtdKey(w: I32): Bytes {
    MakeKey(Warehouse, WarehouseKey(w), W_YTD)
  }

  function DYtdKey(w: I32, d: I8): Bytes {
    MakeKey(District, DistrictKey(w, d), D_YTD)
  }

  function CustomerColumn(x: PaymentArgs, c: nat): Bytes
    requires c < 128
  {
    MakeKey(Customer, CustomerKey(x.cw, x.cd, x.c), c)
  }

  /** The columns a payment writes have values of full width. */
  ghost predicate PaidWidths(db: Db, x: PaymentArgs) {
    && |Value(db, WYtdKey(x.w))| == 8 && |Value(db, DYtdKey(x.w, x.d))| == 8
    && |Value(db, CustomerColumn(x, C_BALANCE))| == 8 && |Value(db, CustomerColumn(x, C_YTD_PAYMENT))| == 8
    && |Value(db, CustomerColumn(x, C_PAYMENT_CNT))| == 2 && |Value(db, CustomerColumn(x, C_DATA))| == 250
  }

  /** The money a payment reads, for its warehouse, district and customer. */
  lemma PaymentReadMeaning(db: Db, x: PaymentArgs)
    requires Whole(db)
    ensures var cells := Load(db, DeclaredKeys(PaymentTxn(x)));
      var (a, row, ok) := PaymentRead(Real(cells, [], []), x);
      && a.Real? && a.cells == cells
      && (ok ==>
           && row.wYtd == IntValue(db, Warehouse, WarehouseKey(x.w), W_YTD)
           && row.dYtd == IntValue(db, District, DistrictKey(x.w, x.d), D_YTD)
           && row.balance == IntValue(db, Customer, CustomerKey(x.cw, x.cd, x.c), C_BALANCE)
           && row.ytdPayment == IntValue(db, Customer, CustomerKey(x.cw, x.cd, x.c), C_YTD_PAYMENT)
           && row.paymentCnt == IntValue(db, Customer, CustomerKey(x.cw, x.cd, x.c), C_PAYMENT_CNT)
           && row.data == Value(db, CustomerColumn(x, C_DATA)) && row.dataWidth == 250 && PaidWidths(db, x))
  {
    PaymentReadTypes();
    hide KeyFits, Types, MakeKey, MakeScalar, Select, Reads, RowOf, WholeRow, Serves, DeclaredKeys, Load;
    var txn := PaymentTxn(x);
    var a := Real(Load(db, DeclaredKeys(txn)), [], []);
    var wk, dk, ck := WarehouseKey(x.w), DistrictKey(x.w, x.d), CustomerKey(x.cw, x.cd, x.c);
    ReadsServed(db, txn, Warehouse, wk, WAREHOUSE_COLUMNS);
    ReadsServed(db, txn, District, dk, DISTRICT_COLUMNS);
    ReadsServed(db, txn, Customer, ck, CUSTOMER_COLUMNS);
    SelectWhole(db, a, Warehouse, wk, WAREHOUSE_COLUMNS);
    var (a1, w) := ReadPaymentWarehouse(a, x);
    SelectWhole(db, a1, District, dk, DISTRICT_COLUMNS);
    var (a2, d) := ReadPaymentDistrict(a1, x);
    SelectWhole(db, a2, Customer, ck, CUSTOMER_COLUMNS);
    var (a3, c) := ReadPaymentCustomer(a2, x);
    if w != [] && d != [] && c != [] {
      IntColumn(db, Warehouse, wk, WAREHOUSE_COLUMNS, w, 2);
      IntColumn(db, District, dk, DISTRICT_COLUMNS, d, 2);
      IntColumn(db, Customer, ck, CUSTOMER_COLUMNS, c, 7);
      IntColumn(db, Customer, ck, CUSTOMER_COLUMNS, c, 8);
      IntColumn(db, Customer, ck, CUSTOMER_COLUMNS, c, 9);
      TextColumn(db, Customer, ck, CUSTOMER_COLUMNS, c, 10);
    }
  }

  lemma TextColumn(db: Db, t: Table, pkey: seq<int>, cols: seq<nat>, row: seq<Scalar>, i: nat)
    requires Access(t, pkey, cols) && RowOf(db, t, pkey, cols, row) && i < |cols| && Types(t)[cols[i]].Text?
    ensures TextAt(row, i).width == Types(t)[cols[i]].width == |Value(db, MakeKey(t, pkey, cols[i]))|
    ensures TextAt(row, i).buffer == Value(db, MakeKey(t, pkey, cols[i]))
  {
    hide KeyFits, Types, NumColumns, MakeKey, Value;
    var v := Value(db, MakeKey(t, pkey, cols[i]));
    assert Window(v, 0, Types(t)[cols[i]].width) == v;
  }

  /** The cell will be written back with this value. */
  predicate Wrote(cells: map<Bytes, Cell>, k: Bytes, value: Bytes) {
    k in cells && cells[k].write && cells[k].newValue == value
  }

  lemma UpdateSets(a: Adapter, t: Table, pkey: seq<int>, cols: seq<nat>, values: seq<Scalar>)
    requires a.Real? && !Grouped(t) && Access(t, pkey, cols) && Valid(t, cols, values)
    requires (forall i, j :: 0 <= i < j < |cols| ==> cols[i] != cols[j]) && Update(a, t, pkey, cols, values).1
    ensures var b := Update(a, t, pkey, cols, values).0;
      b.Real? && forall i :: 0 <= i < |cols| ==> Wrote(b.cells, MakeKey(t, pkey, cols[i]), ScalarBytes(values[i]))
  {
    hide KeyFits, Types, NumColumns, MakeKey, ScalarBytes, UpdateColumns;
    UpdateMeaning(a, t, pkey, cols, values);
    var keys := Keys(t, pkey, cols);
    forall i | 0 <= i < |cols| ensures Takes(a.cells, MakeKey(t, pkey, cols[i])) { assert Takes(a.cells, keys[i]); }
  }

  /** An operation on another table leaves a cell alone. */
  lemma OtherTableKeeps(a: Adapter, b: Adapter, t: Table, pkey: seq<int>, cols: seq<nat>, k: Bytes, v: Bytes)
    requires a.Real? && Access(t, pkey, cols) && Called(a, b, Writes(t, pkey, cols)) && Wrote(a.cells, k, v)
    requires ParseKey(k).Some? && ParseKey(k).value.table != t
    ensures b.Real? && Wrote(b.cells, k, v)
  {
    hide KeyFits, Types, NumColumns, MakeKey, ParseKey, Writes;
    if Call(k, true) in Writes(t, pkey, cols) { WritesAre(t, pkey, cols, Call(k, true)); }
  }

  ghost predicate PaymentWrote(cells: map<Bytes, Cell>, x: PaymentArgs, n: PaymentRow) {
    && Wrote(cells, WYtdKey(x.w), EncodeInt(8, n.wYtd))
    && Wrote(cells, DYtdKey(x.w, x.d), EncodeInt(8, n.dYtd))
    && Wrote(cells, CustomerColumn(x, C_BALANCE), EncodeInt(8, n.balance))
    && Wrote(cells, CustomerColumn(x, C_YTD_PAYMENT), EncodeInt(8, n.ytdPayment))
    && Wrote(cells, CustomerColumn(x, C_PAYMENT_CNT), EncodeInt(2, n.paymentCnt))
    && Wrote(cells, CustomerColumn(x, C_DATA), Window(n.data, 0, n.dataWidth))
  }

  lemma PaymentCustomerWrote(a: Adapter, x: PaymentArgs, n: PaymentRow)
    requires a.Real? && WritePaymentCustomer(a, x, n).1
    ensures var b := WritePaymentCustomer(a, x, n).0;
      b.Real? && forall i ::
        0 <= i < 4 ==> Wrote(b.cells, CustomerColumn(x, PAID_COLUMNS[i]), ScalarBytes(PaidValues(n)[i]))
  {
    PaymentTypes();
    PaymentValues(n);
    hide KeyFits, Types, MakeKey, ScalarBytes, Update, Valid, Wrote;
    UpdateSets(a, Customer, CustomerKey(x.cw, x.cd, x.c), PAID_COLUMNS, PaidValues(n));
  }

  lemma PaymentWriteMeaning(a: Adapter, x: PaymentArgs, n: PaymentRow)
    requires a.Real? && PaymentWrite(a, x, n).1
    ensures PaymentWrite(a, x, n).0.Real? && PaymentWrote(PaymentWrite(a, x, n).0.cells, x, n)
  {
    PaymentValues(n);
    hide KeyFits, Types, MakeKey, Update, Valid, Wrote, Called, Writes, WriteHistory, ParseKey, EncodeInt, Window;
    var wk, dk, ck := WarehouseKey(x.w), DistrictKey(x.w, x.d), CustomerKey(x.cw, x.cd, x.c);
    var a1 := WritePaymentWarehouse(a, x, n).0;
    var a2 := WritePaymentDistrict(a1, x, n).0;
    var a3 := WritePaymentCustomer(a2, x, n).0;
    var a4 := WriteHistory(a3, x, n).0;
    UpdateSets(a, Warehouse, wk, [W_YTD], [IntS(8, n.wYtd)]);
    assert Wrote(a1.cells, WYtdKey(x.w), EncodeInt(8, n.wYtd)) by {
      assert MakeKey(Warehouse, wk, [W_YTD][0]) == WYtdKey(x.w) &&
        ScalarBytes([IntS(8, n.wYtd)][0]) == EncodeInt(8, n.wYtd);
    }
    UpdateSets(a1, District, dk, [D_YTD], [IntS(8, n.dYtd)]);
    assert Wrote(a2.cells, DYtdKey(x.w, x.d), EncodeInt(8, n.dYtd)) by {
      assert MakeKey(District, dk, [D_YTD][0]) == DYtdKey(x.w, x.d) &&
        ScalarBytes([IntS(8, n.dYtd)][0]) == EncodeInt(8, n.dYtd);
    }
    UpdateCalled(a1, District, dk, [D_YTD], [IntS(8, n.dYtd)]);
    OtherTableKeeps(a1, a2, District, dk, [D_YTD], WYtdKey(x.w), EncodeInt(8, n.wYtd));
    PaymentCustomerWrote(a2, x, n);
    UpdateCalled(a2, Customer, ck, PAID_COLUMNS, PaidValues(n));
    OtherTableKeeps(a2, a3, Customer, ck, PAID_COLUMNS, WYtdKey(x.w), EncodeInt(8, n.wYtd));
    OtherTableKeeps(a2, a3, Customer, ck, PAID_COLUMNS, DYtdKey(x.w, x.d), EncodeInt(8, n.dYtd));
    CustomerBytes(a3.cells, x, n);
    HistoryKeeps(a3, x, n);
  }

  lemma CustomerBytes(cells: map<Bytes, Cell>, x: PaymentArgs, n: PaymentRow)
    requires forall i :: 0 <= i < 4 ==> Wrote(cells, CustomerColumn(x, PAID_COLUMNS[i]), ScalarBytes(PaidValues(n)[i]))
    ensures Wrote(cells, CustomerColumn(x, C_BALANCE), EncodeInt(8, n.balance))
    ensures Wrote(cells, CustomerColumn(x, C_YTD_PAYMENT), EncodeInt(8, n.ytdPayment))
    ensures Wrote(cells, CustomerColumn(x, C_PAYMENT_CNT), EncodeInt(2, n.paymentCnt))
    ensures Wrote(cells, CustomerColumn(x, C_DATA), Window(n.data, 0, n.dataWidth))
  {
    hide CustomerColumn, Wrote, EncodeInt, Window;
    assert Wrote(cells, CustomerColumn(x, PAID_COLUMNS[0]), ScalarBytes(PaidValues(n)[0]));
    assert Wrote(cells, CustomerColumn(x, PAID_COLUMNS[1]), ScalarBytes(PaidValues(n)[1]));
    assert Wrote(cells, CustomerColumn(x, PAID_COLUMNS[2]), ScalarBytes(PaidValues(n)[2]));
    assert Wrote(cells, CustomerColumn(x, PAID_COLUMNS[3]), ScalarBytes(PaidValues(n)[3]));
  }

  lemma HistoryKeeps(a: Adapter, x: PaymentArgs, n: PaymentRow)
    requires a.Real? && PaymentWrote(a.cells, x, n)
    ensures WriteHistory(a, x, n).0.Real? && PaymentWrote(WriteHistory(a, x, n).0.cells, x, n)
  {
    hide KeyFits, Types, MakeKey, Wrote, Called, Writes, WriteHistory, ParseKey, EncodeInt, Window;
    var b, hk := WriteHistory(a, x, n).0, HistoryKey(x.w, x.d, x.c, x.h);
    HistoryCalled(a, x, n);
    OtherTableKeeps(a, b, History, hk, [], WYtdKey(x.w), EncodeInt(8, n.wYtd));
    OtherTableKeeps(a, b, History, hk, [], DYtdKey(x.w, x.d), EncodeInt(8, n.dYtd));
    OtherTableKeeps(a, b, History, hk, [], CustomerColumn(x, C_BALANCE), EncodeInt(8, n.balance));
    OtherTableKeeps(a, b, History, hk, [], CustomerColumn(x, C_YTD_PAYMENT), EncodeInt(8, n.ytdPayment));
    OtherTableKeeps(a, b, History, hk, [], CustomerColumn(x, C_PAYMENT_CNT), EncodeInt(2, n.paymentCnt));
    OtherTableKeeps(a, b, History, hk, [], CustomerColumn(x, C_DATA), Window(n.data, 0, n.dataWidth));
  }

  /** What a committed run leaves of the key list, and what that means for the database. */
  lemma Committed(db: Db, txn: Txn, k: Bytes)
    requires RunTxn(db, txn).1
    ensures var a := Executed(Real(Load(db, DeclaredKeys(txn)), [], []), txn).0;
      && a.Real?
      && (k in a.cells ==>
        k in Load(db, DeclaredKeys(txn)) && a.cells[k].write == DeclaredKeys(txn)[k] &&
          a.cells[k].value == Value(db, k))
      && (k in a.cells ==>
        Value(RunTxn(db, txn).0, k) == if a.cells[k].write then a.cells[k].newValue else Value(db, k))
  {
    hide Executed, ReadCalls, WriteCalls, DeclaredKeys;
    ExecutedCalls(Real(Load(db, DeclaredKeys(txn)), [], []), txn);
  }

  /** A payment moves its amount: into the year-to-date sums of the warehouse, the district and
      the customer, and out of the customer's balance. It is counted, and the customer's data
      are written back as they were. */
  lemma PaymentBytes(db: Db, x: PaymentArgs)
    requires Whole(db) && RunTxn(db, PaymentTxn(x)).1
    ensures var db' := RunTxn(db, PaymentTxn(x)).0;
      var wk, dk, ck := WarehouseKey(x.w), DistrictKey(x.w, x.d), CustomerKey(x.cw, x.cd, x.c);
      && IntValue(db', Warehouse, wk, W_YTD) == Wrap(8, IntValue(db, Warehouse, wk, W_YTD) + x.amount)
      && IntValue(db', District, dk, D_YTD) == Wrap(8, IntValue(db, District, dk, D_YTD) + x.amount)
      && IntValue(db', Customer, ck, C_BALANCE) == Wrap(8, IntValue(db, Customer, ck, C_BALANCE) - x.amount)
      && IntValue(db', Customer, ck, C_YTD_PAYMENT) == Wrap(8, IntValue(db, Customer, ck, C_YTD_PAYMENT) + x.amount)
      && IntValue(db', Customer, ck, C_PAYMENT_CNT) == Wrap(2, IntValue(db, Customer, ck, C_PAYMENT_CNT) + 1)
      && Value(db', CustomerColumn(x, C_DATA)) == Value(db, CustomerColumn(x, C_DATA))
      && Value(db', HistoryRowKey(x)) == EncodeRow(StoredHistory(x))
  {
    hide EncodeRow, HistoryRow, HistoryRowKey, StoredHistory;
    hide KeyFits, Types, MakeKey, PaymentRead, PaymentWrite, DeclaredKeys, Load, Value, EncodeInt, DecodeInt, Wrap,
      Fits, Window, RunTxn, Whole;
    var n := PaymentRuns(db, x);
    Committed(db, PaymentTxn(x), WYtdKey(x.w));
    Committed(db, PaymentTxn(x), DYtdKey(x.w, x.d));
    Committed(db, PaymentTxn(x), CustomerColumn(x, C_BALANCE));
    Committed(db, PaymentTxn(x), CustomerColumn(x, C_YTD_PAYMENT));
    Committed(db, PaymentTxn(x), CustomerColumn(x, C_PAYMENT_CNT));
    Committed(db, PaymentTxn(x), CustomerColumn(x, C_DATA));
    Committed(db, PaymentTxn(x), HistoryRowKey(x));
    HistoryBytes(x, n);
    DecodeEncode(2, n.paymentCnt);
    WholeWindow(n.data);
    DecodeEncode(8, n.wYtd);
    DecodeEncode(8, n.dYtd);
    DecodeEncode(8, n.balance);
    DecodeEncode(8, n.ytdPayment);
  }

  lemma WholeWindow(b: Bytes)
    ensures Window(b, 0, |b|) == b
  {
  }

  /** The computed row of a committed payment, and that it was written. */
  lemma PaymentRuns(db: Db, x: PaymentArgs) returns (n: PaymentRow)
    requires Whole(db) && RunTxn(db, PaymentTxn(x)).1
    ensures n.wYtd == Wrap(8, IntValue(db, Warehouse, WarehouseKey(x.w), W_YTD) + x.amount)
    ensures n.dYtd == Wrap(8, IntValue(db, District, DistrictKey(x.w, x.d), D_YTD) + x.amount)
    ensures n.balance == Wrap(8, IntValue(db, Customer, CustomerKey(x.cw, x.cd, x.c), C_BALANCE) - x.amount)
    ensures n.ytdPayment == Wrap(8, IntValue(db, Customer, CustomerKey(x.cw, x.cd, x.c), C_YTD_PAYMENT) + x.amount)
    ensures n.paymentCnt == Wrap(2, IntValue(db, Customer, CustomerKey(x.cw, x.cd, x.c), C_PAYMENT_CNT) + 1)
    ensures n.data == Value(db, CustomerColumn(x, C_DATA)) && n.dataWidth == 250 && PaidWidths(db, x)
    ensures var a := Executed(Real(Load(db, DeclaredKeys(PaymentTxn(x))), [], []), PaymentTxn(x)).0;
      a.Real? && PaymentWrote(a.cells, x, n) && Wrote(a.cells, HistoryRowKey(x), EncodeRow(HistoryRow(x, n)))
  {
    hide KeyFits, Types, MakeKey, PaymentRead, PaymentWrite, DeclaredKeys, Load, Value, EncodeInt, DecodeInt, Wrap,
      Window, Whole, PaymentWrote, Wrote, EncodeRow, HistoryRow, HistoryRowKey;
    var cells := Load(db, DeclaredKeys(PaymentTxn(x)));
    var (a, row, ok) := PaymentRead(Real(cells, [], []), x);
    PaymentReadMeaning(db, x);
    n := PaymentCompute(x, row);
    PaymentWriteMeaning(a, x, n);
    HistoryLoaded(db, x);
    HistoryWritten(a, x, n);
  }

  function HistoryRowKey(x: PaymentArgs): Bytes {
    MakeKey(History, HistoryKey(x.w, x.d, x.c, x.h), 0)
  }

  /** What is stored of a history row: everything but the text. */
  function StoredHistory(x: PaymentArgs): seq<Scalar> {
    [IntS(1, x.cd), IntS(4, x.cw), IntS(8, x.datetime), IntS(4, x.amount)]
  }

  lemma HistoryBytes(x: PaymentArgs, n: PaymentRow)
    ensures EncodeRow(HistoryRow(x, n)) == EncodeRow(StoredHistory(x))
  {
    var row := HistoryRow(x, n);
    assert row[..4] == StoredHistory(x);
    assert ScalarBytes(row[4]) == [];
    hide ScalarBytes;
    assert EncodeRow(row) == EncodeRow(row[..4]) + ScalarBytes(row[4]);
  }

  lemma HistoryLoaded(db: Db, x: PaymentArgs)
    ensures var cells := Load(db, DeclaredKeys(PaymentTxn(x)));
      HistoryRowKey(x) in cells && cells[HistoryRowKey(x)].write
  {
    hide KeyFits, Types, MakeKey, DeclaredKeys, Load;
    assert Call(HistoryRowKey(x), true) in Writes(History, HistoryKey(x.w, x.d, x.c, x.h), []);
    hide Writes;
    assert Call(HistoryRowKey(x), true) in WriteCalls(PaymentTxn(x));
    LoadedForWriting(db, PaymentTxn(x), Call(HistoryRowKey(x), true));
  }

  lemma HistoryWritten(a: Adapter, x: PaymentArgs, n: PaymentRow)
    requires a.Real? && HistoryRowKey(x) in a.cells && a.cells[HistoryRowKey(x)].write
    ensures var b := PaymentWrite(a, x, n).0; b.Real? && Wrote(b.cells, HistoryRowKey(x), EncodeRow(HistoryRow(x, n)))
  {
    PaymentTypes();
    PaymentValues(n);
    hide KeyFits, Types, MakeKey, Update, Valid, Called, Writes, ParseKey, EncodeRow, RowTypes;
    var wk, dk, ck := WarehouseKey(x.w), DistrictKey(x.w, x.d), CustomerKey(x.cw, x.cd, x.c);
    var a1 := WritePaymentWarehouse(a, x, n).0;
    var a2 := WritePaymentDistrict(a1, x, n).0;
    var a3 := WritePaymentCustomer(a2, x, n).0;
    UpdateCalled(a, Warehouse, wk, [W_YTD], [IntS(8, n.wYtd)]);
    HistoryCell(a, a1, Warehouse, wk, [W_YTD], x);
    UpdateCalled(a1, District, dk, [D_YTD], [IntS(8, n.dYtd)]);
    HistoryCell(a1, a2, District, dk, [D_YTD], x);
    UpdateCalled(a2, Customer, ck, PAID_COLUMNS, PaidValues(n));
    HistoryCell(a2, a3, Customer, ck, PAID_COLUMNS, x);
  }

  lemma HistoryCell(a: Adapter, b: Adapter, t: Table, pkey: seq<int>, cols: seq<nat>, x: PaymentArgs)
    requires a.Real? && t != History && Access(t, pkey, cols) && Called(a, b, Writes(t, pkey, cols))
    requires HistoryRowKey(x) in a.cells && a.cells[HistoryRowKey(x)].write
    ensures b.Real? && HistoryRowKey(x) in b.cells && b.cells[HistoryRowKey(x)].write
  {
    hide KeyFits, Types, MakeKey, Writes, ParseKey;
    var k := HistoryRowKey(x);
    assert ParseKey(k).Some? && ParseKey(k).value.table == History;
    if Call(k, true) in Writes(t, pkey, cols) { WritesAre(t, pkey, cols, Call(k, true)); }
  }

  // ---------------------------------------------------------------------
  // Rows stay whole
  // ---------------------------------------------------------------------

  lemma PaymentLengths(db: Db, x: PaymentArgs, l: Loc)
    requires Whole(db) && RunTxn(db, PaymentTxn(x)).1
    requires !Grouped(l.table) && KeyFits(l.table, l.pkey) && l.col < 128 && MayWrite(PaymentTxn(x), l)
    ensures var k := MakeKey(l.table, l.pkey, l.col); |Value(RunTxn(db, PaymentTxn(x)).0, k)| == |Value(db, k)|
  {
    hide KeyFits, Types, MakeKey, DeclaredKeys, Load, Value, EncodeInt, Window, RunTxn, Whole;
    var n := PaymentRuns(db, x);
    var k := MakeKey(l.table, l.pkey, l.col);
    Committed(db, PaymentTxn(x), k);
    assert l.table == Warehouse ==> k == WYtdKey(x.w);
    assert l.table == District ==> k == DYtdKey(x.w, x.d);
    assert l.table == Customer ==> k == CustomerColumn(x, l.col);
    assert l.table == Customer ==>
      l.col == C_BALANCE || l.col == C_YTD_PAYMENT || l.col == C_PAYMENT_CNT || l.col == C_DATA;
  }

  /** The cell is still as it was loaded, for writing. */
  predicate Untouched(db: Db, cells: map<Bytes, Cell>, k: Bytes) {
    k in cells && cells[k] == Cell(true, Value(db, k), [])
  }

  lemma LoadedForWriting(db: Db, txn: Txn, c: Call)
    requires c in WriteCalls(txn) && c.write
    ensures Untouched(db, Load(db, DeclaredKeys(txn)), c.key)
  {
    hide ReadCalls, WriteCalls, DeclaredKeys, Declared, Value;
    DeclaredKeysAre(txn);
    assert c in ReadCalls(txn) + WriteCalls(txn);
  }

  /** Calls that concern grouped tables only. */
  ghost predicate OnlyGrouped(calls: seq<Call>) {
    forall c :: c in calls ==> ParseKey(c.key).Some? && Grouped(ParseKey(c.key).value.table)
  }

  lemma GroupedKeeps(db: Db, a: Adapter, b: Adapter, calls: seq<Call>, t: Table, pkey: seq<int>, c: nat)
    requires a.Real? && Called(a, b, calls) && OnlyGrouped(calls) && KeyFits(t, pkey) && c < 128 && !Grouped(t)
    ensures var k := MakeKey(t, pkey, c); b.Real? && (k in a.cells ==> k in b.cells && b.cells[k] == a.cells[k])
  {
    hide KeyFits, MakeKey, ParseKey, Grouped;
    assert Call(MakeKey(t, pkey, c), true) !in calls;
  }

  lemma WritesGrouped(t: Table, pkey: seq<int>, cols: seq<nat>)
    requires Access(t, pkey, cols) && Grouped(t)
    ensures OnlyGrouped(Writes(t, pkey, cols))
  {
    hide KeyFits, Types, NumColumns, MakeKey, ParseKey;
  }

  /** An update of single columns, whether it succeeds or not, keeps the length of a value. */
  lemma UpdateBalanced(db: Db, a: Adapter, t: Table, pkey: seq<int>, cols: seq<nat>, values: seq<Scalar>, i: nat)
    requires a.Real? && !Grouped(t) && Access(t, pkey, cols) && NonKey(t, cols) && Valid(t, cols, values) && i < |cols|
    requires (forall i, j :: 0 <= i < j < |cols| ==> cols[i] != cols[j]) && values[i].width == Types(t)[cols[i]].width
    requires WholeRow(db, t, pkey) && Untouched(db, a.cells, MakeKey(t, pkey, cols[i]))
    ensures var b, k := Update(a, t, pkey, cols, values).0, MakeKey(t, pkey, cols[i]);
      b.Real? && k in b.cells && |b.cells[k].newValue| == |Value(db, k)|
  {
    hide KeyFits, Types, NumColumns, PKeySize, MakeKey, UpdateColumns, Value;
    UpdateMeaning(a, t, pkey, cols, values);
    assert Keys(t, pkey, cols)[i] == MakeKey(t, pkey, cols[i]);
    ScalarLength(values[i]);
  }

  lemma ScalarLength(s: Scalar)
    ensures |ScalarBytes(s)| == s.width
  {
  }

  /** A committed run writes back what is left in the cell. */
  lemma LengthFromCell(db: Db, txn: Txn, k: Bytes)
    requires RunTxn(db, txn).1 && Executed(Real(Load(db, DeclaredKeys(txn)), [], []), txn).0.Real?
    requires var a := Executed(Real(Load(db, DeclaredKeys(txn)), [], []), txn).0;
      k in a.cells && |a.cells[k].newValue| == |Value(db, k)|
    ensures |Value(RunTxn(db, txn).0, k)| == |Value(db, k)|
  {
    hide Executed, DeclaredKeys, RunTxn, Value;
    Committed(db, txn, k);
  }

  function NextKey(x: NewOrderArgs): Bytes {
    MakeKey(District, DistrictKey(x.w, x.d), D_NEXT_O_ID)
  }

  lemma OrderHeaderBalanced(db: Db, a: Adapter, x: NewOrderArgs, n: NewOrderRow)
    requires a.Real? && WholeRow(db, District, DistrictKey(x.w, x.d)) && Untouched(db, a.cells, NextKey(x))
    ensures var b := WriteOrderHeader(a, x, n).0;
      b.Real? && NextKey(x) in b.cells && |b.cells[NextKey(x)].newValue| == |Value(db, NextKey(x))|
  {
    NewOrderTypes();
    hide KeyFits, Types, MakeKey, Update, InsertRow, Called, Writes, Value, WholeRow, Untouched;
    var dk, k := DistrictKey(x.w, x.d), OrderKey(x.w, x.d, x.o);
    var a1 := Update(a, District, dk, [D_NEXT_O_ID], [IntS(4, n.nextOId)]).0;
    var a2 := InsertRow(a1, Order, k, OrderRow(x, n)).0;
    var a3 := InsertRow(a2, NewOrder, k, [IntS(1, 0)]).0;
    UpdateBalanced(db, a, District, dk, [D_NEXT_O_ID], [IntS(4, n.nextOId)], 0);
    InsertCalled(a1, Order, k, OrderRow(x, n));
    InsertCalled(a2, NewOrder, k, [IntS(1, 0)]);
    WritesGrouped(Order, k, []);
    WritesGrouped(NewOrder, k, []);
    GroupedKeeps(db, a1, a2, Writes(Order, k, []), District, dk, D_NEXT_O_ID);
    GroupedKeeps(db, a2, a3, Writes(NewOrder, k, []), District, dk, D_NEXT_O_ID);
  }

  lemma NewOrderBalanced(db: Db, a: Adapter, x: NewOrderArgs, n: NewOrderRow)
    requires |n.lines| == |x.lines| && a.Real? && WholeRow(db, District, DistrictKey(x.w, x.d)) &&
      Untouched(db, a.cells, NextKey(x))
    ensures var b := NewOrderWrite(a, x, n).0;
      b.Real? && NextKey(x) in b.cells && |b.cells[NextKey(x)].newValue| == |Value(db, NextKey(x))|
  {
    hide KeyFits, Types, MakeKey, WriteOrderHeader, WriteLines, LineWrites, Called, Value, WholeRow, Untouched;
    var a1 := WriteOrderHeader(a, x, n).0;
    OrderHeaderBalanced(db, a, x, n);
    LinesWriteCalled(a1, x, n.lines, |x.lines|);
    forall c | c in LineWrites(x, |x.lines|) ensures ParseKey(c.key).Some? && Grouped(ParseKey(c.key).value.table) {
      LineWritesAre(x, |x.lines|, c);
    }
    GroupedKeeps(db, a1, WriteLines(a1, x, n.lines, |x.lines|).0, LineWrites(x, |x.lines|), District,
      DistrictKey(x.w, x.d), D_NEXT_O_ID);
  }

  lemma CalledReading(a: Adapter, b: Adapter, calls: seq<Call>)
    requires a.Real? && Called(a, b, calls) && OnlyReads(calls)
    ensures b.Real? && b.cells == a.cells
  {
    SameCells(a.cells, b.cells, calls);
  }

  lemma WritesHave(t: Table, pkey: seq<int>, cols: seq<nat>, i: nat)
    requires Access(t, pkey, cols) && !Grouped(t) && i < |cols|
    ensures Call(MakeKey(t, pkey, cols[i]), true) in Writes(t, pkey, cols)
  {
    hide KeyFits, Types, NumColumns, MakeKey, Grouped;
    ColumnWritesHave(t, pkey, cols, i);
  }

  lemma {:induction false} ColumnWritesHave(t: Table, pkey: seq<int>, cols: seq<nat>, i: nat)
    requires Access(t, pkey, cols) && i < |cols|
    ensures Call(MakeKey(t, pkey, cols[i]), true) in ColumnWrites(t, pkey, cols)
  {
    hide KeyFits, Types, NumColumns, MakeKey;
    if i < |cols| - 1 { ColumnWritesHave(t, pkey, cols[..|cols| - 1], i); }
  }

  lemma NewOrderLengths(db: Db, x: NewOrderArgs)
    requires Whole(db) && RunTxn(db, NewOrderTxn(x)).1
    ensures |Value(RunTxn(db, NewOrderTxn(x)).0, NextKey(x))| == |Value(db, NextKey(x))|
  {
    hide KeyFits, Types, MakeKey, NewOrderRead, NewOrderWrite, NewOrderCompute, Called, Value, WholeRow, Untouched,
      DeclaredKeys, Load, RunTxn, Reads, Writes;
    var txn := NewOrderTxn(x);
    var a := Real(Load(db, DeclaredKeys(txn)), [], []);
    var (a1, row, ok) := NewOrderRead(a, x);
    NewOrderReadCalled(a, x);
    ReadCallsRead(txn);
    CalledReading(a, a1, OrderHeaderReads(x) + LineReads(x, |x.lines|));
    WritesHave(District, DistrictKey(x.w, x.d), [D_NEXT_O_ID], 0);
    assert Call(NextKey(x), true) in WriteCalls(txn);
    LoadedForWriting(db, txn, Call(NextKey(x), true));
    RunCommits(db, txn);
    NewOrderBalanced(db, a1, x, NewOrderCompute(x, row));
    LengthFromCell(db, txn, NextKey(x));
  }

  lemma RunCommits(db: Db, txn: Txn)
    requires RunTxn(db, txn).1
    ensures Executed(Real(Load(db, DeclaredKeys(txn)), [], []), txn).1
  {
    hide Executed, DeclaredKeys, Load;
  }

  function DeliveredKey(x: DeliverArgs, i: nat): Bytes
    requires i < 2
  {
    MakeKey(Customer, CustomerKey(x.w, x.d, x.c), DELIVERED_COLUMNS[i])
  }

  /** Everything a delivery writes before the customer is in grouped tables. */
  lemma DeliverBalanced(db: Db, a: Adapter, x: DeliverArgs, n: DeliverRow, i: nat)
    requires i < 2 && a.Real? && WholeRow(db, Customer, CustomerKey(x.w, x.d, x.c)) &&
      Untouched(db, a.cells, DeliveredKey(x, i))
    ensures var b, k := DeliverWrite(a, x, n), DeliveredKey(x, i);
      b.Real? && k in b.cells && |b.cells[k].newValue| == |Value(db, k)|
  {
    DeliverTypes();
    NewOrderTypes();
    hide KeyFits, Types, MakeKey, Update, DeleteRow, MarkLines, MarkWrites, Called, Writes, Value, WholeRow;
    var k, ck, c := OrderKey(x.w, x.d, x.o), CustomerKey(x.w, x.d, x.c), DELIVERED_COLUMNS[i];
    var a1 := DeleteRow(a, NewOrder, k).0;
    var a2 := Update(a1, Order, k, [O_CARRIER_ID], [IntS(1, x.carrier)]).0;
    var a3 := MarkLines(a2, x, LINES_PER_ORDER);
    InsertCalled(a, NewOrder, k, [IntS(1, 0)]);
    UpdateCalled(a1, Order, k, [O_CARRIER_ID], [IntS(1, x.carrier)]);
    MarkLinesCalled(a2, x, LINES_PER_ORDER);
    WritesGrouped(NewOrder, k, []);
    WritesGrouped(Order, k, [O_CARRIER_ID]);
    MarkGrouped(x, LINES_PER_ORDER);
    GroupedKeeps(db, a, a1, Writes(NewOrder, k, []), Customer, ck, c);
    GroupedKeeps(db, a1, a2, Writes(Order, k, [O_CARRIER_ID]), Customer, ck, c);
    GroupedKeeps(db, a2, a3, MarkWrites(x, LINES_PER_ORDER), Customer, ck, c);
    UpdateBalanced(db, a3, Customer, ck, DELIVERED_COLUMNS, DeliveredValues(n), i);
  }

  lemma MarkGrouped(x: DeliverArgs, n: nat)
    ensures OnlyGrouped(MarkWrites(x, n))
  {
    hide MarkWrites, ParseKey;
    forall c | c in MarkWrites(x, n) ensures ParseKey(c.key).Some? && Grouped(ParseKey(c.key).value.table) {
      MarkWritesAre(x, n, c);
    }
  }

  lemma DeliverLengths(db: Db, x: DeliverArgs, i: nat)
    requires i < 2 && Whole(db) && RunTxn(db, DeliverTxn(x)).1
    ensures |Value(RunTxn(db, DeliverTxn(x)).0, DeliveredKey(x, i))| == |Value(db, DeliveredKey(x, i))|
  {
    hide KeyFits, Types, MakeKey, DeliverRead, DeliverWrite, DeliverCompute, Called, Value, WholeRow, Untouched,
      DeclaredKeys, Load, RunTxn, Reads, Writes;
    var txn, ck := DeliverTxn(x), CustomerKey(x.w, x.d, x.c);
    var a := Real(Load(db, DeclaredKeys(txn)), [], []);
    var (a1, row) := DeliverRead(a, x);
    DeliverReadCalled(a, x);
    ReadCallsRead(txn);
    CalledReading(a, a1, DeliverReads(x));
    WritesHave(Customer, ck, DELIVERED_COLUMNS, i);
    assert Call(DeliveredKey(x, i), true) in WriteCalls(txn);
    LoadedForWriting(db, txn, Call(DeliveredKey(x, i), true));
    DeliverBalanced(db, a1, x, DeliverCompute(row), i);
    LengthFromCell(db, txn, DeliveredKey(x, i));
  }

  lemma LengthKept(db: Db, txn: Txn, t: Table, pkey: seq<int>, c: nat)
    requires Whole(db) && !Grouped(t) && KeyFits(t, pkey) && c < 128
    ensures var k := MakeKey(t, pkey, c); |Value(RunTxn(db, txn).0, k)| == |Value(db, k)|
  {
    hide KeyFits, Types, MakeKey, Value, RunTxn, Whole;
    if !MayWrite(txn, Loc(t, pkey, c)) {
      ColumnFrame(db, txn, t, pkey, c);
    } else if !RunTxn(db, txn).1 {
      AbortKeeps(db, txn);
    } else {
      match txn
      case NewOrderTxn(x) => NewOrderLengths(db, x);
      case PaymentTxn(x) => PaymentLengths(db, x, Loc(t, pkey, c));
      case DeliverTxn(x) =>
        assert c == DELIVERED_COLUMNS[0] || c == DELIVERED_COLUMNS[1];
        DeliverLengths(db, x, if c == DELIVERED_COLUMNS[0] then 0 else 1);
    }
  }

  /** An aborted transaction leaves the database as it was. */
  lemma AbortKeeps(db: Db, txn: Txn)
    requires !RunTxn(db, txn).1
    ensures RunTxn(db, txn).0 == db
  {
    hide Executed, DeclaredKeys, Load;
  }

  /** Every transaction leaves the rows of the ungrouped tables whole. */
  lemma StaysWhole(db: Db, txn: Txn)
    requires Whole(db)
    ensures Whole(RunTxn(db, txn).0)
  {
    hide KeyFits, Types, NumColumns, PKeySize, MakeKey, Value, RunTxn;
    var db' := RunTxn(db, txn).0;
    forall t, pkey | !Grouped(t) && KeyFits(t, pkey) ensures WholeRow(db', t, pkey) {
      assert WholeRow(db, t, pkey);
      forall c | PKeySize(t) <= c < NumColumns(t)
        ensures |Value(db', MakeKey(t, pkey, c))| == |Value(db, MakeKey(t, pkey, c))| {
        LengthKept(db, txn, t, pkey, c);
      }
    }
  }

  // ---------------------------------------------------------------------
  // Conservation
  // ---------------------------------------------------------------------

  function WYtd(db: Db, w: I32): int {
    IntValue(db, Warehouse, WarehouseKey(w), W_YTD)
  }

  function DYtd(db: Db, w: I32, d: I8): int {
    IntValue(db, District, DistrictKey(w, d), D_YTD)
  }

  /** The year-to-date sums of the districts numbered below n - 128, over all numbers a district
      can have. */
  function DistrictSum(db: Db, w: I32, n: nat): int
    requires n <= 256
  {
    if n == 0 then 0 else DistrictSum(db, w, n - 1) + DYtd(db, w, n - 129)
  }

  const DISTRICTS: nat := 256

  function Difference(db: Db, w: I32): int {
    WYtd(db, w) - DistrictSum(db, w, DISTRICTS)
  }

  const RANGE: nat := 0x1_0000_0000_0000_0000

  lemma {:induction false} SumKept(a: Db, b: Db, w: I32, n: nat)
    requires n <= 256 && forall d: I8 :: DYtd(b, w, d) == DYtd(a, w, d)
    ensures DistrictSum(b, w, n) == DistrictSum(a, w, n)
  {
    hide DYtd;
    if n > 0 {
      SumKept(a, b, w, n - 1);
      var e: I8 := n - 129;
      assert DYtd(b, w, e) == DYtd(a, w, e);
    }
  }

  lemma I8Range(d: I8)
    ensures -128 <= d < 128
  {
    assert Fits(1, d);
  }

  lemma {:induction false} SumMoved(a: Db, b: Db, w: I32, d: I8, delta: int, n: nat)
    requires n <= 256 && DYtd(b, w, d) == DYtd(a, w, d) + delta && forall e: I8 ::
      e != d ==> DYtd(b, w, e) == DYtd(a, w, e)
    ensures DistrictSum(b, w, n) == DistrictSum(a, w, n) + if d + 128 < n then delta else 0
  {
    hide DYtd;
    I8Range(d);
    if n > 0 {
      SumMoved(a, b, w, d, delta, n - 1);
      var e: I8 := n - 129;
      assert e != d ==> DYtd(b, w, e) == DYtd(a, w, e);
    }
  }

  lemma PowRange()
    ensures Pow256(8) == RANGE
  {
    assert Pow256(1) == 0x100 && Pow256(2) == 0x1_0000 && Pow256(3) == 0x100_0000 && Pow256(4) == 0x1_0000_0000;
    assert Pow256(5) == 0x100_0000_0000 && Pow256(6) == 0x1_0000_0000_0000 && Pow256(7) == 0x100_0000_0000_0000;
  }

  /** Only a payment touches the year-to-date sums. */
  lemma OthersKeepYtd(db: Db, txn: Txn, w: I32, d: I8)
    requires !txn.PaymentTxn? || !RunTxn(db, txn).1 || txn.pay.w != w
    ensures WYtd(RunTxn(db, txn).0, w) == WYtd(db, w) && DYtd(RunTxn(db, txn).0, w, d) == DYtd(db, w, d)
  {
    hide KeyFits, MakeKey, Value, RunTxn, DecodeInt;
    if !RunTxn(db, txn).1 {
      AbortKeeps(db, txn);
    } else {
      ColumnFrame(db, txn, Warehouse, WarehouseKey(w), W_YTD);
      ColumnFrame(db, txn, District, DistrictKey(w, d), D_YTD);
    }
  }

  lemma YtdAfter(db: Db, x: PaymentArgs)
    requires Whole(db) && RunTxn(db, PaymentTxn(x)).1
    ensures WYtd(RunTxn(db, PaymentTxn(x)).0, x.w) == Wrap(8, WYtd(db, x.w) + x.amount)
    ensures DYtd(RunTxn(db, PaymentTxn(x)).0, x.w, x.d) == Wrap(8, DYtd(db, x.w, x.d) + x.amount)
  {
    hide KeyFits, RunTxn, Wrap, Whole, IntValue, Value, EncodeRow, HistoryRowKey, StoredHistory;
    PaymentBytes(db, x);
  }

  /** A payment raises both sides by its amount, up to the wrap-around of 64-bit sums. */
  lemma PaymentMovesYtd(db: Db, x: PaymentArgs) returns (p: int, q: int)
    requires Whole(db) && RunTxn(db, PaymentTxn(x)).1
    ensures var db' := RunTxn(db, PaymentTxn(x)).0;
      && WYtd(db', x.w) == WYtd(db, x.w) + x.amount - RANGE * p
      && DYtd(db', x.w, x.d) == DYtd(db, x.w, x.d) + x.amount - RANGE * q
      && forall e: I8 :: e != x.d ==> DYtd(db', x.w, e) == DYtd(db, x.w, e)
    ensures Fits(8, WYtd(db, x.w) + x.amount) ==> p == 0
    ensures Fits(8, DYtd(db, x.w, x.d) + x.amount) ==> q == 0
  {
    hide KeyFits, MakeKey, Value, RunTxn, DecodeInt, Wrap, Fits, Carry, Pow256, Whole;
    YtdAfter(db, x);
    PowRange();
    var a, b := WYtd(db, x.w) + x.amount, DYtd(db, x.w, x.d) + x.amount;
    WrapCarry(8, a);
    WrapCarry(8, b);
    p, q := Carry(8, a), Carry(8, b);
    if Fits(8, a) { WrapFits(8, a); }
    if Fits(8, b) { WrapFits(8, b); }
    forall e: I8 | e != x.d ensures DYtd(RunTxn(db, PaymentTxn(x)).0, x.w, e) == DYtd(db, x.w, e) {
      ColumnFrame(db, PaymentTxn(x), District, DistrictKey(x.w, e), D_YTD);
    }
  }

  lemma Multiple(k: int)
    ensures (RANGE * k) % RANGE == 0
  {
  }

  lemma PaymentConserves(db: Db, x: PaymentArgs)
    requires Whole(db) && RunTxn(db, PaymentTxn(x)).1
    ensures (Difference(RunTxn(db, PaymentTxn(x)).0, x.w) - Difference(db, x.w)) % RANGE == 0
    ensures NoOverflow(db, PaymentTxn(x)) ==> Difference(RunTxn(db, PaymentTxn(x)).0, x.w) == Difference(db, x.w)
  {
    hide RunTxn, Fits, Whole, WYtd, DYtd, DistrictSum;
    var db' := RunTxn(db, PaymentTxn(x)).0;
    var p, q := PaymentMovesYtd(db, x);
    SumMoved(db, db', x.w, x.d, x.amount - RANGE * q, DISTRICTS);
    I8Range(x.d);
    assert Difference(db', x.w) - Difference(db, x.w) == RANGE * (q - p);
    Multiple(q - p);
  }

  /** No transaction changes W_YTD minus the sum of the districts' D_YTD, modulo the range of the
      sums, and exactly where nothing overflows. */
  lemma StepConserves(db: Db, txn: Txn, w: I32)
    requires Whole(db)
    ensures (Difference(RunTxn(db, txn).0, w) - Difference(db, w)) % RANGE == 0
    ensures NoOverflow(db, txn) ==> Difference(RunTxn(db, txn).0, w) == Difference(db, w)
  {
    hide RunTxn, Fits, Whole, Difference, NoOverflow;
    if txn.PaymentTxn? && RunTxn(db, txn).1 && txn.pay.w == w {
      PaymentConserves(db, txn.pay);
    } else {
      OthersConserve(db, txn, w);
    }
  }

  lemma OthersConserve(db: Db, txn: Txn, w: I32)
    requires !txn.PaymentTxn? || !RunTxn(db, txn).1 || txn.pay.w != w
    ensures Difference(RunTxn(db, txn).0, w) == Difference(db, w)
  {
    var zero: I8 := 0;
    hide RunTxn, Fits, WYtd, DYtd, DistrictSum;
    var db' := RunTxn(db, txn).0;
    forall d: I8 ensures DYtd(db', w, d) == DYtd(db, w, d) { OthersKeepYtd(db, txn, w, d); }
    OthersKeepYtd(db, txn, w, zero);
    SumKept(db, db', w, DISTRICTS);
  }

  /** The payment's sums stay in range. */
  predicate NoOverflow(db: Db, txn: Txn) {
    txn.PaymentTxn? ==>
      Fits(8, WYtd(db, txn.pay.w) + txn.pay.amount) && Fits(8, DYtd(db, txn.pay.w, txn.pay.d) + txn.pay.amount)
  }

  /** Over every run of transactions, committed or aborted. */
  lemma {:induction false} RunConserves(db: Db, txns: seq<Txn>, w: I32)
    requires Whole(db)
    ensures Whole(Run(db, txns)) && (Difference(Run(db, txns), w) - Difference(db, w)) % RANGE == 0
    ensures (forall i :: 0 <= i < |txns| ==> NoOverflow(Run(db, txns[..i]), txns[i])) ==>
      Difference(Run(db, txns), w) == Difference(db, w)
  {
    hide Whole, RunTxn, Difference, NoOverflow;
    if txns != [] {
      var m := |txns| - 1;
      var before := txns[..m];
      RunConserves(db, before, w);
      StaysWhole(Run(db, before), txns[m]);
      StepConserves(Run(db, before), txns[m], w);
      forall i | 0 <= i < m ensures before[..i] == txns[..i] && before[i] == txns[i] { }
      Residues(Difference(Run(db, txns), w), Difference(Run(db, before), w), Difference(db, w));
    }
  }

  lemma Residues(a: int, b: int, c: int)
    requires (a - b) % RANGE == 0 && (b - c) % RANGE == 0
    ensures (a - c) % RANGE == 0
  {
    assert (a - b + (b - c)) % RANGE == 0;
  }

  /** What a committed payment stores as its history row passes the name check and is short by the
      24 bytes of the text, whatever the names of warehouse and district are. */
  lemma HistoryRowShort(db: Db, x: PaymentArgs)
    requires Whole(db) && RunTxn(db, PaymentTxn(x)).1
    ensures |RowTypes(History)| == 5
    ensures |Value(RunTxn(db, PaymentTxn(x)).0, HistoryRowKey(x))| + 24 == Offset(RowTypes(History), 5)
    ensures forall n :: NameMatches(RowTypes(History)[4], HistoryRow(x, n)[4])
  {
    hide Types, RowTypes, EncodeRow, RunTxn, Whole, Value, IntValue, Wrap, HistoryRowKey, StoredHistory, Offset,
      WarehouseKey, DistrictKey, CustomerKey, CustomerColumn, KeyFits, NameMatches;
    PaymentBytes(db, x);
    HistoryLength(x, PaymentRow(0, 0, 0, 0, 0, 0, [], [], []));
    forall n ensures NameMatches(RowTypes(History)[4], HistoryRow(x, n)[4]) { HistoryLength(x, n); }
  }

  lemma HistoryLength(x: PaymentArgs, n: PaymentRow)
    ensures |RowTypes(History)| == 5 == |HistoryRow(x, n)| && NameMatches(RowTypes(History)[4], HistoryRow(x, n)[4])
    ensures |EncodeRow(StoredHistory(x))| + 24 == Offset(RowTypes(History), 5)
  {
    PaymentTypes();
    hide Types, RowTypes, EncodeRow;
    HistoryBytes(x, n);
    NarrowTextShortens(RowTypes(History), HistoryRow(x, n), 4);
  }
}
