/** Which transactions commit. A delivery always does (TpccColumns.DeliverEffect), and so do the
    two that only read. */
module TpccCommits {
  import opened TpccCodec
  import opened TpccRows
  import opened TpccAdapters
  import opened TpccTables
  import opened TpccTxns
  import opened TpccRuns
  import opened TpccEffects

  /** The row is there. */
  predicate Exists(db: Db, t: Table, pkey: seq<int>)
    requires KeyFits(t, pkey)
  {
    Value(db, MakeKey(t, pkey, if Grouped(t) then 0 else PKeySize(t))) != []
  }

  /** A whole row has all of its columns or none. */
  lemma ExistsMeans(db: Db, t: Table, pkey: seq<int>, c: nat)
    requires !Grouped(t) && KeyFits(t, pkey) && WholeRow(db, t, pkey) && PKeySize(t) <= c < NumColumns(t)
    ensures Exists(db, t, pkey) <==> Value(db, MakeKey(t, pkey, c)) != []
  {
    hide KeyFits, Types, MakeKey, Value;
    RowColumns(t);
    WidthsPositive(t, c);
    WidthsPositive(t, PKeySize(t));
  }

  lemma SelectIff(db: Db, a: Adapter, t: Table, pkey: seq<int>, cols: seq<nat>)
    requires a.Real? && !Grouped(t) && Access(t, pkey, cols) && NonKey(t, cols) && cols != []
    requires WholeRow(db, t, pkey) && Serves(db, a.cells, t, pkey, cols)
    ensures var (b, row) := Select(a, t, pkey, cols);
      b.Real? && b.cells == a.cells && (row != [] <==> Exists(db, t, pkey))
  {
    hide KeyFits, Types, NumColumns, PKeySize, MakeKey, MakeScalar, SelectColumns, Value, WholeRow, Exists;
    SelectKeeps(a, t, pkey, cols);
    forall i | 0 <= i < |cols| ensures Exists(db, t, pkey) <==> Value(db, MakeKey(t, pkey, cols[i])) != [] {
      ExistsMeans(db, t, pkey, cols[i]);
    }
    if Exists(db, t, pkey) { SelectPresent(a, t, pkey, cols); } else { SelectAbsent(a, t, pkey, cols); }
  }

  // ---------------------------------------------------------------------
  // Writes that succeed
  // ---------------------------------------------------------------------

  /** The same keys, for the same use and with the same stored values. */
  ghost predicate Shape(a: map<Bytes, Cell>, b: map<Bytes, Cell>) {
    b.Keys == a.Keys && forall k :: k in a ==> b[k].write == a[k].write && b[k].value == a[k].value
  }

  predicate Writable(db: Db, cells: map<Bytes, Cell>, k: Bytes) {
    k in cells && cells[k].write && cells[k].value == Value(db, k)
  }

  lemma UpdateOk(db: Db, a: Adapter, t: Table, pkey: seq<int>, cols: seq<nat>, values: seq<Scalar>)
    requires a.Real? && Grouped(t) && Access(t, pkey, cols) && Valid(t, cols, values) &&
      Writable(db, a.cells, RowKey(t, pkey))
    ensures var (b, ok) := Update(a, t, pkey, cols, values);
      b.Real? && Shape(a.cells, b.cells) && (ok <==> Exists(db, t, pkey))
  {
    hide KeyFits, Types, MakeKey, UpdateRow, Valid, Value;
  }

  lemma InsertOk(db: Db, a: Adapter, t: Table, pkey: seq<int>, values: seq<Scalar>)
    requires a.Real? && Grouped(t) && Access(t, pkey, []) && |values| == |RowTypes(t)|
    requires forall i :: 0 <= i < |values| ==> NameMatches(RowTypes(t)[i], values[i])
    requires Writable(db, a.cells, RowKey(t, pkey))
    ensures var (b, ok) := InsertRow(a, t, pkey, values); b.Real? && Shape(a.cells, b.cells) && ok
  {
    hide KeyFits, Types, RowTypes, MakeKey, EncodeRow, NameMatches, Value;
  }

  lemma ColumnsOk(db: Db, a: Adapter, t: Table, pkey: seq<int>, cols: seq<nat>, values: seq<Scalar>)
    requires a.Real? && !Grouped(t) && Access(t, pkey, cols) && NonKey(t, cols) && Valid(t, cols, values) && cols != []
    requires forall i, j :: 0 <= i < j < |cols| ==> cols[i] != cols[j]
    requires WholeRow(db, t, pkey) && forall i :: 0 <= i < |cols| ==> Writable(db, a.cells, MakeKey(t, pkey, cols[i]))
    ensures var (b, ok) := Update(a, t, pkey, cols, values);
      b.Real? && Shape(a.cells, b.cells) && (ok <==> Exists(db, t, pkey))
  {
    hide KeyFits, Types, NumColumns, PKeySize, MakeKey, UpdateColumns, Value, WholeRow, Exists, NameMatches;
    UpdateMeaning(a, t, pkey, cols, values);
    UpdateCalled(a, t, pkey, cols, values);
    var keys := Keys(t, pkey, cols);
    forall i | 0 <= i < |keys| ensures Takes(a.cells, keys[i]) <==> Exists(db, t, pkey) {
      ExistsMeans(db, t, pkey, cols[i]);
    }
    assert keys[0] == keys[0];
  }

  lemma WritableStays(db: Db, a: map<Bytes, Cell>, b: map<Bytes, Cell>, k: Bytes)
    requires Writable(db, a, k) && Shape(a, b)
    ensures Writable(db, b, k)
  {
  }

  lemma ShapeOn(a: map<Bytes, Cell>, b: map<Bytes, Cell>, c: map<Bytes, Cell>)
    requires Shape(a, b) && Shape(b, c)
    ensures Shape(a, c)
  {
  }

  // ---------------------------------------------------------------------
  // New orders
  // ---------------------------------------------------------------------

  ghost predicate LineWritable(db: Db, cells: map<Bytes, Cell>, x: NewOrderArgs, l: Line) {
    Writable(db, cells, StockKey(l)) && Writable(db, cells, LineKey(x, l))
  }

  lemma WriteLineOk(db: Db, a: Adapter, x: NewOrderArgs, l: Line, r: LineRow)
    requires a.Real? && LineWritable(db, a.cells, x, l)
    ensures var (b, ok) := WriteLine(a, x, l, r);
      b.Real? && Shape(a.cells, b.cells) && (ok <==> Value(db, StockKey(l)) != [])
  {
    NewOrderTypes();
    hide KeyFits, Types, MakeKey, Update, InsertRow, Value, Shape, Writable;
    var sk, lk := ItemKey(l.supplyW, l.item), OrderLineKey(x.w, x.d, x.o, l.id);
    var a1 := Update(a, Stock, sk, [S_QUANTITY], [IntS(2, r.stock)]).0;
    UpdateOk(db, a, Stock, sk, [S_QUANTITY], [IntS(2, r.stock)]);
    WritableStays(db, a.cells, a1.cells, LineKey(x, l));
    InsertOk(db, a1, OrderLine, lk, OrderLineRow(l, r));
    ShapeOn(a.cells, a1.cells, WriteLine(a, x, l, r).0.cells);
  }

  lemma SameShape(a: map<Bytes, Cell>)
    ensures Shape(a, a)
  {
  }

  lemma {:induction false} WriteLinesOk(db: Db, a: Adapter, x: NewOrderArgs, rows: seq<LineRow>, n: nat)
    requires a.Real? && n <= |x.lines| == |rows| && forall l :: l in x.lines ==> LineWritable(db, a.cells, x, l)
    ensures var (b, ok) := WriteLines(a, x, rows, n);
      b.Real? && Shape(a.cells, b.cells) && (ok <==> forall i :: 0 <= i < n ==> Value(db, StockKey(x.lines[i])) != [])
  {
    hide WriteLine, StockKey, LineKey, Value, Shape, Writable;
    if n == 0 {
      SameShape(a.cells);
    } else {
      var a1, l := WriteLines(a, x, rows, n - 1).0, x.lines[n - 1];
      WriteLinesOk(db, a, x, rows, n - 1);
      assert l in x.lines;
      WritableStays(db, a.cells, a1.cells, StockKey(l));
      WritableStays(db, a.cells, a1.cells, LineKey(x, l));
      WriteLineOk(db, a1, x, l, rows[n - 1]);
      ShapeOn(a.cells, a1.cells, WriteLines(a, x, rows, n).0.cells);
    }
  }

  ghost predicate HeaderWritable(db: Db, cells: map<Bytes, Cell>, x: NewOrderArgs) {
    && Writable(db, cells, NextKey(x)) && Writable(db, cells, RowKey(Order, OrderKey(x.w, x.d, x.o)))
    && Writable(db, cells, RowKey(NewOrder, OrderKey(x.w, x.d, x.o)))
  }

  lemma WriteHeaderOk(db: Db, a: Adapter, x: NewOrderArgs, n: NewOrderRow)
    requires a.Real? && HeaderWritable(db, a.cells, x) && WholeRow(db, District, DistrictKey(x.w, x.d))
    ensures var (b, ok) := WriteOrderHeader(a, x, n);
      b.Real? && Shape(a.cells, b.cells) && (ok <==> Exists(db, District, DistrictKey(x.w, x.d)))
  {
    NewOrderTypes();
    hide KeyFits, Types, MakeKey, Update, InsertRow, Value, Shape, Writable, WholeRow, Exists;
    var dk, k := DistrictKey(x.w, x.d), OrderKey(x.w, x.d, x.o);
    var a1 := Update(a, District, dk, [D_NEXT_O_ID], [IntS(4, n.nextOId)]).0;
    ColumnsOk(db, a, District, dk, [D_NEXT_O_ID], [IntS(4, n.nextOId)]);
    var a2 := InsertRow(a1, Order, k, OrderRow(x, n)).0;
    WritableStays(db, a.cells, a1.cells, RowKey(Order, k));
    InsertOk(db, a1, Order, k, OrderRow(x, n));
    ShapeOn(a.cells, a1.cells, a2.cells);
    WritableStays(db, a.cells, a2.cells, RowKey(NewOrder, k));
    InsertOk(db, a2, NewOrder, k, [IntS(1, 0)]);
    ShapeOn(a.cells, a2.cells, WriteOrderHeader(a, x, n).0.cells);
  }

  lemma {:induction false} LineWritesHave(x: NewOrderArgs, n: nat, i: nat)
    requires i < n <= |x.lines|
    ensures Call(StockKey(x.lines[i]), true) in LineWrites(x, n) &&
      Call(LineKey(x, x.lines[i]), true) in LineWrites(x, n)
  {
    hide KeyFits, MakeKey, Writes, StockKey, LineKey;
    if i < n - 1 {
      LineWritesHave(x, n - 1, i);
    } else {
      LineCallsHere(x, x.lines[i], Call(StockKey(x.lines[i]), true));
      LineCallsHere(x, x.lines[i], Call(LineKey(x, x.lines[i]), true));
    }
  }

  lemma LoadedWritable(db: Db, txn: Txn, k: Bytes)
    requires Call(k, true) in WriteCalls(txn)
    ensures Writable(db, Load(db, DeclaredKeys(txn)), k)
  {
    hide WriteCalls, DeclaredKeys, Load, Value;
    LoadedForWriting(db, txn, Call(k, true));
  }

  lemma NewOrderWritable(db: Db, x: NewOrderArgs)
    ensures var cells := Load(db, DeclaredKeys(NewOrderTxn(x)));
      HeaderWritable(db, cells, x) && forall l :: l in x.lines ==> LineWritable(db, cells, x, l)
  {
    hide KeyFits, Types, MakeKey, DeclaredKeys, Load, Writable, Writes, LineWrites;
    var txn, k := NewOrderTxn(x), OrderKey(x.w, x.d, x.o);
    WritesHave(District, DistrictKey(x.w, x.d), [D_NEXT_O_ID], 0);
    RowWrites(Order, k, [], Call(RowKey(Order, k), true));
    RowWrites(NewOrder, k, [], Call(RowKey(NewOrder, k), true));
    LoadedWritable(db, txn, NextKey(x));
    LoadedWritable(db, txn, RowKey(Order, k));
    LoadedWritable(db, txn, RowKey(NewOrder, k));
    forall l | l in x.lines ensures LineWritable(db, Load(db, DeclaredKeys(txn)), x, l) {
      var i :| 0 <= i < |x.lines| && x.lines[i] == l;
      LineWritesHave(x, |x.lines|, i);
      LoadedWritable(db, txn, StockKey(l));
      LoadedWritable(db, txn, LineKey(x, l));
    }
  }

  /** The rows a new order needs: its warehouse, district and customer. */
  ghost predicate OrderPlaced(db: Db, x: NewOrderArgs) {
    && Exists(db, Warehouse, WarehouseKey(x.w)) && Exists(db, District, DistrictKey(x.w, x.d))
    && Exists(db, Customer, CustomerKey(x.w, x.d, x.c))
  }

  lemma ReadHeaderIff(db: Db, x: NewOrderArgs)
    requires Whole(db)
    ensures ReadOrderHeader(Real(Load(db, DeclaredKeys(NewOrderTxn(x))), [], []), x).2 <==> OrderPlaced(db, x)
  {
    hide KeyFits, Types, MakeKey, Select, Reads, WholeRow, Serves, DeclaredKeys, Load, LineReads, Exists;
    var txn := NewOrderTxn(x);
    var a := Real(Load(db, DeclaredKeys(txn)), [], []);
    var wk, dk, ck := WarehouseKey(x.w), DistrictKey(x.w, x.d), CustomerKey(x.w, x.d, x.c);
    ReadsServed(db, txn, Warehouse, wk, [W_TAX]);
    ReadsServed(db, txn, Customer, ck, CREDIT_COLUMNS);
    ReadsServed(db, txn, District, dk, NEXT_COLUMNS);
    SelectIff(db, a, Warehouse, wk, [W_TAX]);
    var a1 := Select(a, Warehouse, wk, [W_TAX]).0;
    SelectIff(db, a1, Customer, ck, CREDIT_COLUMNS);
    var a2 := Select(a1, Customer, ck, CREDIT_COLUMNS).0;
    SelectIff(db, a2, District, dk, NEXT_COLUMNS);
  }

  lemma {:induction false} ReadLinesOk(db: Db, a: Adapter, x: NewOrderArgs, n: nat)
    requires a.Real? && LinesServed(db, a.cells, x) && n <= |x.lines|
    ensures ReadLines(a, x, n).2
  {
    hide ReadLine, Price, Quantity, DistInfo, StockKey, RowKey, Value, ItemKey;
    if n > 0 {
      ReadLinesOk(db, a, x, n - 1);
      ReadLinesMeaning(db, a, x, n - 1);
      assert x.lines[n - 1] in x.lines;
      ReadLineMeaning(db, ReadLines(a, x, n - 1).0, x, x.lines[n - 1]);
    }
  }

  lemma NewOrderReadIff(db: Db, x: NewOrderArgs)
    requires Whole(db)
    ensures NewOrderRead(Real(Load(db, DeclaredKeys(NewOrderTxn(x))), [], []), x).2 <==> OrderPlaced(db, x)
  {
    hide ReadOrderHeader, ReadLines, DeclaredKeys, Load, Whole, LinesServed, OrderPlaced;
    var a := Real(Load(db, DeclaredKeys(NewOrderTxn(x))), [], []);
    ReadHeaderIff(db, x);
    ReadHeaderMeaning(db, x);
    LinesAreServed(db, x);
    ReadLinesOk(db, ReadOrderHeader(a, x).0, x, |x.lines|);
  }

  lemma NewOrderWriteIff(db: Db, a: Adapter, x: NewOrderArgs, n: NewOrderRow)
    requires a.Real? && |n.lines| == |x.lines| && WholeRow(db, District, DistrictKey(x.w, x.d))
    requires HeaderWritable(db, a.cells, x) && forall l :: l in x.lines ==> LineWritable(db, a.cells, x, l)
    ensures NewOrderWrite(a, x, n).1 <==>
      Exists(db, District, DistrictKey(x.w, x.d)) && forall l :: l in x.lines ==> Value(db, StockKey(l)) != []
  {
    hide WriteOrderHeader, WriteLines, Value, StockKey, LineKey, WholeRow, Exists, HeaderWritable, Shape, Writable;
    var a1 := WriteOrderHeader(a, x, n).0;
    WriteHeaderOk(db, a, x, n);
    forall l | l in x.lines ensures LineWritable(db, a1.cells, x, l) {
      WritableStays(db, a.cells, a1.cells, StockKey(l));
      WritableStays(db, a.cells, a1.cells, LineKey(x, l));
    }
    WriteLinesOk(db, a1, x, n.lines, |x.lines|);
  }

  lemma RunIs(db: Db, txn: Txn)
    ensures RunTxn(db, txn).1 == Executed(Real(Load(db, DeclaredKeys(txn)), [], []), txn).1
  {
    hide Executed, DeclaredKeys, Load, ReadCalls, WriteCalls;
    ExecutedCalls(Real(Load(db, DeclaredKeys(txn)), [], []), txn);
  }

  /** A new order commits exactly if its warehouse, district and customer exist, and a stock row
      for each of its lines. Items need not. */
  lemma NewOrderCommitsIff(db: Db, x: NewOrderArgs)
    requires Whole(db)
    ensures RunTxn(db, NewOrderTxn(x)).1 <==> OrderPlaced(db, x) && forall l ::
      l in x.lines ==> Value(db, StockKey(l)) != []
  {
    hide RunTxn, NewOrderRead, NewOrderWrite, NewOrderCompute, DeclaredKeys, Load, HeaderWritable, LineWritable,
      StockKey, Value, Exists, WholeRow;
    RunIs(db, NewOrderTxn(x));
    NewOrderReadIff(db, x);
    NewOrderReadMeaning(db, x);
    NewOrderWritable(db, x);
    var (a, row, ok) := NewOrderRead(Real(Load(db, DeclaredKeys(NewOrderTxn(x))), [], []), x);
    NewOrderWriteIff(db, a, x, NewOrderCompute(x, row));
  }

  // ---------------------------------------------------------------------
  // Payments
  // ---------------------------------------------------------------------

  ghost predicate PayerExists(db: Db, x: PaymentArgs) {
    && Exists(db, Warehouse, WarehouseKey(x.w)) && Exists(db, District, DistrictKey(x.w, x.d))
    && Exists(db, Customer, CustomerKey(x.cw, x.cd, x.c))
  }

  lemma PaymentReadIff(db: Db, x: PaymentArgs)
    requires Whole(db)
    ensures PaymentRead(Real(Load(db, DeclaredKeys(PaymentTxn(x))), [], []), x).2 <==> PayerExists(db, x)
  {
    hide KeyFits, Types, MakeKey, Select, Reads, WholeRow, Serves, DeclaredKeys, Load, Exists;
    var txn := PaymentTxn(x);
    var a := Real(Load(db, DeclaredKeys(txn)), [], []);
    var wk, dk, ck := WarehouseKey(x.w), DistrictKey(x.w, x.d), CustomerKey(x.cw, x.cd, x.c);
    ReadsServed(db, txn, Warehouse, wk, WAREHOUSE_COLUMNS);
    ReadsServed(db, txn, District, dk, DISTRICT_COLUMNS);
    ReadsServed(db, txn, Customer, ck, CUSTOMER_COLUMNS);
    SelectIff(db, a, Warehouse, wk, WAREHOUSE_COLUMNS);
    var a1 := ReadPaymentWarehouse(a, x).0;
    SelectIff(db, a1, District, dk, DISTRICT_COLUMNS);
    var a2 := ReadPaymentDistrict(a1, x).0;
    SelectIff(db, a2, Customer, ck, CUSTOMER_COLUMNS);
  }

  ghost predicate PaymentWritable(db: Db, cells: map<Bytes, Cell>, x: PaymentArgs) {
    && Writable(db, cells, WYtdKey(x.w)) && Writable(db, cells, DYtdKey(x.w, x.d))
    && forall i :: 0 <= i < |PAID_COLUMNS| ==> Writable(db, cells, CustomerColumn(x, PAID_COLUMNS[i]))
  }

  lemma PaymentLoaded(db: Db, x: PaymentArgs)
    ensures PaymentWritable(db, Load(db, DeclaredKeys(PaymentTxn(x))), x)
  {
    hide KeyFits, Types, MakeKey, DeclaredKeys, Load, Writable, Writes;
    var txn, ck := PaymentTxn(x), CustomerKey(x.cw, x.cd, x.c);
    WritesHave(Warehouse, WarehouseKey(x.w), [W_YTD], 0);
    WritesHave(District, DistrictKey(x.w, x.d), [D_YTD], 0);
    LoadedWritable(db, txn, WYtdKey(x.w));
    LoadedWritable(db, txn, DYtdKey(x.w, x.d));
    forall i | 0 <= i < |PAID_COLUMNS|
      ensures Writable(db, Load(db, DeclaredKeys(txn)), CustomerColumn(x, PAID_COLUMNS[i])) {
      WritesHave(Customer, ck, PAID_COLUMNS, i);
      LoadedWritable(db, txn, CustomerColumn(x, PAID_COLUMNS[i]));
    }
  }

  lemma PaymentWriteIff(db: Db, a: Adapter, x: PaymentArgs, n: PaymentRow)
    requires Whole(db) && a.Real? && PaymentWritable(db, a.cells, x)
    ensures PaymentWrite(a, x, n).1 <==> PayerExists(db, x)
  {
    PaymentValues(n);
    hide KeyFits, Types, MakeKey, Update, InsertRow, Writable, Shape, WholeRow, Exists, PaidValues;
    var wk, dk, ck := WarehouseKey(x.w), DistrictKey(x.w, x.d), CustomerKey(x.cw, x.cd, x.c);
    var a1 := WritePaymentWarehouse(a, x, n).0;
    ColumnsOk(db, a, Warehouse, wk, [W_YTD], [IntS(8, n.wYtd)]);
    WritableStays(db, a.cells, a1.cells, DYtdKey(x.w, x.d));
    var a2 := WritePaymentDistrict(a1, x, n).0;
    ColumnsOk(db, a1, District, dk, [D_YTD], [IntS(8, n.dYtd)]);
    ShapeOn(a.cells, a1.cells, a2.cells);
    forall i | 0 <= i < |PAID_COLUMNS| ensures Writable(db, a2.cells, MakeKey(Customer, ck, PAID_COLUMNS[i])) {
      WritableStays(db, a.cells, a2.cells, CustomerColumn(x, PAID_COLUMNS[i]));
    }
    ColumnsOk(db, a2, Customer, ck, PAID_COLUMNS, PaidValues(n));
  }

  /** A payment commits exactly if its warehouse, district and customer exist. */
  lemma PaymentCommitsIff(db: Db, x: PaymentArgs)
    requires Whole(db)
    ensures RunTxn(db, PaymentTxn(x)).1 <==> PayerExists(db, x)
  {
    hide RunTxn, PaymentRead, PaymentWrite, PaymentCompute, DeclaredKeys, Load, PaymentWritable, PayerExists, Whole,
      IntValue, PaidWidths;
    RunIs(db, PaymentTxn(x));
    PaymentReadIff(db, x);
    PaymentReadMeaning(db, x);
    PaymentLoaded(db, x);
    var (a, row, ok) := PaymentRead(Real(Load(db, DeclaredKeys(PaymentTxn(x))), [], []), x);
    PaymentWriteIff(db, a, x, PaymentCompute(x, row));
  }
}
