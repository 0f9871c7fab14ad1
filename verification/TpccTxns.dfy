/** The five TPC-C transactions of execution/tpcc. Each reads, computes and writes through
    an adapter; the workload runs reading and writing alone, on an adapter that collects the
    keys. */
module TpccTxns {
  import opened TpccCodec
  import opened TpccRows
  import opened TpccAdapters
  import opened TpccTables

  const LINES_PER_ORDER: nat := 10

  // Columns by table
  const W_NAME: nat := 1
  const W_ADDRESS: nat := 2
  const W_TAX: nat := 3
  const W_YTD: nat := 4
  const D_NAME: nat := 2
  const D_ADDRESS: nat := 3
  const D_TAX: nat := 4
  const D_YTD: nat := 5
  const D_NEXT_O_ID: nat := 6
  const C_FULL_NAME: nat := 3
  const C_ADDRESS: nat := 4
  const C_PHONE: nat := 5
  const C_SINCE: nat := 6
  const C_CREDIT: nat := 7
  const C_CREDIT_LIM: nat := 8
  const C_DISCOUNT: nat := 9
  const C_BALANCE: nat := 10
  const C_YTD_PAYMENT: nat := 11
  const C_PAYMENT_CNT: nat := 12
  const C_DELIVERY_CNT: nat := 13
  const C_DATA: nat := 14
  const O_C_ID: nat := 3
  const O_ENTRY_D: nat := 4
  const O_CARRIER_ID: nat := 5
  const OL_I_ID: nat := 4
  const OL_SUPPLY_W_ID: nat := 5
  const OL_DELIVERY_D: nat := 6
  const OL_QUANTITY: nat := 7
  const OL_AMOUNT: nat := 8
  const I_NAME: nat := 3
  const I_PRICE: nat := 4
  const I_DATA: nat := 5
  const S_QUANTITY: nat := 2
  const S_ALL_DIST: nat := 3

  /** The i-th value of a row. The code does not look at the length of a row that is not empty;
      beyond its end the value is taken to be zero. */
  function IntAt(row: seq<Scalar>, i: nat): int {
    if i < |row| && row[i].IntS? then row[i].value else 0
  }

  function TextAt(row: seq<Scalar>, i: nat): (s: Scalar)
    ensures s.TextS?
  {
    if i < |row| && row[i].TextS? then row[i] else TextS(0, [])
  }

  // ---------------------------------------------------------------------
  // Payment
  // ---------------------------------------------------------------------

  datatype PaymentArgs = PaymentArgs(w: I32, d: I8, cw: I32, cd: I8, c: I32, amount: I32, datetime: I64, h: I32)
  datatype PaymentRow = PaymentRow(wYtd: int, dYtd: int, balance: int, ytdPayment: int, paymentCnt: int,
                                   dataWidth: nat, data: Bytes, wName: Bytes, dName: Bytes)

  const WAREHOUSE_COLUMNS: seq<nat> := [W_NAME, W_ADDRESS, W_YTD]
  const DISTRICT_COLUMNS: seq<nat> := [D_NAME, D_ADDRESS, D_YTD]
  const CUSTOMER_COLUMNS: seq<nat> := [C_FULL_NAME, C_ADDRESS, C_PHONE, C_SINCE, C_CREDIT, C_CREDIT_LIM, C_DISCOUNT,
    C_BALANCE,
                                       C_YTD_PAYMENT, C_PAYMENT_CNT, C_DATA]
  const PAID_COLUMNS: seq<nat> := [C_BALANCE, C_YTD_PAYMENT, C_PAYMENT_CNT, C_DATA]

  function ReadPaymentWarehouse(a: Adapter, x: PaymentArgs): (Adapter, seq<Scalar>) {
    hide KeyFits, Types, Select;
    Select(a, Warehouse, WarehouseKey(x.w), WAREHOUSE_COLUMNS)
  }

  function ReadPaymentDistrict(a: Adapter, x: PaymentArgs): (Adapter, seq<Scalar>) {
    hide KeyFits, Types, Select;
    Select(a, District, DistrictKey(x.w, x.d), DISTRICT_COLUMNS)
  }

  function ReadPaymentCustomer(a: Adapter, x: PaymentArgs): (Adapter, seq<Scalar>) {
    hide KeyFits, Types, Select;
    Select(a, Customer, CustomerKey(x.cw, x.cd, x.c), CUSTOMER_COLUMNS)
  }

  function PaymentRead(a: Adapter, x: PaymentArgs): (Adapter, PaymentRow, bool) {
    var (a1, w) := ReadPaymentWarehouse(a, x);
    var (a2, d) := ReadPaymentDistrict(a1, x);
    var (a3, c) := ReadPaymentCustomer(a2, x);
    (a3,
     PaymentRow(IntAt(w, 2), IntAt(d, 2), IntAt(c, 7), IntAt(c, 8), IntAt(c, 9), TextAt(c, 10).width,
       TextAt(c, 10).buffer,
                TextAt(w, 0).buffer, TextAt(d, 0).buffer),
     w != [] && d != [] && c != [])
  }

  function PaymentCompute(x: PaymentArgs, r: PaymentRow): PaymentRow {
    r.(wYtd := Wrap(8, r.wYtd + x.amount), dYtd := Wrap(8, r.dYtd + x.amount), balance := Wrap(8, r.balance - x.amount),
       ytdPayment := Wrap(8, r.ytdPayment + x.amount), paymentCnt := Wrap(2, r.paymentCnt + 1))
  }

  lemma PaymentTypes()
    ensures Types(Warehouse)[W_YTD] == Int(8) && Types(District)[D_YTD] == Int(8)
    ensures Types(Customer)[C_BALANCE] == Types(Customer)[C_YTD_PAYMENT] == Int(8)
    ensures Types(Customer)[C_PAYMENT_CNT] == Int(2) && Types(Customer)[C_DATA] == Text(250)
    ensures RowTypes(History) == [Int(1), Int(4), Int(8), Int(4), Text(24)]
  {
  }

  function WritePaymentWarehouse(a: Adapter, x: PaymentArgs, n: PaymentRow): (Adapter, bool) {
    PaymentTypes();
    hide KeyFits, Types, Update;
    Update(a, Warehouse, WarehouseKey(x.w), [W_YTD], [IntS(8, n.wYtd)])
  }

  function WritePaymentDistrict(a: Adapter, x: PaymentArgs, n: PaymentRow): (Adapter, bool) {
    PaymentTypes();
    hide KeyFits, Types, Update;
    Update(a, District, DistrictKey(x.w, x.d), [D_YTD], [IntS(8, n.dYtd)])
  }

  function PaidValues(n: PaymentRow): seq<Scalar> {
    [IntS(8, n.balance), IntS(8, n.ytdPayment), IntS(2, n.paymentCnt), TextS(n.dataWidth, n.data)]
  }

  function WritePaymentCustomer(a: Adapter, x: PaymentArgs, n: PaymentRow): (Adapter, bool) {
    PaymentTypes();
    hide KeyFits, Types, Update;
    Update(a, Customer, CustomerKey(x.cw, x.cd, x.c), PAID_COLUMNS, PaidValues(n))
  }

  /** The history text keeps the empty type it was made with, so none of it is stored. */
  function HistoryRow(x: PaymentArgs, n: PaymentRow): seq<Scalar> {
    [IntS(1, x.cd), IntS(4, x.cw), IntS(8, x.datetime), IntS(4, x.amount),
      TextS(0, n.wName + [32, 32, 32, 32] + n.dName)]
  }

  function WriteHistory(a: Adapter, x: PaymentArgs, n: PaymentRow): (Adapter, bool) {
    PaymentTypes();
    hide KeyFits, Types, InsertRow;
    InsertRow(a, History, HistoryKey(x.w, x.d, x.c, x.h), HistoryRow(x, n))
  }

  function PaymentWrite(a: Adapter, x: PaymentArgs, n: PaymentRow): (Adapter, bool) {
    var (a1, w) := WritePaymentWarehouse(a, x, n);
    var (a2, d) := WritePaymentDistrict(a1, x, n);
    var (a3, c) := WritePaymentCustomer(a2, x, n);
    (WriteHistory(a3, x, n).0, w && d && c)
  }

  function PaymentReads(x: PaymentArgs): seq<Call> {
    hide KeyFits, Types, Reads;
    Reads(Warehouse, WarehouseKey(x.w), WAREHOUSE_COLUMNS) +
    Reads(District, DistrictKey(x.w, x.d), DISTRICT_COLUMNS) +
    Reads(Customer, CustomerKey(x.cw, x.cd, x.c), CUSTOMER_COLUMNS)
  }

  function PaymentWrites(x: PaymentArgs): seq<Call> {
    hide KeyFits, Types, Writes;
    Writes(Warehouse, WarehouseKey(x.w), [W_YTD]) +
    Writes(District, DistrictKey(x.w, x.d), [D_YTD]) +
    Writes(Customer, CustomerKey(x.cw, x.cd, x.c), PAID_COLUMNS) +
    Writes(History, HistoryKey(x.w, x.d, x.c, x.h), [])
  }

  lemma PaymentReadCalled(a: Adapter, x: PaymentArgs)
    ensures Called(a, PaymentRead(a, x).0, PaymentReads(x))
  {
    hide Select, Called, Reads, KeyFits, Types;
    var a1 := ReadPaymentWarehouse(a, x).0;
    var a2 := ReadPaymentDistrict(a1, x).0;
    var a3 := ReadPaymentCustomer(a2, x).0;
    SelectCalled(a, Warehouse, WarehouseKey(x.w), WAREHOUSE_COLUMNS);
    SelectCalled(a1, District, DistrictKey(x.w, x.d), DISTRICT_COLUMNS);
    SelectCalled(a2, Customer, CustomerKey(x.cw, x.cd, x.c), CUSTOMER_COLUMNS);
    var r1, r2 := Reads(Warehouse, WarehouseKey(x.w), WAREHOUSE_COLUMNS),
      Reads(District, DistrictKey(x.w, x.d), DISTRICT_COLUMNS);
    CalledTrans(a, a1, a2, r1, r2);
    CalledTrans(a, a2, a3, r1 + r2, Reads(Customer, CustomerKey(x.cw, x.cd, x.c), CUSTOMER_COLUMNS));
  }

  lemma PaymentWriteCalled(a: Adapter, x: PaymentArgs, n: PaymentRow)
    ensures Called(a, PaymentWrite(a, x, n).0, PaymentWrites(x))
  {
    PaymentTypes();
    hide Update, InsertRow, Called, Writes, KeyFits, Types, RowTypes, NameMatches;
    PaymentValues(n);
    var a1 := WritePaymentWarehouse(a, x, n).0;
    var a2 := WritePaymentDistrict(a1, x, n).0;
    var a3 := WritePaymentCustomer(a2, x, n).0;
    var a4 := WriteHistory(a3, x, n).0;
    UpdateCalled(a, Warehouse, WarehouseKey(x.w), [W_YTD], [IntS(8, n.wYtd)]);
    UpdateCalled(a1, District, DistrictKey(x.w, x.d), [D_YTD], [IntS(8, n.dYtd)]);
    UpdateCalled(a2, Customer, CustomerKey(x.cw, x.cd, x.c), PAID_COLUMNS, PaidValues(n));
    HistoryCalled(a3, x, n);
    var r1, r2 := Writes(Warehouse, WarehouseKey(x.w), [W_YTD]), Writes(District, DistrictKey(x.w, x.d), [D_YTD]);
    var r3, r4 := Writes(Customer, CustomerKey(x.cw, x.cd, x.c), PAID_COLUMNS),
      Writes(History, HistoryKey(x.w, x.d, x.c, x.h), []);
    CalledTrans(a, a1, a2, r1, r2);
    CalledTrans(a, a2, a3, r1 + r2, r3);
    CalledTrans(a, a3, a4, r1 + r2 + r3, r4);
  }

  lemma PaymentValues(n: PaymentRow)
    ensures Valid(Warehouse, [W_YTD], [IntS(8, n.wYtd)]) && Valid(District, [D_YTD], [IntS(8, n.dYtd)])
    ensures Valid(Customer, PAID_COLUMNS, PaidValues(n))
  {
    PaymentTypes();
    hide Types;
  }

  lemma HistoryCalled(a: Adapter, x: PaymentArgs, n: PaymentRow)
    ensures Called(a, WriteHistory(a, x, n).0, Writes(History, HistoryKey(x.w, x.d, x.c, x.h), []))
  {
    PaymentTypes();
    hide InsertRow, Called, Writes, KeyFits, Types;
    InsertCalled(a, History, HistoryKey(x.w, x.d, x.c, x.h), HistoryRow(x, n));
  }

  // ---------------------------------------------------------------------
  // New order
  // ---------------------------------------------------------------------

  datatype Line = Line(id: I8, supplyW: I32, item: I32, quantity: I8)
  datatype NewOrderArgs = NewOrderArgs(w: I32, d: I8, c: I32, o: I32, datetime: I64, itemW: I32, lines: seq<Line>)
  datatype LineRow = LineRow(price: int, stock: int, amount: int, distWidth: nat, dist: Bytes)
  datatype NewOrderRow = NewOrderRow(nextOId: int, allLocal: bool, lines: seq<LineRow>)

  const CREDIT_COLUMNS: seq<nat> := [C_DISCOUNT, C_FULL_NAME, C_CREDIT]
  const NEXT_COLUMNS: seq<nat> := [D_TAX, D_NEXT_O_ID]
  const ITEM_COLUMNS: seq<nat> := [I_PRICE, I_NAME, I_DATA]
  const STOCK_COLUMNS: seq<nat> := [S_QUANTITY, S_ALL_DIST]

  /** The customer's rows are read for the client only; the model keeps what later steps use. */
  function ReadOrderHeader(a: Adapter, x: NewOrderArgs): (Adapter, int, bool) {
    hide KeyFits, Types, Select;
    var (a1, w) := Select(a, Warehouse, WarehouseKey(x.w), [W_TAX]);
    var (a2, c) := Select(a1, Customer, CustomerKey(x.w, x.d, x.c), CREDIT_COLUMNS);
    var (a3, d) := Select(a2, District, DistrictKey(x.w, x.d), NEXT_COLUMNS);
    (a3, IntAt(d, 1), w != [] && c != [] && d != [])
  }

  function ReadLine(a: Adapter, x: NewOrderArgs, l: Line): (Adapter, LineRow, bool) {
    hide KeyFits, Types, Select;
    var (a1, item) := Select(a, Item, ItemKey(x.itemW, l.item), ITEM_COLUMNS);
    var (a2, stock) := Select(a1, Stock, ItemKey(l.supplyW, l.item), STOCK_COLUMNS);
    (a2, LineRow(IntAt(item, 0), IntAt(stock, 0), 0, if stock == [] then 0 else 24, if stock == [] then []
      else Window(TextAt(stock, 1).buffer, 0, 24)),
     item != [] && stock != [])
  }

  function ReadLines(a: Adapter, x: NewOrderArgs, n: nat): (r: (Adapter, seq<LineRow>, bool))
    requires n <= |x.lines|
    ensures |r.1| == n
  {
    if n == 0 then (a, [], true)
    else
      var (a1, rows, ok) := ReadLines(a, x, n - 1);
      var (a2, row, found) := ReadLine(a1, x, x.lines[n - 1]);
      (a2, rows + [row], ok && found)
  }

  function NewOrderRead(a: Adapter, x: NewOrderArgs): (r: (Adapter, NewOrderRow, bool))
    ensures |r.1.lines| == |x.lines|
  {
    var (a1, next, ok) := ReadOrderHeader(a, x);
    var (a2, rows, found) := ReadLines(a1, x, |x.lines|);
    (a2, NewOrderRow(next, false, rows), ok && found)
  }

  /** Stock falls by the quantity, or rises by 91 less the quantity. */
  function ComputeLine(l: Line, r: LineRow): LineRow {
    r.(amount := Wrap(4, l.quantity * r.price),
       stock := Wrap(2, if r.stock > l.quantity then r.stock - l.quantity else r.stock - (l.quantity - 91)))
  }

  function NewOrderCompute(x: NewOrderArgs, r: NewOrderRow): (n: NewOrderRow)
    requires |r.lines| == |x.lines|
    ensures |n.lines| == |x.lines|
  {
    NewOrderRow(Wrap(4, r.nextOId + 1), forall l :: l in x.lines ==> l.supplyW == x.w,
                seq(|x.lines|, i requires 0 <= i < |x.lines| => ComputeLine(x.lines[i], r.lines[i])))
  }

  lemma NewOrderTypes()
    ensures Types(District)[D_NEXT_O_ID] == Int(4) && Types(Stock)[S_QUANTITY] == Int(2)
    ensures RowTypes(Order) == [Int(4), Int(8), Int(1), Int(1), Int(1)] && RowTypes(NewOrder) == [Int(1)]
    ensures RowTypes(OrderLine) == [Int(4), Int(4), Int(8), Int(1), Int(4), Text(24)]
  {
  }

  function OrderRow(x: NewOrderArgs, n: NewOrderRow): seq<Scalar> {
    [IntS(4, x.c), IntS(8, x.datetime), IntS(1, 0), IntS(1, Wrap(1, |x.lines|)), IntS(1, if n.allLocal then 1 else 0)]
  }

  function WriteOrderHeader(a: Adapter, x: NewOrderArgs, n: NewOrderRow): (Adapter, bool) {
    NewOrderTypes();
    hide KeyFits, Types, Update, InsertRow;
    var (a1, d) := Update(a, District, DistrictKey(x.w, x.d), [D_NEXT_O_ID], [IntS(4, n.nextOId)]);
    var (a2, o) := InsertRow(a1, Order, OrderKey(x.w, x.d, x.o), OrderRow(x, n));
    var (a3, no) := InsertRow(a2, NewOrder, OrderKey(x.w, x.d, x.o), [IntS(1, 0)]);
    (a3, d && o && no)
  }

  function OrderLineRow(l: Line, r: LineRow): seq<Scalar> {
    [IntS(4, l.item), IntS(4, l.supplyW), IntS(8, 0), IntS(1, l.quantity), IntS(4, r.amount),
      TextS(r.distWidth, r.dist)]
  }

  function WriteLine(a: Adapter, x: NewOrderArgs, l: Line, r: LineRow): (Adapter, bool) {
    NewOrderTypes();
    hide KeyFits, Types, Update, InsertRow;
    var (a1, s) := Update(a, Stock, ItemKey(l.supplyW, l.item), [S_QUANTITY], [IntS(2, r.stock)]);
    var (a2, ol) := InsertRow(a1, OrderLine, OrderLineKey(x.w, x.d, x.o, l.id), OrderLineRow(l, r));
    (a2, s && ol)
  }

  function WriteLines(a: Adapter, x: NewOrderArgs, rows: seq<LineRow>, n: nat): (Adapter, bool)
    requires n <= |x.lines| == |rows|
  {
    if n == 0 then (a, true)
    else
      var (a1, ok) := WriteLines(a, x, rows, n - 1);
      var (a2, wrote) := WriteLine(a1, x, x.lines[n - 1], rows[n - 1]);
      (a2, ok && wrote)
  }

  function NewOrderWrite(a: Adapter, x: NewOrderArgs, n: NewOrderRow): (Adapter, bool)
    requires |n.lines| == |x.lines|
  {
    var (a1, ok) := WriteOrderHeader(a, x, n);
    var (a2, wrote) := WriteLines(a1, x, n.lines, |x.lines|);
    (a2, ok && wrote)
  }

  function OrderHeaderReads(x: NewOrderArgs): seq<Call> {
    hide KeyFits, Types, Reads;
    Reads(Warehouse, WarehouseKey(x.w), [W_TAX]) + Reads(Customer, CustomerKey(x.w, x.d, x.c), CREDIT_COLUMNS) +
    Reads(District, DistrictKey(x.w, x.d), NEXT_COLUMNS)
  }

  function LineReads(x: NewOrderArgs, n: nat): seq<Call>
    requires n <= |x.lines|
  {
    hide KeyFits, Types, Reads;
    if n == 0 then []
    else
      var l := x.lines[n - 1];
      LineReads(x, n - 1) + (Reads(Item, ItemKey(x.itemW, l.item), ITEM_COLUMNS) +
        Reads(Stock, ItemKey(l.supplyW, l.item), STOCK_COLUMNS))
  }

  function OrderHeaderWrites(x: NewOrderArgs): seq<Call> {
    hide KeyFits, Types, Writes;
    Writes(District, DistrictKey(x.w, x.d), [D_NEXT_O_ID]) + Writes(Order, OrderKey(x.w, x.d, x.o), []) +
    Writes(NewOrder, OrderKey(x.w, x.d, x.o), [])
  }

  function LineWrites(x: NewOrderArgs, n: nat): seq<Call>
    requires n <= |x.lines|
  {
    hide KeyFits, Types, Writes;
    if n == 0 then []
    else
      var l := x.lines[n - 1];
      LineWrites(x, n - 1) + (Writes(Stock, ItemKey(l.supplyW, l.item), [S_QUANTITY]) +
        Writes(OrderLine, OrderLineKey(x.w, x.d, x.o, l.id), []))
  }

  lemma OrderHeaderReadCalled(a: Adapter, x: NewOrderArgs)
    ensures Called(a, ReadOrderHeader(a, x).0, OrderHeaderReads(x))
  {
    hide Select, Called, Reads, KeyFits, Types;
    var a1 := Select(a, Warehouse, WarehouseKey(x.w), [W_TAX]).0;
    var a2 := Select(a1, Customer, CustomerKey(x.w, x.d, x.c), CREDIT_COLUMNS).0;
    var a3 := Select(a2, District, DistrictKey(x.w, x.d), NEXT_COLUMNS).0;
    SelectCalled(a, Warehouse, WarehouseKey(x.w), [W_TAX]);
    SelectCalled(a1, Customer, CustomerKey(x.w, x.d, x.c), CREDIT_COLUMNS);
    SelectCalled(a2, District, DistrictKey(x.w, x.d), NEXT_COLUMNS);
    var r1, r2 := Reads(Warehouse, WarehouseKey(x.w), [W_TAX]),
      Reads(Customer, CustomerKey(x.w, x.d, x.c), CREDIT_COLUMNS);
    CalledTrans(a, a1, a2, r1, r2);
    CalledTrans(a, a2, a3, r1 + r2, Reads(District, DistrictKey(x.w, x.d), NEXT_COLUMNS));
  }

  lemma LineReadCalled(a: Adapter, x: NewOrderArgs, l: Line)
    ensures Access(Item, ItemKey(x.itemW, l.item), ITEM_COLUMNS) &&
      Access(Stock, ItemKey(l.supplyW, l.item), STOCK_COLUMNS)
    ensures Called(a, ReadLine(a, x, l).0,
      Reads(Item, ItemKey(x.itemW, l.item), ITEM_COLUMNS) + Reads(Stock, ItemKey(l.supplyW, l.item), STOCK_COLUMNS))
  {
    hide Select, Called, Reads, KeyFits, Types;
    var a1 := Select(a, Item, ItemKey(x.itemW, l.item), ITEM_COLUMNS).0;
    var a2 := Select(a1, Stock, ItemKey(l.supplyW, l.item), STOCK_COLUMNS).0;
    SelectCalled(a, Item, ItemKey(x.itemW, l.item), ITEM_COLUMNS);
    SelectCalled(a1, Stock, ItemKey(l.supplyW, l.item), STOCK_COLUMNS);
    CalledTrans(a, a1, a2, Reads(Item, ItemKey(x.itemW, l.item), ITEM_COLUMNS),
      Reads(Stock, ItemKey(l.supplyW, l.item), STOCK_COLUMNS));
  }

  lemma {:induction false} LinesReadCalled(a: Adapter, x: NewOrderArgs, n: nat)
    requires n <= |x.lines|
    ensures Called(a, ReadLines(a, x, n).0, LineReads(x, n))
  {
    hide Called, Reads, KeyFits, Types, ReadLine;
    if n == 0 {
      CalledNothing(a);
    } else {
      var l := x.lines[n - 1];
      LinesReadCalled(a, x, n - 1);
      var a1 := ReadLines(a, x, n - 1).0;
      LineReadCalled(a1, x, l);
      CalledTrans(a, a1, ReadLine(a1, x, l).0, LineReads(x, n - 1),
        Reads(Item, ItemKey(x.itemW, l.item), ITEM_COLUMNS) + Reads(Stock, ItemKey(l.supplyW, l.item), STOCK_COLUMNS));
    }
  }

  lemma OrderHeaderWriteCalled(a: Adapter, x: NewOrderArgs, n: NewOrderRow)
    ensures Called(a, WriteOrderHeader(a, x, n).0, OrderHeaderWrites(x))
  {
    NewOrderTypes();
    hide Update, InsertRow, Called, Writes, KeyFits, Types;
    var a1 := Update(a, District, DistrictKey(x.w, x.d), [D_NEXT_O_ID], [IntS(4, n.nextOId)]).0;
    var a2 := InsertRow(a1, Order, OrderKey(x.w, x.d, x.o), OrderRow(x, n)).0;
    var a3 := InsertRow(a2, NewOrder, OrderKey(x.w, x.d, x.o), [IntS(1, 0)]).0;
    UpdateCalled(a, District, DistrictKey(x.w, x.d), [D_NEXT_O_ID], [IntS(4, n.nextOId)]);
    InsertCalled(a1, Order, OrderKey(x.w, x.d, x.o), OrderRow(x, n));
    InsertCalled(a2, NewOrder, OrderKey(x.w, x.d, x.o), [IntS(1, 0)]);
    var r1, r2 := Writes(District, DistrictKey(x.w, x.d), [D_NEXT_O_ID]), Writes(Order, OrderKey(x.w, x.d, x.o), []);
    CalledTrans(a, a1, a2, r1, r2);
    CalledTrans(a, a2, a3, r1 + r2, Writes(NewOrder, OrderKey(x.w, x.d, x.o), []));
  }

  lemma LineWriteCalled(a: Adapter, x: NewOrderArgs, l: Line, r: LineRow)
    ensures Access(Stock, ItemKey(l.supplyW, l.item), [S_QUANTITY]) &&
      Access(OrderLine, OrderLineKey(x.w, x.d, x.o, l.id), [])
    ensures Called(a, WriteLine(a, x, l, r).0,
      Writes(Stock, ItemKey(l.supplyW, l.item), [S_QUANTITY]) +
        Writes(OrderLine, OrderLineKey(x.w, x.d, x.o, l.id), []))
  {
    NewOrderTypes();
    hide Update, InsertRow, Called, Writes, KeyFits, Types;
    var a1 := Update(a, Stock, ItemKey(l.supplyW, l.item), [S_QUANTITY], [IntS(2, r.stock)]).0;
    var a2 := InsertRow(a1, OrderLine, OrderLineKey(x.w, x.d, x.o, l.id), OrderLineRow(l, r)).0;
    UpdateCalled(a, Stock, ItemKey(l.supplyW, l.item), [S_QUANTITY], [IntS(2, r.stock)]);
    InsertCalled(a1, OrderLine, OrderLineKey(x.w, x.d, x.o, l.id), OrderLineRow(l, r));
    CalledTrans(a, a1, a2, Writes(Stock, ItemKey(l.supplyW, l.item), [S_QUANTITY]),
      Writes(OrderLine, OrderLineKey(x.w, x.d, x.o, l.id), []));
  }

  lemma {:induction false} LinesWriteCalled(a: Adapter, x: NewOrderArgs, rows: seq<LineRow>, n: nat)
    requires n <= |x.lines| == |rows|
    ensures Called(a, WriteLines(a, x, rows, n).0, LineWrites(x, n))
  {
    hide Called, Writes, KeyFits, Types, WriteLine;
    if n == 0 {
      CalledNothing(a);
    } else {
      var l := x.lines[n - 1];
      LinesWriteCalled(a, x, rows, n - 1);
      var a1 := WriteLines(a, x, rows, n - 1).0;
      LineWriteCalled(a1, x, l, rows[n - 1]);
      CalledTrans(a, a1, WriteLine(a1, x, l, rows[n - 1]).0, LineWrites(x, n - 1),
        Writes(Stock, ItemKey(l.supplyW, l.item), [S_QUANTITY]) +
          Writes(OrderLine, OrderLineKey(x.w, x.d, x.o, l.id), []));
    }
  }

  // ---------------------------------------------------------------------
  // Deliver
  // ---------------------------------------------------------------------

  datatype DeliverArgs = DeliverArgs(w: I32, d: I8, o: I32, c: I32, carrier: I8, datetime: I64)
  datatype DeliverRow = DeliverRow(sum: int, balance: int, deliveryCnt: int)

  const DELIVERED_COLUMNS: seq<nat> := [C_BALANCE, C_DELIVERY_CNT]

  function LineNumber(n: nat): I8 {
    Wrap(1, n)
  }

  /** The amounts of lines 1..n, in a 32-bit sum. */
  function SumLines(a: Adapter, x: DeliverArgs, n: nat): (Adapter, int) {
    hide KeyFits, Types, Select, Wrap;
    if n == 0 then (a, 0)
    else
      var (a1, sum) := SumLines(a, x, n - 1);
      var (a2, line) := Select(a1, OrderLine, OrderLineKey(x.w, x.d, x.o, LineNumber(n)), [OL_AMOUNT]);
      (a2, if line == [] then sum else Wrap(4, sum + IntAt(line, 0)))
  }

  function DeliverRead(a: Adapter, x: DeliverArgs): (Adapter, DeliverRow) {
    hide KeyFits, Types, Select;
    var (a1, _) := Select(a, Order, OrderKey(x.w, x.d, x.o), [O_C_ID]);
    var (a2, sum) := SumLines(a1, x, LINES_PER_ORDER);
    var (a3, c) := Select(a2, Customer, CustomerKey(x.w, x.d, x.c), DELIVERED_COLUMNS);
    (a3, DeliverRow(sum, IntAt(c, 0), IntAt(c, 1)))
  }

  function DeliverCompute(r: DeliverRow): DeliverRow {
    r.(balance := Wrap(8, r.balance + r.sum), deliveryCnt := Wrap(2, r.deliveryCnt + 1))
  }

  lemma DeliverTypes()
    ensures Types(Order)[O_CARRIER_ID] == Int(1) && Types(OrderLine)[OL_DELIVERY_D] == Int(8)
    ensures Types(Customer)[C_BALANCE] == Int(8) && Types(Customer)[C_DELIVERY_CNT] == Int(2)
  {
  }

  function MarkLines(a: Adapter, x: DeliverArgs, n: nat): Adapter {
    DeliverTypes();
    hide KeyFits, Types, Update, Wrap;
    if n == 0 then a
    else Update(MarkLines(a, x, n - 1), OrderLine, OrderLineKey(x.w, x.d, x.o, LineNumber(n)), [OL_DELIVERY_D],
      [IntS(8, x.datetime)]).0
  }

  function DeliveredValues(n: DeliverRow): seq<Scalar> {
    [IntS(8, n.balance), IntS(2, n.deliveryCnt)]
  }

  /** What fails here is not reported. */
  function DeliverWrite(a: Adapter, x: DeliverArgs, n: DeliverRow): Adapter {
    DeliverTypes();
    hide KeyFits, Types, Update, DeleteRow;
    var a1 := DeleteRow(a, NewOrder, OrderKey(x.w, x.d, x.o)).0;
    var a2 := Update(a1, Order, OrderKey(x.w, x.d, x.o), [O_CARRIER_ID], [IntS(1, x.carrier)]).0;
    var a3 := MarkLines(a2, x, LINES_PER_ORDER);
    Update(a3, Customer, CustomerKey(x.w, x.d, x.c), DELIVERED_COLUMNS, DeliveredValues(n)).0
  }

  function SumReads(x: DeliverArgs, n: nat): seq<Call> {
    hide KeyFits, Types, Reads, Wrap;
    if n == 0 then []
      else SumReads(x, n - 1) + Reads(OrderLine, OrderLineKey(x.w, x.d, x.o, LineNumber(n)), [OL_AMOUNT])
  }

  function MarkWrites(x: DeliverArgs, n: nat): seq<Call> {
    hide KeyFits, Types, Writes, Wrap;
    if n == 0 then []
      else MarkWrites(x, n - 1) + Writes(OrderLine, OrderLineKey(x.w, x.d, x.o, LineNumber(n)), [OL_DELIVERY_D])
  }

  function DeliverReads(x: DeliverArgs): seq<Call> {
    hide KeyFits, Types, Reads;
    Reads(Order, OrderKey(x.w, x.d, x.o), [O_C_ID]) + SumReads(x, LINES_PER_ORDER) +
    Reads(Customer, CustomerKey(x.w, x.d, x.c), DELIVERED_COLUMNS)
  }

  function DeliverWrites(x: DeliverArgs): seq<Call> {
    hide KeyFits, Types, Writes;
    Writes(NewOrder, OrderKey(x.w, x.d, x.o), []) + Writes(Order, OrderKey(x.w, x.d, x.o), [O_CARRIER_ID]) +
    MarkWrites(x, LINES_PER_ORDER) + Writes(Customer, CustomerKey(x.w, x.d, x.c), DELIVERED_COLUMNS)
  }

  lemma {:induction false} SumLinesCalled(a: Adapter, x: DeliverArgs, n: nat)
    ensures Called(a, SumLines(a, x, n).0, SumReads(x, n))
  {
    hide Called, Reads, KeyFits, Types, Select, LineNumber;
    if n == 0 {
      CalledNothing(a);
    } else {
      SumLinesCalled(a, x, n - 1);
      var a1, k := SumLines(a, x, n - 1).0, OrderLineKey(x.w, x.d, x.o, LineNumber(n));
      SelectCalled(a1, OrderLine, k, [OL_AMOUNT]);
      CalledTrans(a, a1, Select(a1, OrderLine, k, [OL_AMOUNT]).0, SumReads(x, n - 1), Reads(OrderLine, k, [OL_AMOUNT]));
    }
  }

  lemma {:induction false} MarkLinesCalled(a: Adapter, x: DeliverArgs, n: nat)
    ensures Called(a, MarkLines(a, x, n), MarkWrites(x, n))
  {
    DeliverTypes();
    hide Called, Writes, KeyFits, Types, Update, LineNumber;
    if n == 0 {
      CalledNothing(a);
    } else {
      MarkLinesCalled(a, x, n - 1);
      var a1, k := MarkLines(a, x, n - 1), OrderLineKey(x.w, x.d, x.o, LineNumber(n));
      UpdateCalled(a1, OrderLine, k, [OL_DELIVERY_D], [IntS(8, x.datetime)]);
      CalledTrans(a, a1, Update(a1, OrderLine, k, [OL_DELIVERY_D], [IntS(8, x.datetime)]).0, MarkWrites(x, n - 1),
        Writes(OrderLine, k, [OL_DELIVERY_D]));
    }
  }

  lemma DeliverReadCalled(a: Adapter, x: DeliverArgs)
    ensures Called(a, DeliverRead(a, x).0, DeliverReads(x))
  {
    hide Called, Reads, KeyFits, Types, Select, SumLines, SumReads;
    var a1 := Select(a, Order, OrderKey(x.w, x.d, x.o), [O_C_ID]).0;
    var a2 := SumLines(a1, x, LINES_PER_ORDER).0;
    var a3 := Select(a2, Customer, CustomerKey(x.w, x.d, x.c), DELIVERED_COLUMNS).0;
    SelectCalled(a, Order, OrderKey(x.w, x.d, x.o), [O_C_ID]);
    SumLinesCalled(a1, x, LINES_PER_ORDER);
    SelectCalled(a2, Customer, CustomerKey(x.w, x.d, x.c), DELIVERED_COLUMNS);
    var r1 := Reads(Order, OrderKey(x.w, x.d, x.o), [O_C_ID]);
    CalledTrans(a, a1, a2, r1, SumReads(x, LINES_PER_ORDER));
    CalledTrans(a, a2, a3, r1 + SumReads(x, LINES_PER_ORDER),
      Reads(Customer, CustomerKey(x.w, x.d, x.c), DELIVERED_COLUMNS));
  }

  lemma DeliverWriteCalled(a: Adapter, x: DeliverArgs, n: DeliverRow)
    ensures Called(a, DeliverWrite(a, x, n), DeliverWrites(x))
  {
    DeliverTypes();
    NewOrderTypes();
    hide Called, Writes, KeyFits, Types, Update, DeleteRow, MarkLines, MarkWrites;
    var k := OrderKey(x.w, x.d, x.o);
    var a1 := DeleteRow(a, NewOrder, k).0;
    var a2 := Update(a1, Order, k, [O_CARRIER_ID], [IntS(1, x.carrier)]).0;
    var a3 := MarkLines(a2, x, LINES_PER_ORDER);
    var a4 := Update(a3, Customer, CustomerKey(x.w, x.d, x.c), DELIVERED_COLUMNS, DeliveredValues(n)).0;
    InsertCalled(a, NewOrder, k, [IntS(1, 0)]);
    UpdateCalled(a1, Order, k, [O_CARRIER_ID], [IntS(1, x.carrier)]);
    MarkLinesCalled(a2, x, LINES_PER_ORDER);
    UpdateCalled(a3, Customer, CustomerKey(x.w, x.d, x.c), DELIVERED_COLUMNS, DeliveredValues(n));
    var r1, r2, r3 := Writes(NewOrder, k, []), Writes(Order, k, [O_CARRIER_ID]), MarkWrites(x, LINES_PER_ORDER);
    CalledTrans(a, a1, a2, r1, r2);
    CalledTrans(a, a2, a3, r1 + r2, r3);
    CalledTrans(a, a3, a4, r1 + r2 + r3, Writes(Customer, CustomerKey(x.w, x.d, x.c), DELIVERED_COLUMNS));
  }

  // ---------------------------------------------------------------------
  // Order status and stock level, which only read
  // ---------------------------------------------------------------------

  datatype StatusArgs = StatusArgs(w: I32, d: I8, c: I32, o: I32)
  datatype LevelArgs = LevelArgs(w: I32, d: I8, o: I32, items: seq<I32>)

  const STATUS_COLUMNS: seq<nat> := [C_FULL_NAME, C_BALANCE]
  const ENTRY_COLUMNS: seq<nat> := [O_ENTRY_D, O_CARRIER_ID]
  const LINE_COLUMNS: seq<nat> := [OL_I_ID, OL_SUPPLY_W_ID, OL_QUANTITY, OL_AMOUNT, OL_DELIVERY_D]

  /** Lines from+1..from+n of one order. */
  function SelectLines(a: Adapter, w: I32, d: I8, o: I32, from: int, cols: seq<nat>, n: nat): Adapter
    requires ColumnsOf(OrderLine, cols)
  {
    hide KeyFits, Types, Select, Wrap;
    if n == 0 then a
    else Select(SelectLines(a, w, d, o, from, cols, n - 1), OrderLine, OrderLineKey(w, d, o, Wrap(1, from + n)), cols).0
  }

  function LinesReads(w: I32, d: I8, o: I32, from: int, cols: seq<nat>, n: nat): seq<Call>
    requires ColumnsOf(OrderLine, cols)
  {
    hide KeyFits, Types, Reads, Wrap;
    if n == 0 then []
      else LinesReads(w, d, o, from, cols, n - 1) + Reads(OrderLine, OrderLineKey(w, d, o, Wrap(1, from + n)), cols)
  }

  lemma {:induction false} SelectLinesCalled(a: Adapter, w: I32, d: I8, o: I32, from: int, cols: seq<nat>, n: nat)
    requires ColumnsOf(OrderLine, cols)
    ensures Called(a, SelectLines(a, w, d, o, from, cols, n), LinesReads(w, d, o, from, cols, n))
  {
    hide Called, Reads, KeyFits, Types, Select, Wrap;
    if n == 0 {
      CalledNothing(a);
    } else {
      SelectLinesCalled(a, w, d, o, from, cols, n - 1);
      var a1, k := SelectLines(a, w, d, o, from, cols, n - 1), OrderLineKey(w, d, o, Wrap(1, from + n));
      SelectCalled(a1, OrderLine, k, cols);
      CalledTrans(a, a1, Select(a1, OrderLine, k, cols).0, LinesReads(w, d, o, from, cols, n - 1),
        Reads(OrderLine, k, cols));
    }
  }

  function StatusRead(a: Adapter, x: StatusArgs): Adapter {
    hide KeyFits, Types, Select;
    var a1 := Select(a, Customer, CustomerKey(x.w, x.d, x.c), STATUS_COLUMNS).0;
    var a2 := Select(a1, Order, OrderKey(x.w, x.d, x.o), ENTRY_COLUMNS).0;
    SelectLines(a2, x.w, x.d, x.o, 0, LINE_COLUMNS, LINES_PER_ORDER)
  }

  function StatusReads(x: StatusArgs): seq<Call> {
    hide KeyFits, Types, Reads;
    Reads(Customer, CustomerKey(x.w, x.d, x.c), STATUS_COLUMNS) + Reads(Order, OrderKey(x.w, x.d, x.o), ENTRY_COLUMNS) +
    LinesReads(x.w, x.d, x.o, 0, LINE_COLUMNS, LINES_PER_ORDER)
  }

  lemma StatusReadCalled(a: Adapter, x: StatusArgs)
    ensures Called(a, StatusRead(a, x), StatusReads(x))
  {
    hide Called, Reads, KeyFits, Types, Select, SelectLines, LinesReads;
    var a1 := Select(a, Customer, CustomerKey(x.w, x.d, x.c), STATUS_COLUMNS).0;
    var a2 := Select(a1, Order, OrderKey(x.w, x.d, x.o), ENTRY_COLUMNS).0;
    SelectCalled(a, Customer, CustomerKey(x.w, x.d, x.c), STATUS_COLUMNS);
    SelectCalled(a1, Order, OrderKey(x.w, x.d, x.o), ENTRY_COLUMNS);
    SelectLinesCalled(a2, x.w, x.d, x.o, 0, LINE_COLUMNS, LINES_PER_ORDER);
    var r1, r2 := Reads(Customer, CustomerKey(x.w, x.d, x.c), STATUS_COLUMNS),
      Reads(Order, OrderKey(x.w, x.d, x.o), ENTRY_COLUMNS);
    CalledTrans(a, a1, a2, r1, r2);
    CalledTrans(a, a2, StatusRead(a, x), r1 + r2, LinesReads(x.w, x.d, x.o, 0, LINE_COLUMNS, LINES_PER_ORDER));
  }

  const RECENT_ORDERS: nat := 20

  /** The lines 0..9 of the n orders from o - 20 on. */
  function SelectOrders(a: Adapter, x: LevelArgs, n: nat): Adapter {
    hide SelectLines, Wrap;
    if n == 0 then a
    else SelectLines(SelectOrders(a, x, n - 1), x.w, x.d, Wrap(4, x.o - RECENT_ORDERS + n - 1), -1, [OL_I_ID],
      LINES_PER_ORDER)
  }

  function OrdersReads(x: LevelArgs, n: nat): seq<Call> {
    hide LinesReads, Wrap;
    if n == 0 then []
    else OrdersReads(x, n - 1) + LinesReads(x.w, x.d, Wrap(4, x.o - RECENT_ORDERS + n - 1), -1, [OL_I_ID],
      LINES_PER_ORDER)
  }

  function SelectStocks(a: Adapter, x: LevelArgs, n: nat): Adapter
    requires n <= |x.items|
  {
    hide KeyFits, Types, Select;
    if n == 0 then a else Select(SelectStocks(a, x, n - 1), Stock, ItemKey(x.w, x.items[n - 1]), [S_QUANTITY]).0
  }

  function StocksReads(x: LevelArgs, n: nat): seq<Call>
    requires n <= |x.items|
  {
    hide KeyFits, Types, Reads;
    if n == 0 then [] else StocksReads(x, n - 1) + Reads(Stock, ItemKey(x.w, x.items[n - 1]), [S_QUANTITY])
  }

  lemma {:induction false} SelectOrdersCalled(a: Adapter, x: LevelArgs, n: nat)
    ensures Called(a, SelectOrders(a, x, n), OrdersReads(x, n))
  {
    hide Called, SelectLines, LinesReads, Wrap;
    if n == 0 {
      CalledNothing(a);
    } else {
      SelectOrdersCalled(a, x, n - 1);
      var a1, o := SelectOrders(a, x, n - 1), Wrap(4, x.o - RECENT_ORDERS + n - 1);
      SelectLinesCalled(a1, x.w, x.d, o, -1, [OL_I_ID], LINES_PER_ORDER);
      CalledTrans(a, a1, SelectOrders(a, x, n), OrdersReads(x, n - 1),
        LinesReads(x.w, x.d, o, -1, [OL_I_ID], LINES_PER_ORDER));
    }
  }

  lemma {:induction false} SelectStocksCalled(a: Adapter, x: LevelArgs, n: nat)
    requires n <= |x.items|
    ensures Called(a, SelectStocks(a, x, n), StocksReads(x, n))
  {
    hide Called, Select, Reads, KeyFits, Types;
    if n == 0 {
      CalledNothing(a);
    } else {
      SelectStocksCalled(a, x, n - 1);
      var a1, k := SelectStocks(a, x, n - 1), ItemKey(x.w, x.items[n - 1]);
      SelectCalled(a1, Stock, k, [S_QUANTITY]);
      CalledTrans(a, a1, Select(a1, Stock, k, [S_QUANTITY]).0, StocksReads(x, n - 1), Reads(Stock, k, [S_QUANTITY]));
    }
  }

  function LevelRead(a: Adapter, x: LevelArgs): Adapter {
    hide KeyFits, Types, Select;
    var a1 := Select(a, District, DistrictKey(x.w, x.d), [D_NEXT_O_ID]).0;
    SelectStocks(SelectOrders(a1, x, RECENT_ORDERS), x, |x.items|)
  }

  function LevelReads(x: LevelArgs): seq<Call> {
    hide KeyFits, Types, Reads;
    Reads(District, DistrictKey(x.w, x.d), [D_NEXT_O_ID]) + OrdersReads(x, RECENT_ORDERS) + StocksReads(x, |x.items|)
  }

  lemma LevelReadCalled(a: Adapter, x: LevelArgs)
    ensures Called(a, LevelRead(a, x), LevelReads(x))
  {
    hide Called, Reads, KeyFits, Types, Select, SelectOrders, OrdersReads, SelectStocks, StocksReads;
    var a1 := Select(a, District, DistrictKey(x.w, x.d), [D_NEXT_O_ID]).0;
    var a2 := SelectOrders(a1, x, RECENT_ORDERS);
    SelectCalled(a, District, DistrictKey(x.w, x.d), [D_NEXT_O_ID]);
    SelectOrdersCalled(a1, x, RECENT_ORDERS);
    SelectStocksCalled(a2, x, |x.items|);
    var r1 := Reads(District, DistrictKey(x.w, x.d), [D_NEXT_O_ID]);
    CalledTrans(a, a1, a2, r1, OrdersReads(x, RECENT_ORDERS));
    CalledTrans(a, a2, LevelRead(a, x), r1 + OrdersReads(x, RECENT_ORDERS), StocksReads(x, |x.items|));
  }

  // ---------------------------------------------------------------------
  // Execution and key generation
  // ---------------------------------------------------------------------

  datatype Txn =
    | NewOrderTxn(no: NewOrderArgs)
    | PaymentTxn(pay: PaymentArgs)
    | DeliverTxn(del: DeliverArgs)
    | OrderStatusTxn(status: StatusArgs)
    | StockLevelTxn(level: LevelArgs)

  function Executed(a: Adapter, txn: Txn): (Adapter, bool) {
    match txn
    case NewOrderTxn(x) =>
      var (a1, row, ok) := NewOrderRead(a, x);
      if !ok then (a1, false) else NewOrderWrite(a1, x, NewOrderCompute(x, row))
    case PaymentTxn(x) =>
      var (a1, row, ok) := PaymentRead(a, x);
      if !ok then (a1, false) else PaymentWrite(a1, x, PaymentCompute(x, row))
    case DeliverTxn(x) =>
      var (a1, row) := DeliverRead(a, x);
      (DeliverWrite(a1, x, DeliverCompute(row)), true)
    case OrderStatusTxn(x) => (StatusRead(a, x), true)
    case StockLevelTxn(x) => (LevelRead(a, x), true)
  }

  function Blank(): Adapter {
    Collect(map[], false, [])
  }

  /** The workload's run: reading, then writing what was never computed. */
  function Generate(txn: Txn): Adapter {
    match txn
    case NewOrderTxn(x) =>
      var (a1, row, _) := NewOrderRead(Blank(), x);
      NewOrderWrite(a1, x, row).0
    case PaymentTxn(x) =>
      var (a1, row, _) := PaymentRead(Blank(), x);
      PaymentWrite(a1, x, row).0
    case DeliverTxn(x) =>
      var (a1, row) := DeliverRead(Blank(), x);
      DeliverWrite(a1, x, row)
    case OrderStatusTxn(x) => StatusRead(Blank(), x)
    case StockLevelTxn(x) => LevelRead(Blank(), x)
  }

  function ReadCalls(txn: Txn): seq<Call> {
    match txn
    case NewOrderTxn(x) => OrderHeaderReads(x) + LineReads(x, |x.lines|)
    case PaymentTxn(x) => PaymentReads(x)
    case DeliverTxn(x) => DeliverReads(x)
    case OrderStatusTxn(x) => StatusReads(x)
    case StockLevelTxn(x) => LevelReads(x)
  }

  function WriteCalls(txn: Txn): seq<Call> {
    match txn
    case NewOrderTxn(x) => OrderHeaderWrites(x) + LineWrites(x, |x.lines|)
    case PaymentTxn(x) => PaymentWrites(x)
    case DeliverTxn(x) => DeliverWrites(x)
    case _ => []
  }

  lemma NewOrderReadCalled(a: Adapter, x: NewOrderArgs)
    ensures Called(a, NewOrderRead(a, x).0, OrderHeaderReads(x) + LineReads(x, |x.lines|))
  {
    hide Called, ReadOrderHeader, ReadLines, OrderHeaderReads, LineReads;
    var a1 := ReadOrderHeader(a, x).0;
    OrderHeaderReadCalled(a, x);
    LinesReadCalled(a1, x, |x.lines|);
    CalledTrans(a, a1, ReadLines(a1, x, |x.lines|).0, OrderHeaderReads(x), LineReads(x, |x.lines|));
  }

  lemma NewOrderWriteCalled(a: Adapter, x: NewOrderArgs, n: NewOrderRow)
    requires |n.lines| == |x.lines|
    ensures Called(a, NewOrderWrite(a, x, n).0, OrderHeaderWrites(x) + LineWrites(x, |x.lines|))
  {
    hide Called, WriteOrderHeader, WriteLines, OrderHeaderWrites, LineWrites;
    var a1 := WriteOrderHeader(a, x, n).0;
    OrderHeaderWriteCalled(a, x, n);
    LinesWriteCalled(a1, x, n.lines, |x.lines|);
    CalledTrans(a, a1, WriteLines(a1, x, n.lines, |x.lines|).0, OrderHeaderWrites(x), LineWrites(x, |x.lines|));
  }

  /** The keys a transaction asks for do not depend on what the database holds: it stops after
      reading, or goes through all its writes. */
  lemma ExecutedCalls(a: Adapter, txn: Txn)
    ensures var b := Executed(a, txn).0; Called(a, b, ReadCalls(txn)) || Called(a, b, ReadCalls(txn) + WriteCalls(txn))
  {
    hide Called, NewOrderRead, NewOrderWrite, NewOrderCompute, PaymentRead, PaymentWrite, PaymentCompute,
      DeliverRead, DeliverWrite, DeliverCompute;
    hide PaymentReads, PaymentWrites, DeliverReads, DeliverWrites, StatusRead, StatusReads, LevelRead, LevelReads;
    hide OrderHeaderReads, LineReads, OrderHeaderWrites, LineWrites;
    match txn
    case NewOrderTxn(x) =>
      var (a1, row, ok) := NewOrderRead(a, x);
      NewOrderReadCalled(a, x);
      if ok {
        NewOrderWriteCalled(a1, x, NewOrderCompute(x, row));
        CalledTrans(a, a1, NewOrderWrite(a1, x, NewOrderCompute(x, row)).0, ReadCalls(txn), WriteCalls(txn));
      }
    case PaymentTxn(x) =>
      var (a1, row, ok) := PaymentRead(a, x);
      PaymentReadCalled(a, x);
      if ok {
        PaymentWriteCalled(a1, x, PaymentCompute(x, row));
        CalledTrans(a, a1, PaymentWrite(a1, x, PaymentCompute(x, row)).0, ReadCalls(txn), WriteCalls(txn));
      }
    case DeliverTxn(x) =>
      var (a1, row) := DeliverRead(a, x);
      DeliverReadCalled(a, x);
      DeliverWriteCalled(a1, x, DeliverCompute(row));
      CalledTrans(a, a1, DeliverWrite(a1, x, DeliverCompute(row)), ReadCalls(txn), WriteCalls(txn));
    case OrderStatusTxn(x) => StatusReadCalled(a, x);
    case StockLevelTxn(x) => LevelReadCalled(a, x);
  }

  lemma GenerateCalls(txn: Txn)
    ensures Called(Blank(), Generate(txn), ReadCalls(txn) + WriteCalls(txn))
  {
    hide Called, NewOrderRead, NewOrderWrite, PaymentRead, PaymentWrite, DeliverRead, DeliverWrite;
    hide PaymentReads, PaymentWrites, DeliverReads, DeliverWrites, StatusRead, StatusReads, LevelRead, LevelReads;
    hide OrderHeaderReads, LineReads, OrderHeaderWrites, LineWrites;
    var a := Blank();
    match txn
    case NewOrderTxn(x) =>
      var (a1, row, _) := NewOrderRead(a, x);
      NewOrderReadCalled(a, x);
      NewOrderWriteCalled(a1, x, row);
      CalledTrans(a, a1, NewOrderWrite(a1, x, row).0, ReadCalls(txn), WriteCalls(txn));
    case PaymentTxn(x) =>
      var (a1, row, _) := PaymentRead(a, x);
      PaymentReadCalled(a, x);
      PaymentWriteCalled(a1, x, row);
      CalledTrans(a, a1, PaymentWrite(a1, x, row).0, ReadCalls(txn), WriteCalls(txn));
    case DeliverTxn(x) =>
      var (a1, row) := DeliverRead(a, x);
      DeliverReadCalled(a, x);
      DeliverWriteCalled(a1, x, row);
      CalledTrans(a, a1, DeliverWrite(a1, x, row), ReadCalls(txn), WriteCalls(txn));
    case OrderStatusTxn(x) =>
      StatusReadCalled(a, x);
      assert StatusReads(x) + [] == StatusReads(x);
    case StockLevelTxn(x) =>
      LevelReadCalled(a, x);
      assert LevelReads(x) + [] == LevelReads(x);
  }

  /** What Finalize lists for the transaction. */
  function DeclaredKeys(txn: Txn): map<Bytes, bool> {
    var g := Generate(txn);
    if g.Collect? then g.declared else map[]
  }

  lemma DeclaredKeysAre(txn: Txn)
    ensures DeclaredKeys(txn) == Declared(ReadCalls(txn) + WriteCalls(txn))
  {
    hide Generate, ReadCalls, WriteCalls, Declared;
    GenerateCalls(txn);
    BlankCollected();
    assert [] + (ReadCalls(txn) + WriteCalls(txn)) == ReadCalls(txn) + WriteCalls(txn);
  }

  lemma BlankCollected()
    ensures Collected(Blank()) && !Blank().finalized
  {
  }

  /** Key generation is sound: whatever the key list holds, every key a transaction asks for has
      been declared, and every key it inserts, updates or deletes has been declared for writing. */
  lemma KeyGenerationSound(txn: Txn, cells: map<Bytes, Cell>, c: Call)
    requires c in Executed(Real(cells, [], []), txn).0.calls
    ensures c.key in DeclaredKeys(txn) && (c.write ==> DeclaredKeys(txn)[c.key])
  {
    hide Executed, Generate, ReadCalls, WriteCalls, Declared, DeclaredKeys;
    ExecutedCalls(Real(cells, [], []), txn);
    DeclaredKeysAre(txn);
    assert c in ReadCalls(txn) + WriteCalls(txn);
  }
}
