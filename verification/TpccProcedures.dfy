/** The transaction objects of execution/tpcc: scalar fields filled by Read and Compute, and the
    tables they work on. */
module TpccProcedures {
  import opened TpccCodec
  import opened TpccRows
  import opened TpccAdapters
  import opened TpccTables
  import opened TpccTxns
  import opened TpccDispatch
  import opened TpccTableObjects

  /** What an empty row yields, which is what the fields start with. */
  lemma NothingRead()
    ensures forall i :: IntAt([], i) == 0 && TextAt([], i) == TextS(0, [])
  {
  }

  class PaymentProcedure {
    const adapter: StorageAdapter
    const warehouse: TpccTable
    const district: TpccTable
    const customer: TpccTable
    const history: TpccTable
    const x: PaymentArgs
    var row: PaymentRow

    ghost predicate Ready() {
      && warehouse.t == Warehouse && district.t == District && customer.t == Customer && history.t == History
      && warehouse.adapter == district.adapter == customer.adapter == history.adapter == adapter
    }

    /** The arguments are cut to the widths of their scalars. */
    constructor (adapter: StorageAdapter, w: int, d: int, cw: int, cd: int, c: int, amount: int, datetime: I64, h: int)
      ensures Ready() && this.adapter == adapter && row == PaymentRow(0, 0, 0, 0, 0, 0, [], [], [])
      ensures x == PaymentArgs(Wrap(4, w), Wrap(1, d), Wrap(4, cw), Wrap(1, cd), Wrap(4, c), Wrap(4, amount),
        datetime, Wrap(4, h))
    {
      hide Wrap;
      this.adapter := adapter;
      warehouse := new TpccTable(Warehouse, adapter);
      district := new TpccTable(District, adapter);
      customer := new TpccTable(Customer, adapter);
      history := new TpccTable(History, adapter);
      x := PaymentArgs(Wrap(4, w), Wrap(1, d), Wrap(4, cw), Wrap(1, cd), Wrap(4, c), Wrap(4, amount), datetime,
        Wrap(4, h));
      row := PaymentRow(0, 0, 0, 0, 0, 0, [], [], []);
    }

    method Read() returns (ok: bool)
      requires Ready() && adapter.Valid() && row == PaymentRow(0, 0, 0, 0, 0, 0, [], [], [])
      modifies this, adapter.Objects()
      ensures adapter.Valid() && (adapter.View(), row, ok) == PaymentRead(old(adapter.View()), x)
    {
      hide ReadPaymentWarehouse, ReadPaymentDistrict, ReadPaymentCustomer, IntAt, TextAt;
      ok := true;
      var w := ReadWarehouse();
      if !w { ok := false; }
      var d := ReadDistrict();
      if !d { ok := false; }
      var c := ReadCustomer();
      if !c { ok := false; }
    }

    method ReadWarehouse() returns (found: bool)
      requires Ready() && adapter.Valid() && row.wName == [] && row.wYtd == 0
      modifies this, adapter.Objects()
      ensures adapter.Valid()
      ensures var (a, w) := ReadPaymentWarehouse(old(adapter.View()), x);
        adapter.View() == a && found == (w != []) && row == old(row).(wName := TextAt(w, 0).buffer, wYtd := IntAt(w, 2))
    {
      NothingRead();
      hide KeyFits, Types, TpccTables.Select, IntAt, TextAt;
      var w := warehouse.Select(WarehouseKey(x.w), WAREHOUSE_COLUMNS);
      found := w != [];
      if found { row := row.(wName := TextAt(w, 0).buffer, wYtd := IntAt(w, 2)); }
    }

    method ReadDistrict() returns (found: bool)
      requires Ready() && adapter.Valid() && row.dName == [] && row.dYtd == 0
      modifies this, adapter.Objects()
      ensures adapter.Valid()
      ensures var (a, d) := ReadPaymentDistrict(old(adapter.View()), x);
        adapter.View() == a && found == (d != []) && row == old(row).(dName := TextAt(d, 0).buffer, dYtd := IntAt(d, 2))
    {
      NothingRead();
      hide KeyFits, Types, TpccTables.Select, IntAt, TextAt;
      var d := district.Select(DistrictKey(x.w, x.d), DISTRICT_COLUMNS);
      found := d != [];
      if found { row := row.(dName := TextAt(d, 0).buffer, dYtd := IntAt(d, 2)); }
    }

    method ReadCustomer() returns (found: bool)
      requires Ready() && adapter.Valid()
      requires row.balance == row.ytdPayment == row.paymentCnt == row.dataWidth == 0 && row.data == []
      modifies this, adapter.Objects()
      ensures adapter.Valid()
      ensures var (a, c) := ReadPaymentCustomer(old(adapter.View()), x);
        && adapter.View() == a && found == (c != [])
        && row == old(row).(balance := IntAt(c, 7), ytdPayment := IntAt(c, 8), paymentCnt := IntAt(c, 9),
                            dataWidth := TextAt(c, 10).width, data := TextAt(c, 10).buffer)
    {
      NothingRead();
      hide KeyFits, Types, TpccTables.Select, IntAt, TextAt;
      var c := customer.Select(CustomerKey(x.cw, x.cd, x.c), CUSTOMER_COLUMNS);
      found := c != [];
      if found {
        row := row.(balance := IntAt(c, 7), ytdPayment := IntAt(c, 8), paymentCnt := IntAt(c, 9),
                    dataWidth := TextAt(c, 10).width, data := TextAt(c, 10).buffer);
      }
    }

    method Compute()
      modifies this
      ensures row == PaymentCompute(x, old(row))
    {
      hide Wrap;
      row := row.(wYtd := Wrap(8, row.wYtd + x.amount));
      row := row.(dYtd := Wrap(8, row.dYtd + x.amount));
      row := row.(balance := Wrap(8, row.balance - x.amount));
      row := row.(ytdPayment := Wrap(8, row.ytdPayment + x.amount));
      row := row.(paymentCnt := Wrap(2, row.paymentCnt + 1));
    }

    method Write() returns (ok: bool)
      requires Ready() && adapter.Valid()
      modifies adapter.Objects()
      ensures adapter.Valid() && (adapter.View(), ok) == PaymentWrite(old(adapter.View()), x, row)
    {
      PaymentTypes();
      PaymentValues(row);
      hide KeyFits, Types, TpccTables.Update, InsertRow;
      ok := true;
      var w := warehouse.Update(WarehouseKey(x.w), [W_YTD], [IntS(8, row.wYtd)]);
      if !w { ok := false; }
      var d := district.Update(DistrictKey(x.w, x.d), [D_YTD], [IntS(8, row.dYtd)]);
      if !d { ok := false; }
      var c := customer.Update(CustomerKey(x.cw, x.cd, x.c), PAID_COLUMNS, PaidValues(row));
      if !c { ok := false; }
      var h := history.Insert(HistoryKey(x.w, x.d, x.c, x.h), HistoryRow(x, row));
    }

    method Execute() returns (ok: bool)
      requires Ready() && adapter.Valid() && row == PaymentRow(0, 0, 0, 0, 0, 0, [], [], [])
      modifies this, adapter.Objects()
      ensures adapter.Valid() && (adapter.View(), ok) == Executed(old(adapter.View()), PaymentTxn(x))
    {
      hide PaymentRead, PaymentCompute, PaymentWrite;
      ok := Read();
      if !ok { return; }
      Compute();
      ok := Write();
    }
  }

  class NewOrderProcedure {
    const adapter: StorageAdapter
    const warehouse: TpccTable
    const district: TpccTable
    const customer: TpccTable
    const newOrder: TpccTable
    const order: TpccTable
    const orderLine: TpccTable
    const item: TpccTable
    const stock: TpccTable
    const x: NewOrderArgs
    var nextOId: int
    var allLocal: bool
    var lines: seq<LineRow>

    ghost predicate Ready() {
      && warehouse.t == Warehouse && district.t == District && customer.t == Customer && newOrder.t == NewOrder
      && order.t == Order && orderLine.t == OrderLine && item.t == Item && stock.t == Stock
      && warehouse.adapter == district.adapter == customer.adapter == newOrder.adapter == adapter
      && order.adapter == orderLine.adapter == item.adapter == stock.adapter == adapter
    }

    constructor (adapter: StorageAdapter, x: NewOrderArgs)
      ensures Ready() && this.adapter == adapter && this.x == x
      ensures nextOId == 0 && !allLocal && lines == seq(|x.lines|, _ => LineRow(0, 0, 0, 0, []))
    {
      this.adapter, this.x := adapter, x;
      warehouse := new TpccTable(Warehouse, adapter);
      district := new TpccTable(District, adapter);
      customer := new TpccTable(Customer, adapter);
      newOrder := new TpccTable(NewOrder, adapter);
      order := new TpccTable(Order, adapter);
      orderLine := new TpccTable(OrderLine, adapter);
      item := new TpccTable(Item, adapter);
      stock := new TpccTable(Stock, adapter);
      nextOId, allLocal, lines := 0, false, seq(|x.lines|, _ => LineRow(0, 0, 0, 0, []));
    }

    method ReadHeader() returns (ok: bool)
      requires Ready() && adapter.Valid() && nextOId == 0
      modifies this`nextOId, adapter.Objects()
      ensures adapter.Valid() && (adapter.View(), nextOId, ok) == ReadOrderHeader(old(adapter.View()), x)
    {
      hide KeyFits, Types, TpccTables.Select;
      ok := true;
      var w := warehouse.Select(WarehouseKey(x.w), [W_TAX]);
      if w == [] { ok := false; }
      var c := customer.Select(CustomerKey(x.w, x.d, x.c), CREDIT_COLUMNS);
      if c == [] { ok := false; }
      var d := district.Select(DistrictKey(x.w, x.d), NEXT_COLUMNS);
      if d != [] { nextOId := IntAt(d, 1); } else { ok := false; }
    }

    method ReadOneLine(i: nat) returns (ok: bool)
      requires Ready() && adapter.Valid() && i < |lines| == |x.lines| && lines[i] == LineRow(0, 0, 0, 0, [])
      modifies this`lines, adapter.Objects()
      ensures adapter.Valid() && |lines| == |old(lines)| && lines == old(lines)[i := lines[i]]
      ensures (adapter.View(), lines[i], ok) == ReadLine(old(adapter.View()), x, x.lines[i])
    {
      hide KeyFits, Types, TpccTables.Select;
      ok := true;
      var l := x.lines[i];
      var itemRow := item.Select(ItemKey(x.itemW, l.item), ITEM_COLUMNS);
      if itemRow != [] { lines := lines[i := lines[i].(price := IntAt(itemRow, 0))]; } else { ok := false; }
      var stockRow := stock.Select(ItemKey(l.supplyW, l.item), STOCK_COLUMNS);
      if stockRow != [] {
        lines := lines[i := lines[i].(stock := IntAt(stockRow, 0), distWidth := 24,
          dist := Window(TextAt(stockRow, 1).buffer, 0, 24))];
      } else {
        ok := false;
      }
    }

    method Read() returns (ok: bool)
      requires Ready() && adapter.Valid() && nextOId == 0 && !allLocal &&
        lines == seq(|x.lines|, _ => LineRow(0, 0, 0, 0, []))
      modifies this, adapter.Objects()
      ensures adapter.Valid() && (adapter.View(), NewOrderRow(nextOId, allLocal, lines), ok) ==
        NewOrderRead(old(adapter.View()), x)
    {
      hide ReadOrderHeader, ReadLine;
      ok := ReadHeader();
      ghost var a := adapter.View();
      var found := true;
      for i := 0 to |x.lines|
        invariant adapter.Valid() && |lines| == |x.lines| &&
          (forall j :: i <= j < |lines| ==> lines[j] == LineRow(0, 0, 0, 0, []))
        invariant (adapter.View(), lines[..i], found) == ReadLines(a, x, i)
        invariant nextOId == ReadOrderHeader(old(adapter.View()), x).1 && !allLocal
      {
        ghost var before := lines;
        var lineOk := ReadOneLine(i);
        assert lines[..i + 1] == before[..i] + [lines[i]];
        found := found && lineOk;
      }
      assert lines[..|x.lines|] == lines;
      ok := ok && found;
    }

    method Compute()
      requires |lines| == |x.lines|
      modifies this
      ensures NewOrderRow(nextOId, allLocal, lines) ==
        NewOrderCompute(x, NewOrderRow(old(nextOId), old(allLocal), old(lines)))
    {
      hide Wrap;
      nextOId := Wrap(4, nextOId + 1);
      var local := true;
      for i := 0 to |x.lines|
        invariant |lines| == |x.lines| && nextOId == Wrap(4, old(nextOId) + 1)
        invariant local <==> forall l :: l in x.lines[..i] ==> l.supplyW == x.w
        invariant forall j ::
          0 <= j < |lines| ==> lines[j] == if j < i then ComputeLine(x.lines[j], old(lines)[j]) else old(lines)[j]
      {
        var l := x.lines[i];
        assert x.lines[..i + 1] == x.lines[..i] + [l];
        if l.supplyW != x.w { local := false; }
        lines := lines[i := lines[i].(amount := Wrap(4, l.quantity * lines[i].price))];
        if lines[i].stock > l.quantity {
          lines := lines[i := lines[i].(stock := Wrap(2, lines[i].stock - l.quantity))];
        } else {
          lines := lines[i := lines[i].(stock := Wrap(2, lines[i].stock - (l.quantity - 91)))];
        }
      }
      assert x.lines[..|x.lines|] == x.lines;
      allLocal := local;
    }

    method WriteHeader() returns (ok: bool)
      requires Ready() && adapter.Valid()
      modifies adapter.Objects()
      ensures adapter.Valid() && (adapter.View(), ok) ==
        WriteOrderHeader(old(adapter.View()), x, NewOrderRow(nextOId, allLocal, lines))
    {
      NewOrderTypes();
      hide KeyFits, Types, TpccTables.Update, InsertRow;
      var d := district.Update(DistrictKey(x.w, x.d), [D_NEXT_O_ID], [IntS(4, nextOId)]);
      var o := order.Insert(OrderKey(x.w, x.d, x.o), OrderRow(x, NewOrderRow(nextOId, allLocal, lines)));
      var no := newOrder.Insert(OrderKey(x.w, x.d, x.o), [IntS(1, 0)]);
      ok := d && o && no;
    }

    method WriteOneLine(i: nat) returns (ok: bool)
      requires Ready() && adapter.Valid() && i < |lines| == |x.lines|
      modifies adapter.Objects()
      ensures adapter.Valid() && (adapter.View(), ok) == WriteLine(old(adapter.View()), x, x.lines[i], lines[i])
    {
      NewOrderTypes();
      hide KeyFits, Types, TpccTables.Update, InsertRow;
      var l := x.lines[i];
      var s := stock.Update(ItemKey(l.supplyW, l.item), [S_QUANTITY], [IntS(2, lines[i].stock)]);
      var ol := orderLine.Insert(OrderLineKey(x.w, x.d, x.o, l.id), OrderLineRow(l, lines[i]));
      ok := s && ol;
    }

    method Write() returns (ok: bool)
      requires Ready() && adapter.Valid() && |lines| == |x.lines|
      modifies adapter.Objects()
      ensures adapter.Valid() && (adapter.View(), ok) ==
        NewOrderWrite(old(adapter.View()), x, NewOrderRow(nextOId, allLocal, lines))
    {
      hide WriteOrderHeader, WriteLine;
      ok := WriteHeader();
      ghost var a := adapter.View();
      var wrote := true;
      for i := 0 to |x.lines|
        invariant adapter.Valid() && (adapter.View(), wrote) == WriteLines(a, x, lines, i)
      {
        var lineOk := WriteOneLine(i);
        wrote := wrote && lineOk;
      }
      ok := ok && wrote;
    }

    method Execute() returns (ok: bool)
      requires Ready() && adapter.Valid() && nextOId == 0 && !allLocal &&
        lines == seq(|x.lines|, _ => LineRow(0, 0, 0, 0, []))
      modifies this, adapter.Objects()
      ensures adapter.Valid() && (adapter.View(), ok) == Executed(old(adapter.View()), NewOrderTxn(x))
    {
      hide NewOrderRead, NewOrderCompute, NewOrderWrite;
      ok := Read();
      if !ok { return; }
      Compute();
      ok := Write();
    }
  }

  class DeliverProcedure {
    const adapter: StorageAdapter
    const customer: TpccTable
    const newOrder: TpccTable
    const order: TpccTable
    const orderLine: TpccTable
    const x: DeliverArgs
    var row: DeliverRow

    ghost predicate Ready() {
      && customer.t == Customer && newOrder.t == NewOrder && order.t == Order && orderLine.t == OrderLine
      && customer.adapter == newOrder.adapter == order.adapter == orderLine.adapter == adapter
    }

    constructor (adapter: StorageAdapter, x: DeliverArgs)
      ensures Ready() && this.adapter == adapter && this.x == x && row == DeliverRow(0, 0, 0)
    {
      this.adapter, this.x, row := adapter, x, DeliverRow(0, 0, 0);
      customer := new TpccTable(Customer, adapter);
      newOrder := new TpccTable(NewOrder, adapter);
      order := new TpccTable(Order, adapter);
      orderLine := new TpccTable(OrderLine, adapter);
    }

    method Read()
      requires Ready() && adapter.Valid() && row == DeliverRow(0, 0, 0)
      modifies this, adapter.Objects()
      ensures adapter.Valid() && (adapter.View(), row) == DeliverRead(old(adapter.View()), x)
    {
      hide KeyFits, Types, TpccTables.Select, SumLines, Wrap;
      var o := order.Select(OrderKey(x.w, x.d, x.o), [O_C_ID]);
      ReadLines();
      var c := customer.Select(CustomerKey(x.w, x.d, x.c), DELIVERED_COLUMNS);
      if c != [] { row := row.(balance := IntAt(c, 0), deliveryCnt := IntAt(c, 1)); }
    }

    method ReadLines()
      requires Ready() && adapter.Valid() && row.sum == 0
      modifies this, adapter.Objects()
      ensures adapter.Valid() && (adapter.View(), row.sum) == SumLines(old(adapter.View()), x, LINES_PER_ORDER)
      ensures row == old(row).(sum := row.sum)
    {
      hide KeyFits, Types, TpccTables.Select, Wrap;
      for i := 1 to LINES_PER_ORDER + 1
        invariant adapter.Valid() && (adapter.View(), row.sum) == SumLines(old(adapter.View()), x, i - 1)
        invariant row == old(row).(sum := row.sum)
      {
        var line := orderLine.Select(OrderLineKey(x.w, x.d, x.o, LineNumber(i)), [OL_AMOUNT]);
        if line != [] { row := row.(sum := Wrap(4, row.sum + IntAt(line, 0))); }
      }
    }

    method Compute()
      modifies this
      ensures row == DeliverCompute(old(row))
    {
      row := row.(balance := Wrap(8, row.balance + row.sum));
      row := row.(deliveryCnt := Wrap(2, row.deliveryCnt + 1));
    }

    method Write()
      requires Ready() && adapter.Valid()
      modifies adapter.Objects()
      ensures adapter.Valid() && adapter.View() == DeliverWrite(old(adapter.View()), x, row)
    {
      DeliverTypes();
      hide KeyFits, Types, TpccTables.Update, DeleteRow, Wrap;
      var no := newOrder.Delete(OrderKey(x.w, x.d, x.o));
      var o := order.Update(OrderKey(x.w, x.d, x.o), [O_CARRIER_ID], [IntS(1, x.carrier)]);
      ghost var a := adapter.View();
      for i := 1 to LINES_PER_ORDER + 1
        invariant adapter.Valid() && adapter.View() == MarkLines(a, x, i - 1)
      {
        var ol := orderLine.Update(OrderLineKey(x.w, x.d, x.o, LineNumber(i)), [OL_DELIVERY_D], [IntS(8, x.datetime)]);
      }
      var c := customer.Update(CustomerKey(x.w, x.d, x.c), DELIVERED_COLUMNS, DeliveredValues(row));
    }

    method Execute() returns (ok: bool)
      requires Ready() && adapter.Valid() && row == DeliverRow(0, 0, 0)
      modifies this, adapter.Objects()
      ensures adapter.Valid() && (adapter.View(), ok) == Executed(old(adapter.View()), DeliverTxn(x))
    {
      hide DeliverRead, DeliverCompute, DeliverWrite;
      Read();
      Compute();
      Write();
      ok := true;
    }
  }

  class OrderStatusProcedure {
    const adapter: StorageAdapter
    const customer: TpccTable
    const order: TpccTable
    const orderLine: TpccTable
    const x: StatusArgs

    ghost predicate Ready() {
      && customer.t == Customer && order.t == Order && orderLine.t == OrderLine
      && customer.adapter == order.adapter == orderLine.adapter == adapter
    }

    constructor (adapter: StorageAdapter, x: StatusArgs)
      ensures Ready() && this.adapter == adapter && this.x == x
    {
      this.adapter, this.x := adapter, x;
      customer := new TpccTable(Customer, adapter);
      order := new TpccTable(Order, adapter);
      orderLine := new TpccTable(OrderLine, adapter);
    }

    method Execute() returns (ok: bool)
      requires Ready() && adapter.Valid()
      modifies adapter.Objects()
      ensures adapter.Valid() && (adapter.View(), ok) == Executed(old(adapter.View()), OrderStatusTxn(x))
    {
      hide KeyFits, Types, TpccTables.Select, Wrap;
      var c := customer.Select(CustomerKey(x.w, x.d, x.c), STATUS_COLUMNS);
      var o := order.Select(OrderKey(x.w, x.d, x.o), ENTRY_COLUMNS);
      ghost var a := adapter.View();
      for i := 1 to LINES_PER_ORDER + 1
        invariant adapter.Valid() && adapter.View() == SelectLines(a, x.w, x.d, x.o, 0, LINE_COLUMNS, i - 1)
      {
        var ol := orderLine.Select(OrderLineKey(x.w, x.d, x.o, Wrap(1, i)), LINE_COLUMNS);
      }
      ok := true;
    }
  }

  class StockLevelProcedure {
    const adapter: StorageAdapter
    const district: TpccTable
    const orderLine: TpccTable
    const stock: TpccTable
    const x: LevelArgs

    ghost predicate Ready() {
      && district.t == District && orderLine.t == OrderLine && stock.t == Stock
      && district.adapter == orderLine.adapter == stock.adapter == adapter
    }

    constructor (adapter: StorageAdapter, x: LevelArgs)
      ensures Ready() && this.adapter == adapter && this.x == x
    {
      this.adapter, this.x := adapter, x;
      district := new TpccTable(District, adapter);
      orderLine := new TpccTable(OrderLine, adapter);
      stock := new TpccTable(Stock, adapter);
    }

    method ReadOrder(o: I32)
      requires Ready() && adapter.Valid()
      modifies adapter.Objects()
      ensures adapter.Valid() && adapter.View() ==
        SelectLines(old(adapter.View()), x.w, x.d, o, -1, [OL_I_ID], LINES_PER_ORDER)
    {
      hide KeyFits, Types, TpccTables.Select, Wrap;
      for j := 0 to LINES_PER_ORDER
        invariant adapter.Valid() && adapter.View() == SelectLines(old(adapter.View()), x.w, x.d, o, -1, [OL_I_ID], j)
      {
        var ol := orderLine.Select(OrderLineKey(x.w, x.d, o, Wrap(1, j)), [OL_I_ID]);
      }
    }

    method Execute() returns (ok: bool)
      requires Ready() && adapter.Valid()
      modifies adapter.Objects()
      ensures adapter.Valid() && (adapter.View(), ok) == Executed(old(adapter.View()), StockLevelTxn(x))
    {
      hide KeyFits, Types, TpccTables.Select, Wrap, SelectOrders, SelectStocks;
      var d := district.Select(DistrictKey(x.w, x.d), [D_NEXT_O_ID]);
      ReadOrders();
      ReadStocks();
      ok := true;
    }

    method ReadOrders()
      requires Ready() && adapter.Valid()
      modifies adapter.Objects()
      ensures adapter.Valid() && adapter.View() == SelectOrders(old(adapter.View()), x, RECENT_ORDERS)
    {
      hide KeyFits, Wrap, SelectLines;
      for i := 0 to RECENT_ORDERS
        invariant adapter.Valid() && adapter.View() == SelectOrders(old(adapter.View()), x, i)
      {
        ReadOrder(Wrap(4, x.o - RECENT_ORDERS + i));
      }
    }

    method ReadStocks()
      requires Ready() && adapter.Valid()
      modifies adapter.Objects()
      ensures adapter.Valid() && adapter.View() == SelectStocks(old(adapter.View()), x, |x.items|)
    {
      hide KeyFits, Types, TpccTables.Select;
      for i := 0 to |x.items|
        invariant adapter.Valid() && adapter.View() == SelectStocks(old(adapter.View()), x, i)
      {
        var s := stock.Select(ItemKey(x.w, x.items[i]), [S_QUANTITY]);
      }
    }
  }
}
