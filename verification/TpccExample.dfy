/** A database and an order of the workload's kind that show what goes wrong: ten lines for one
    item, numbered from 0. */
module TpccExamples {
  import opened Prelude
  import opened TpccCodec
  import opened TpccRows
  import opened TpccAdapters
  import opened TpccTables
  import opened TpccTxns
  import opened TpccRuns
  import opened TpccEffects
  import opened TpccOrders
  import opened TpccStocks
  import opened TpccCommits

  const ONE: I32 := 1
  const FIRST: I8 := 1

  // ---------------------------------------------------------------------
  // Warehouse 1 with district 1, customer 1 and 100 pieces of item 1
  // ---------------------------------------------------------------------

  function Zeros(n: nat): Bytes {
    seq(n, _ => 0)
  }

  /** Columns of zeros, as wide as their types. */
  function Filled(k: Bytes): Bytes {
    var l := ParseKey(k);
    if l.Some? && l.value.col < NumColumns(l.value.table) then Zeros(Types(l.value.table)[l.value.col].width) else []
  }

  function RowKeys(t: Table, pkey: seq<int>): set<Bytes>
    requires KeyFits(t, pkey)
  {
    RowColumns(t);
    set c: nat | PKeySize(t) <= c < NumColumns(t) :: MakeKey(t, pkey, c)
  }

  const THE_LINE: Line := Line(0, ONE, ONE, 1)

  function StockRow(): seq<Scalar> {
    [IntS(2, 100), TextS(240, Zeros(240)), IntS(4, 0), IntS(2, 0), IntS(2, 0), TextS(50, Zeros(50))]
  }

  function Ungrouped(): Db {
    map k | k in RowKeys(Warehouse, WarehouseKey(ONE)) + RowKeys(District, DistrictKey(ONE, FIRST)) +
      RowKeys(Customer, CustomerKey(ONE, FIRST, ONE)) :: Filled(k)
  }

  function Start(): Db {
    Ungrouped()[StockKey(THE_LINE) := EncodeRow(StockRow())]
  }

  lemma InRowKeys(t: Table, pkey: seq<int>, t': Table, pkey': seq<int>, c: nat)
    requires !Grouped(t) && !Grouped(t') && KeyFits(t, pkey) && KeyFits(t', pkey') && PKeySize(t') <= c < NumColumns(t')
    ensures MakeKey(t', pkey', c) in RowKeys(t, pkey) <==> t' == t && pkey' == pkey
  {
    hide KeyFits, MakeKey, ParseKey, Types;
    RowColumns(t);
    RowColumns(t');
    var k := MakeKey(t', pkey', c);
    if k in RowKeys(t, pkey) {
      var d: nat :| PKeySize(t) <= d < NumColumns(t) && k == MakeKey(t, pkey, d);
      assert ParseKey(k) == Some(Loc(t, pkey, d)) && ParseKey(k) == Some(Loc(t', pkey', c));
    }
  }

  lemma FilledIs(t: Table, pkey: seq<int>, c: nat)
    requires !Grouped(t) && KeyFits(t, pkey) && PKeySize(t) <= c < NumColumns(t)
    ensures |Filled(MakeKey(t, pkey, c))| == Types(t)[c].width
  {
    hide KeyFits, MakeKey, ParseKey, Types;
    RowColumns(t);
  }

  /** The rows of the example that are not grouped. */
  predicate Listed(t: Table, pkey: seq<int>) {
    || (t == Warehouse && pkey == WarehouseKey(ONE)) || (t == District && pkey == DistrictKey(ONE, FIRST))
    || (t == Customer && pkey == CustomerKey(ONE, FIRST, ONE))
  }

  lemma StartColumn(t: Table, pkey: seq<int>, c: nat)
    requires !Grouped(t) && KeyFits(t, pkey) && PKeySize(t) <= c < NumColumns(t)
    ensures |Value(Start(), MakeKey(t, pkey, c))| == if Listed(t, pkey) then Types(t)[c].width else 0
  {
    hide KeyFits, MakeKey, ParseKey, Types, RowKeys, Filled, EncodeRow, StockRow;
    RowColumns(t);
    var k := MakeKey(t, pkey, c);
    InRowKeys(Warehouse, WarehouseKey(ONE), t, pkey, c);
    InRowKeys(District, DistrictKey(ONE, FIRST), t, pkey, c);
    InRowKeys(Customer, CustomerKey(ONE, FIRST, ONE), t, pkey, c);
    FilledIs(t, pkey, c);
    assert ParseKey(k) == Some(Loc(t, pkey, c)) &&
      ParseKey(StockKey(THE_LINE)) == Some(Loc(Stock, ItemKey(ONE, ONE), 0));
  }

  lemma StartWhole()
    ensures Whole(Start())
  {
    hide KeyFits, Types, NumColumns, PKeySize, MakeKey, Start, Value, Listed;
    forall t, pkey | !Grouped(t) && KeyFits(t, pkey) ensures WholeRow(Start(), t, pkey) {
      forall c | PKeySize(t) <= c < NumColumns(t)
        ensures |Value(Start(), MakeKey(t, pkey, c))| == if Listed(t, pkey) then Types(t)[c].width else 0
      {
        StartColumn(t, pkey, c);
      }
    }
  }

  lemma StartExists(t: Table, pkey: seq<int>)
    requires KeyFits(t, pkey) && Listed(t, pkey)
    ensures Exists(Start(), t, pkey)
  {
    hide KeyFits, MakeKey, Start, Value, Types;
    RowColumns(t);
    WidthsPositive(t, PKeySize(t));
    StartColumn(t, pkey, PKeySize(t));
  }

  lemma StockTyped()
    ensures AllWellTyped(RowTypes(Stock), StockRow()) && EncodeRow(StockRow()) != []
  {
    assert RowTypes(Stock) == [Int(2), Text(240), Int(4), Int(2), Int(2), Text(50)];
    hide Types, RowTypes, Zeros;
    var row := StockRow();
    assert |EncodeRow(row)| == |EncodeRow(row[..5])| + 50;
  }

  lemma StartStock()
    ensures StockStored(Start(), THE_LINE, StockRow()) && Quantity(Start(), THE_LINE) == 100
  {
    StockTyped();
    StockColumns();
    hide KeyFits, MakeKey, Types, RowTypes, PKeySize, NumColumns, EncodeRow, ColumnAt, Offset, WellTyped, Ungrouped;
    RowRoundTrip(RowTypes(Stock), StockRow(), 0);
  }

  // ---------------------------------------------------------------------
  // The order
  // ---------------------------------------------------------------------

  function Lines(n: nat): (lines: seq<Line>)
    requires n <= LINES_PER_ORDER
    ensures |lines| == n && forall i :: 0 <= i < n ==> lines[i] == THE_LINE.(id := Wrap(1, i))
  {
    hide Wrap;
    if n == 0 then [] else Lines(n - 1) + [THE_LINE.(id := Wrap(1, n - 1))]
  }

  function TheOrder(): NewOrderArgs {
    NewOrderArgs(ONE, FIRST, ONE, ONE, 0, ONE, Lines(LINES_PER_ORDER))
  }

  function TheDelivery(): DeliverArgs {
    DeliverArgs(ONE, FIRST, ONE, ONE, 1, 7)
  }

  lemma OrderIds(i: nat)
    requires i < LINES_PER_ORDER
    ensures |TheOrder().lines| == LINES_PER_ORDER && TheOrder().lines[i] == THE_LINE.(id := i)
  {
    SmallFits(i);
    hide Wrap;
  }

  lemma OrderCommits()
    ensures RunTxn(Start(), NewOrderTxn(TheOrder())).1
  {
    hide RunTxn, Start, Wrap;
    Placed(TheOrder());
  }

  /** The order commits. Its delivery dates lines 1 to 9 and leaves line 0 alone, and of the 100
      pieces 99 are left, where ten lines of one piece each should leave 90. */
  lemma WorkloadOrderFails()
    ensures var db, x, y := Start(), TheOrder(), TheDelivery();
      && Whole(db) && RunTxn(db, NewOrderTxn(x)).1 && |x.lines| == LINES_PER_ORDER
      && DateOf(Both(db, x, y), x, x.lines[0]) == 0
      && (forall i :: 1 <= i < LINES_PER_ORDER ==> DateOf(Both(db, x, y), x, x.lines[i]) == 7)
      && Quantity(db, x.lines[0]) == 100 && Quantity(RunTxn(db, NewOrderTxn(x)).0, x.lines[0]) == 99
      && Taken(100, x, 0, LINES_PER_ORDER) == 90
  {
    hide RunTxn, Start, Value, Exists, Whole, EncodeRow, DateOf, Both, Quantity, StockStored, Lines, THE_LINE, Taken;
    var db, x, y := Start(), TheOrder(), TheDelivery();
    StartWhole();
    OrderCommits();
    forall i | 0 <= i < LINES_PER_ORDER
      ensures |x.lines| == LINES_PER_ORDER && x.lines[i] == THE_LINE.(id := i)
    {
      OrderIds(i);
    }
    WorkloadLineMissed(db, x, y);
    StartStock();
    StockLeft(db, x);
    TenTaken(x, LINES_PER_ORDER);
  }

  lemma StockLeft(db: Db, x: NewOrderArgs)
    requires Whole(db) && RunTxn(db, NewOrderTxn(x)).1 && StockStored(db, THE_LINE, StockRow()) &&
      Quantity(db, THE_LINE) == 100
    requires |x.lines| == LINES_PER_ORDER && forall i :: 0 <= i < |x.lines| ==> x.lines[i] == THE_LINE.(id := i)
    ensures Quantity(db, x.lines[0]) == 100 && Quantity(RunTxn(db, NewOrderTxn(x)).0, x.lines[0]) == 99
  {
    hide RunTxn, Whole, EncodeRow, Quantity, Value, StockRow, Adjusted;
    assert x.lines[0] == THE_LINE;
    var j := StockAfter(db, x, 0, StockRow());
    AdjustedIs(100, 1);
  }

  lemma {:induction false} TenTaken(x: NewOrderArgs, n: nat)
    requires |x.lines| == LINES_PER_ORDER && n <= LINES_PER_ORDER
    requires forall i :: 0 <= i < |x.lines| ==> x.lines[i] == THE_LINE.(id := i)
    ensures Taken(100, x, 0, n) == 100 - n
  {
    if n > 0 {
      hide Adjusted;
      TenTaken(x, n - 1);
      AdjustedIs(100 - (n - 1), 1);
    }
  }

  // ---------------------------------------------------------------------
  // Different quantities
  // ---------------------------------------------------------------------

  /** One piece of the item, and two more. */
  function TwoLines(): NewOrderArgs {
    TheOrder().(lines := [THE_LINE.(id := 1), THE_LINE.(id := 2, quantity := 2)])
  }

  /** The order commits and leaves 98 of 100 pieces, where 97 should be left. */
  lemma TwoLinesFail()
    ensures var db, x := Start(), TwoLines();
      && Whole(db) && RunTxn(db, NewOrderTxn(x)).1 && |x.lines| == 2
      && Quantity(db, x.lines[0]) == 100 && Quantity(RunTxn(db, NewOrderTxn(x)).0, x.lines[0]) == 98
      && Taken(100, x, 0, 2) == 97
  {
    hide RunTxn, Start, Value, Exists, Whole, EncodeRow, Quantity, StockStored, Lines, Taken, StockRow, Adjusted;
    var db, x := Start(), TwoLines();
    StartWhole();
    TwoLinesCommit();
    StartStock();
    SameStockKey(THE_LINE, x.lines[0]);
    StockOf(db, THE_LINE, x.lines[0]);
    var j := StockAfter(db, x, 0, StockRow());
    assert j == 1 by { assert SameStock(x.lines[0], x.lines[1]); }
    AdjustedIs(100, 2);
    TwoTaken();
  }

  lemma StockOf(db: Db, l: Line, m: Line)
    requires StockStored(db, l, StockRow()) && SameStock(l, m)
    ensures StockStored(db, m, StockRow())
  {
    hide StockKey, AllWellTyped, Value, EncodeRow, StockRow;
    SameStockKey(l, m);
  }

  lemma TwoTaken()
    ensures Taken(100, TwoLines(), 0, 2) == 97
  {
    hide Adjusted, Lines;
    var x := TwoLines();
    AdjustedIs(100, 1);
    AdjustedIs(99, 2);
    assert Taken(100, x, 0, 1) == 99;
  }

  lemma TwoLinesCommit()
    ensures RunTxn(Start(), NewOrderTxn(TwoLines())).1
  {
    hide RunTxn, Start, Value, Exists, Whole, EncodeRow, KeyFits, Lines;
    Placed(TwoLines());
  }

  /** Any order at the one warehouse for the one item commits. */
  lemma Placed(x: NewOrderArgs)
    requires x.w == ONE && x.d == FIRST && x.c == ONE && forall l :: l in x.lines ==> SameStock(THE_LINE, l)
    ensures RunTxn(Start(), NewOrderTxn(x)).1
  {
    hide RunTxn, Start, Value, Exists, Whole, EncodeRow, KeyFits;
    StartWhole();
    NewOrderCommitsIff(Start(), x);
    StartExists(Warehouse, WarehouseKey(ONE));
    StartExists(District, DistrictKey(ONE, FIRST));
    StartExists(Customer, CustomerKey(ONE, FIRST, ONE));
    StartStock();
    StockTyped();
    forall l | l in x.lines ensures Value(Start(), StockKey(l)) != [] {
      SameStockKey(THE_LINE, l);
    }
  }
}
