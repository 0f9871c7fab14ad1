/** What a new order takes from the stock. Every update of a row starts again from the stored row,
    so of several lines for one stock row only the last is taken from it. */
module TpccStocks {
  import opened TpccCodec
  import opened TpccRows
  import opened TpccAdapters
  import opened TpccTables
  import opened TpccTxns
  import opened TpccRuns
  import opened TpccEffects

  /** Line j is the last that names the stock row of line i. */
  predicate LastOfStock(x: NewOrderArgs, i: nat, j: nat) {
    i <= j < |x.lines| && SameStock(x.lines[i], x.lines[j]) && LastForStock(x, |x.lines|, j)
  }

  lemma {:induction false} LastExists(x: NewOrderArgs, i: nat) returns (j: nat)
    requires i < |x.lines|
    ensures LastOfStock(x, i, j)
    decreases |x.lines| - i
  {
    if k :| i < k < |x.lines| && SameStock(x.lines[i], x.lines[k]) {
      j := LastExists(x, k);
    } else {
      j := i;
    }
  }

  lemma StockColumns()
    ensures PKeySize(Stock) == 2 && NumColumns(Stock) == 8 && Types(Stock)[S_QUANTITY] == Int(2)
    ensures |RowTypes(Stock)| == 6 && RowTypes(Stock)[0] == Int(2)
  {
    RowColumns(Stock);
  }

  /** A stock row that was stored column by column. */
  ghost predicate StockStored(db: Db, l: Line, values: seq<Scalar>) {
    AllWellTyped(RowTypes(Stock), values) && Value(db, StockKey(l)) == EncodeRow(values)
  }

  lemma RestockedQuantity(db: Db, db': Db, l: Line, values: seq<Scalar>, q: int)
    requires StockStored(db, l, values) && Fits(2, q) && Value(db', StockKey(l)) == Restocked(Value(db, StockKey(l)), q)
    ensures Quantity(db', l) == q
  {
    StockColumns();
    hide KeyFits, MakeKey, Types, RowTypes, PKeySize, NumColumns, EncodeRow, UpdateRow, ColumnAt, Value, Fits, Offset;
    var cols: seq<nat>, vs := [S_QUANTITY], [IntS(2, q)];
    UpdateIsReencode(Stock, values, cols, vs);
    assert cols[..0] == [] && vs[..0] == [];
    var row := values[0 := IntS(2, q)];
    assert SetColumns(Stock, values, cols, vs) == row;
    assert AllWellTyped(RowTypes(Stock), row);
    RowRoundTrip(RowTypes(Stock), row, 0);
  }

  lemma SameStockKey(l: Line, m: Line)
    requires SameStock(l, m)
    ensures StockKey(l) == StockKey(m)
    ensures forall db :: Quantity(db, l) == Quantity(db, m)
  {
    hide KeyFits, MakeKey, Column;
  }

  /** Of several lines for one stock row only the last counts: the row ends as if that line alone
      had been ordered. */
  lemma StockAfter(db: Db, x: NewOrderArgs, i: nat, values: seq<Scalar>) returns (j: nat)
    requires Whole(db) && RunTxn(db, NewOrderTxn(x)).1 && i < |x.lines| && StockStored(db, x.lines[i], values)
    ensures LastOfStock(x, i, j)
    ensures Quantity(RunTxn(db, NewOrderTxn(x)).0, x.lines[i]) ==
      Adjusted(Quantity(db, x.lines[i]), x.lines[j].quantity)
  {
    hide RunTxn, Whole, StockKey, Value, EncodeRow, Quantity, Restocked, Adjusted, Price, IntValue, Wrap, OrderLeft,
      AllWellTyped, LastForId;
    j := LastExists(x, i);
    var n := NewOrderBytes(db, x);
    SameStockKey(x.lines[i], x.lines[j]);
    assert LineLeft(db, RunTxn(db, NewOrderTxn(x)).0, x, n, j);
    AdjustedFits(Quantity(db, x.lines[j]), x.lines[j].quantity);
    RestockedQuantity(db, RunTxn(db, NewOrderTxn(x)).0, x.lines[j], values, n.lines[j].stock);
  }

  lemma AdjustedFits(stock: int, quantity: int)
    ensures Fits(2, Adjusted(stock, quantity))
  {
    hide Wrap;
  }

  // ---------------------------------------------------------------------
  // Taking every line
  // ---------------------------------------------------------------------

  /** The quantity of a row of q pieces once the first n lines that name the stock row of line i
      have been taken from it, one after the other. */
  function Taken(q: int, x: NewOrderArgs, i: nat, n: nat): int
    requires i < |x.lines| && n <= |x.lines|
  {
    if n == 0 then q
    else
      var t := Taken(q, x, i, n - 1);
      if SameStock(x.lines[i], x.lines[n - 1]) then Adjusted(t, x.lines[n - 1].quantity) else t
  }

  /** How many pieces these lines order. */
  function Ordered(x: NewOrderArgs, i: nat, n: nat): int
    requires i < |x.lines| && n <= |x.lines|
  {
    if n == 0 then 0
    else Ordered(x, i, n - 1) + if SameStock(x.lines[i], x.lines[n - 1]) then x.lines[n - 1].quantity else 0
  }

  ghost predicate AllOrderSome(x: NewOrderArgs) {
    forall l :: l in x.lines ==> l.quantity >= 1
  }

  lemma ShortFits(n: int)
    requires -0x8000 <= n < 0x8000
    ensures Fits(2, n)
  {
  }

  lemma I8Bound(q: I8)
    ensures -128 <= q < 128
  {
    assert Fits(1, q);
  }

  /** A row falls by the quantity, up to the 91 pieces it may be topped up by. */
  lemma AdjustedIs(stock: int, quantity: I8)
    requires -1000 <= stock < 0x8000 && 0 <= quantity
    ensures Adjusted(stock, quantity) == stock - quantity + if stock > quantity then 0 else 91
  {
    I8Bound(quantity);
    var r := stock - quantity + if stock > quantity then 0 else 91;
    ShortFits(r);
    hide Wrap, Fits;
    WrapFits(2, r);
  }

  lemma {:induction false} TakenBounds(q: int, x: NewOrderArgs, i: nat, n: nat)
    requires 0 <= q < 0x8000 && i < |x.lines| && n <= |x.lines| <= LINES_PER_ORDER && AllOrderSome(x)
    ensures -36 * n <= Taken(q, x, i, n) < 0x8000
    ensures (Taken(q, x, i, n) - (q - Ordered(x, i, n))) % 91 == 0 && Ordered(x, i, n) >= 0
  {
    if n > 0 {
      hide Adjusted;
      TakenBounds(q, x, i, n - 1);
      var l := x.lines[n - 1];
      assert l in x.lines;
      I8Bound(l.quantity);
      AdjustedIs(Taken(q, x, i, n - 1), l.quantity);
      SameResidue(Taken(q, x, i, n - 1) - (q - Ordered(x, i, n - 1)));
    }
  }

  lemma SameResidue(d: int)
    ensures (d + 91) % 91 == d % 91
  {
  }

  /** Lines after the last one for a row leave it alone. */
  lemma {:induction false} TakenLast(q: int, x: NewOrderArgs, i: nat, j: nat, n: nat)
    requires i < |x.lines| && LastOfStock(x, i, j) && j < n <= |x.lines|
    ensures Taken(q, x, i, n) == Adjusted(Taken(q, x, i, j), x.lines[j].quantity)
  {
    hide Adjusted;
    if n > j + 1 {
      TakenLast(q, x, i, j, n - 1);
      assert !SameStock(x.lines[j], x.lines[n - 1]);
    }
  }

  predicate NamedBefore(x: NewOrderArgs, i: nat, n: nat)
    requires i < |x.lines| && n <= |x.lines|
  {
    exists k :: 0 <= k < n && SameStock(x.lines[i], x.lines[k])
  }

  lemma {:induction false} NotNamed(q: int, x: NewOrderArgs, i: nat, n: nat)
    requires i < |x.lines| && n <= |x.lines| && AllOrderSome(x)
    ensures Ordered(x, i, n) >= 0 && (Ordered(x, i, n) == 0 <==> !NamedBefore(x, i, n))
    ensures !NamedBefore(x, i, n) ==> Taken(q, x, i, n) == q
  {
    if n > 0 {
      hide Adjusted;
      var l := x.lines[n - 1];
      assert l in x.lines;
      NotNamed(q, x, i, n - 1);
      assert NamedBefore(x, i, n) <==> NamedBefore(x, i, n - 1) || SameStock(x.lines[i], l);
    }
  }

  /** Rows that differ by other than a multiple of 91 still do after an adjustment. */
  lemma AdjustedDiffer(s: int, t: int, quantity: I8)
    requires -1000 <= s < 0x8000 && -1000 <= t < 0x8000 && 0 <= quantity && (s - t) % 91 != 0
    ensures Adjusted(s, quantity) != Adjusted(t, quantity)
  {
    hide Adjusted;
    AdjustedIs(s, quantity);
    AdjustedIs(t, quantity);
  }

  lemma Residue(t: int, q: int, m: int)
    requires (t - (q - m)) % 91 == 0 && m % 91 != 0
    ensures (q - t) % 91 != 0
  {
  }

  ghost predicate OnlyLine(x: NewOrderArgs, i: nat)
    requires i < |x.lines|
  {
    forall k :: 0 <= k < |x.lines| && k != i ==> !SameStock(x.lines[i], x.lines[k])
  }

  lemma OnlyIff(x: NewOrderArgs, i: nat, j: nat)
    requires i < |x.lines| && LastOfStock(x, i, j)
    ensures OnlyLine(x, i) <==> !NamedBefore(x, i, j)
  {
    if !NamedBefore(x, i, j) {
      assert i == j;
      forall k | 0 <= k < |x.lines| && k != i ensures !SameStock(x.lines[i], x.lines[k]) { }
    } else {
      var k :| 0 <= k < j && SameStock(x.lines[i], x.lines[k]);
      assert !OnlyLine(x, i) by { if i == j { assert k != i; } else { assert SameStock(x.lines[i], x.lines[j]); } }
    }
  }

  /** The row ends with every line that names it taken from it if it is named once, and does not
      if the lines before the last order a number of pieces that 91 does not divide. So while
      these are fewer than 91 in all, it does exactly if it is named once. */
  lemma RowTakenIff(db: Db, x: NewOrderArgs, i: nat, values: seq<Scalar>) returns (j: nat)
    requires Whole(db) && RunTxn(db, NewOrderTxn(x)).1 && i < |x.lines| <= LINES_PER_ORDER && AllOrderSome(x)
    requires StockStored(db, x.lines[i], values) && Quantity(db, x.lines[i]) >= 0
    ensures LastOfStock(x, i, j)
    ensures var after, all := Quantity(RunTxn(db, NewOrderTxn(x)).0, x.lines[i]),
      Taken(Quantity(db, x.lines[i]), x, i, |x.lines|);
      && (OnlyLine(x, i) ==> after == all)
      && (Ordered(x, i, j) % 91 != 0 ==> after != all)
      && (Ordered(x, i, j) < 91 ==> (after == all <==> OnlyLine(x, i)))
  {
    hide RunTxn, Whole, Quantity, Adjusted, StockStored, Taken, Ordered;
    j := StockAfter(db, x, i, values);
    var q := Quantity(db, x.lines[i]);
    QuantityRange(db, x.lines[i]);
    TakenLast(q, x, i, j, |x.lines|);
    TakenBounds(q, x, i, j);
    NotNamed(q, x, i, j);
    OnlyIff(x, i, j);
    assert x.lines[j] in x.lines;
    if Ordered(x, i, j) % 91 != 0 {
      Residue(Taken(q, x, i, j), q, Ordered(x, i, j));
      AdjustedDiffer(q, Taken(q, x, i, j), x.lines[j].quantity);
    }
  }

  lemma QuantityRange(db: Db, l: Line)
    ensures Quantity(db, l) < 0x8000
  {
    StockColumns();
    hide KeyFits, MakeKey, Types, Value, ColumnOffset;
    var s := Column(db, Stock, ItemKey(l.supplyW, l.item), S_QUANTITY);
    assert WellTyped(Int(2), s);
    assert Fits(2, s.value) && Fits(1, s.value / 256);
  }

  // ---------------------------------------------------------------------
  // Orders of the workload
  // ---------------------------------------------------------------------

  ghost predicate HasStock(db: Db, l: Line) {
    Quantity(db, l) >= 0 && exists values :: StockStored(db, l, values)
  }

  /** Quantities are drawn from 1 to 10 (workload/tpcc.cpp:238). */
  ghost predicate WorkloadQuantities(x: NewOrderArgs) {
    |x.lines| <= LINES_PER_ORDER && forall l :: l in x.lines ==> 1 <= l.quantity <= 10
  }

  lemma {:induction false} OrderedBound(x: NewOrderArgs, i: nat, n: nat)
    requires i < |x.lines| && n <= |x.lines| && WorkloadQuantities(x)
    ensures Ordered(x, i, n) <= 10 * n
  {
    if n > 0 {
      assert x.lines[n - 1] in x.lines;
      OrderedBound(x, i, n - 1);
    }
  }

  /** Every line of the order is taken from its stock row. */
  ghost predicate AllTaken(db: Db, db': Db, x: NewOrderArgs) {
    forall i :: 0 <= i < |x.lines| ==> Quantity(db', x.lines[i]) == Taken(Quantity(db, x.lines[i]), x, i, |x.lines|)
  }

  ghost predicate DistinctStock(x: NewOrderArgs) {
    forall i, j :: 0 <= i < j < |x.lines| ==> !SameStock(x.lines[i], x.lines[j])
  }

  /** An order of the workload is taken from the stock in full exactly if no two of its lines are
      for the same item of the same warehouse. */
  lemma AllTakenIff(db: Db, x: NewOrderArgs)
    requires Whole(db) && RunTxn(db, NewOrderTxn(x)).1 && WorkloadQuantities(x)
    requires forall l :: l in x.lines ==> HasStock(db, l)
    ensures AllTaken(db, RunTxn(db, NewOrderTxn(x)).0, x) <==> DistinctStock(x)
  {
    hide RunTxn, Whole, Quantity, Taken, StockStored;
    var db' := RunTxn(db, NewOrderTxn(x)).0;
    forall i | 0 <= i < |x.lines|
      ensures Quantity(db', x.lines[i]) == Taken(Quantity(db, x.lines[i]), x, i, |x.lines|) <==> OnlyLine(x, i)
    {
      assert x.lines[i] in x.lines && HasStock(db, x.lines[i]);
      var values :| StockStored(db, x.lines[i], values);
      var j := RowTakenIff(db, x, i, values);
      OrderedBound(x, i, j);
    }
    assert DistinctStock(x) <==> forall i :: 0 <= i < |x.lines| ==> OnlyLine(x, i) by { DistinctIff(x); }
  }

  lemma DistinctIff(x: NewOrderArgs)
    ensures DistinctStock(x) <==> forall i :: 0 <= i < |x.lines| ==> OnlyLine(x, i)
  {
    if forall i :: 0 <= i < |x.lines| ==> OnlyLine(x, i) {
      forall i, j | 0 <= i < j < |x.lines| ensures !SameStock(x.lines[i], x.lines[j]) { assert OnlyLine(x, i); }
    }
  }
}
