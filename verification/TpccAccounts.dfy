/** The accounts of customers: what they owe plus what they have paid. */
module TpccAccounts {
  import opened TpccCodec
  import opened TpccRows
  import opened TpccAdapters
  import opened TpccTables
  import opened TpccTxns
  import opened TpccRuns
  import opened TpccEffects

  function Balance(db: Db, w: I32, d: I8, c: I32): int {
    IntValue(db, Customer, CustomerKey(w, d, c), C_BALANCE)
  }

  function YtdPayment(db: Db, w: I32, d: I8, c: I32): int {
    IntValue(db, Customer, CustomerKey(w, d, c), C_YTD_PAYMENT)
  }

  function Account(db: Db, w: I32, d: I8, c: I32): int {
    Balance(db, w, d, c) + YtdPayment(db, w, d, c)
  }

  predicate DeliversTo(txn: Txn, w: I32, d: I8, c: I32) {
    txn.DeliverTxn? && txn.del.w == w && txn.del.d == d && txn.del.c == c
  }

  predicate PaysFor(txn: Txn, w: I32, d: I8, c: I32) {
    txn.PaymentTxn? && txn.pay.cw == w && txn.pay.cd == d && txn.pay.c == c
  }

  /** What a transaction charges a customer with: the lines of an order delivered to them. */
  function Charge(db: Db, txn: Txn, w: I32, d: I8, c: I32): int {
    if DeliversTo(txn, w, d, c) && Value(db, DeliveredKey(txn.del, 0)) != [] then Total(db, txn.del, LINES_PER_ORDER)
      else 0
  }

  function Charges(db: Db, txns: seq<Txn>, w: I32, d: I8, c: I32): int {
    if txns == [] then 0
    else
      var before := txns[..|txns| - 1];
      Charges(db, before, w, d, c) + Charge(Run(db, before), txns[|txns| - 1], w, d, c)
  }

  /** The sums that the transaction computes for this customer stay in range. */
  predicate InRange(db: Db, txn: Txn, w: I32, d: I8, c: I32) {
    && (PaysFor(txn, w, d, c) ==>
      Fits(8, Balance(db, w, d, c) - txn.pay.amount) && Fits(8, YtdPayment(db, w, d, c) + txn.pay.amount))
    && (DeliversTo(txn, w, d, c) ==> Fits(8, Balance(db, w, d, c) + Charge(db, txn, w, d, c)))
  }

  ghost predicate Moves(db: Db, db': Db, w: I32, d: I8, c: I32, charge: int, exact: bool) {
    && (Account(db', w, d, c) - Account(db, w, d, c) - charge) % RANGE == 0
    && (exact ==> Account(db', w, d, c) == Account(db, w, d, c) + charge)
  }

  lemma WrapRange(x: int)
    ensures (Wrap(8, x) - x) % RANGE == 0 && (Fits(8, x) ==> Wrap(8, x) == x)
  {
    hide Wrap, Carry, Pow256, Fits;
    PowRange();
    WrapCarry(8, x);
    assert Wrap(8, x) - x == RANGE * -Carry(8, x);
    Multiple(-Carry(8, x));
    if Fits(8, x) { WrapFits(8, x); }
  }

  /** A payment moves its amount from BALANCE to YTD_PAYMENT. */
  lemma PaymentMoves(db: Db, txn: Txn, w: I32, d: I8, c: I32)
    requires Whole(db) && PaysFor(txn, w, d, c) && RunTxn(db, txn).1
    ensures Moves(db, RunTxn(db, txn).0, w, d, c, 0, InRange(db, txn, w, d, c))
  {
    hide KeyFits, MakeKey, RunTxn, Wrap, Fits, Whole, IntValue, Value, Total;
    PaymentBytes(db, txn.pay);
    var b, y, a := Balance(db, w, d, c), YtdPayment(db, w, d, c), txn.pay.amount;
    WrapRange(b - a);
    WrapRange(y + a);
    assert ((Wrap(8, b - a) - (b - a)) + (Wrap(8, y + a) - (y + a))) % RANGE == 0;
  }

  lemma DeliveryMoves(db: Db, txn: Txn, w: I32, d: I8, c: I32)
    requires Whole(db) && DeliversTo(txn, w, d, c)
    ensures Moves(db, RunTxn(db, txn).0, w, d, c, Charge(db, txn, w, d, c), InRange(db, txn, w, d, c))
  {
    hide KeyFits, MakeKey, RunTxn, Wrap, Fits, Whole, Value, Total, Delivered, DecodeInt;
    var x, ck := txn.del, CustomerKey(w, d, c);
    DeliverBytes(db, x);
    ColumnFrame(db, txn, Customer, ck, C_YTD_PAYMENT);
    if Value(db, DeliveredKey(x, 0)) == [] {
      LengthKept(db, txn, Customer, ck, C_BALANCE);
    } else {
      WrapRange(Balance(db, w, d, c) + Total(db, x, LINES_PER_ORDER));
    }
  }

  /** Every transaction, committed or not, changes BALANCE plus YTD_PAYMENT of a customer by what
      it delivers to them, modulo the range of the sums, and exactly where they stay in range. */
  lemma AccountStep(db: Db, txn: Txn, w: I32, d: I8, c: I32)
    requires Whole(db)
    ensures Moves(db, RunTxn(db, txn).0, w, d, c, Charge(db, txn, w, d, c), InRange(db, txn, w, d, c))
  {
    hide KeyFits, MakeKey, Value, RunTxn, DecodeInt, Fits, Whole, InRange, Total;
    var ck := CustomerKey(w, d, c);
    if DeliversTo(txn, w, d, c) {
      DeliveryMoves(db, txn, w, d, c);
    } else if !RunTxn(db, txn).1 {
      AbortKeeps(db, txn);
    } else if PaysFor(txn, w, d, c) {
      PaymentMoves(db, txn, w, d, c);
    } else {
      ColumnFrame(db, txn, Customer, ck, C_BALANCE);
      ColumnFrame(db, txn, Customer, ck, C_YTD_PAYMENT);
    }
  }

  lemma MovesOn(db: Db, db': Db, db'': Db, w: I32, d: I8, c: I32, x: int, y: int, e: bool, f: bool)
    requires Moves(db, db', w, d, c, x, e) && Moves(db', db'', w, d, c, y, f)
    ensures Moves(db, db'', w, d, c, x + y, e && f)
  {
    hide Account;
    var a, b := Account(db', w, d, c) - Account(db, w, d, c) - x, Account(db'', w, d, c) - Account(db', w, d, c) - y;
    assert (a + b) % RANGE == 0;
  }

  lemma NothingMoves(db: Db, w: I32, d: I8, c: I32)
    ensures Moves(db, db, w, d, c, 0, true)
  {
    hide Account;
  }

  predicate AllInRange(db: Db, txns: seq<Txn>, w: I32, d: I8, c: I32) {
    txns == [] ||
    var before := txns[..|txns| - 1];
    AllInRange(db, before, w, d, c) && InRange(Run(db, before), txns[|txns| - 1], w, d, c)
  }

  /** Over every run of transactions: what a customer owes and has paid grows by exactly what was
      delivered to them. */
  lemma {:induction false} AccountRun(db: Db, txns: seq<Txn>, w: I32, d: I8, c: I32)
    requires Whole(db)
    ensures Whole(Run(db, txns))
    ensures Moves(db, Run(db, txns), w, d, c, Charges(db, txns, w, d, c), AllInRange(db, txns, w, d, c))
  {
    hide Whole, RunTxn, Moves, InRange, Charge;
    if txns == [] {
      NothingMoves(db, w, d, c);
    } else {
      var before, txn := txns[..|txns| - 1], txns[|txns| - 1];
      AccountRun(db, before, w, d, c);
      StaysWhole(Run(db, before), txn);
      AccountStep(Run(db, before), txn, w, d, c);
      MovesOn(db, Run(db, before), Run(db, txns), w, d, c, Charges(db, before, w, d, c),
        Charge(Run(db, before), txn, w, d, c),
              AllInRange(db, before, w, d, c), InRange(Run(db, before), txn, w, d, c));
    }
  }
}
