/** Scalars, the nine table schemas, storage keys and row encoding of the TPC-C tables
    (execution/tpcc/types.h, scalar.h and table.h). Integers are stored little-endian in two's
    complement. */
module TpccCodec {
  import opened Prelude

  type Byte = x: int | 0 <= x < 256
  type Bytes = seq<Byte>

  // ---------------------------------------------------------------------
  // Integers
  // ---------------------------------------------------------------------

  /** The low w bytes of x. */
  function EncodeInt(w: nat, x: int): (b: Bytes)
    ensures |b| == w
  {
    if w == 0 then [] else [x % 256] + EncodeInt(w - 1, x / 256)
  }

  /** The top byte carries the sign. */
  function DecodeInt(b: Bytes): int {
    if |b| == 0 then 0
    else if |b| == 1 then (if b[0] < 128 then b[0] else b[0] - 256)
    else b[0] + 256 * DecodeInt(b[1..])
  }

  /** x is representable in w bytes. */
  predicate Fits(w: nat, x: int) {
    if w == 0 then x == 0 else if w == 1 then -128 <= x < 128 else Fits(w - 1, x / 256)
  }

  lemma {:induction false} DecodeEncode(w: nat, x: int)
    requires Fits(w, x)
    ensures DecodeInt(EncodeInt(w, x)) == x
  {
    if w > 1 {
      DecodeEncode(w - 1, x / 256);
      assert EncodeInt(w, x)[1..] == EncodeInt(w - 1, x / 256);
    }
  }

  lemma {:induction false} EncodeDecode(b: Bytes)
    ensures EncodeInt(|b|, DecodeInt(b)) == b && Fits(|b|, DecodeInt(b))
  {
    if |b| > 1 {
      EncodeDecode(b[1..]);
      assert DecodeInt(b) % 256 == b[0] && DecodeInt(b) / 256 == DecodeInt(b[1..]);
      assert b == [b[0]] + b[1..];
    } else if |b| == 1 {
      assert EncodeInt(1, DecodeInt(b)) == [b[0]];
    }
  }

  /** What a w-byte variable holds after x is stored in it. */
  function Wrap(w: nat, x: int): (y: int)
    ensures Fits(w, y)
  {
    EncodeDecode(EncodeInt(w, x));
    DecodeInt(EncodeInt(w, x))
  }

  function Carry(w: nat, x: int): int {
    if w == 0 then x else if w == 1 then (x + 128) / 256 else Carry(w - 1, x / 256)
  }

  function Pow256(w: nat): (p: nat)
    ensures p > 0
  {
    if w == 0 then 1 else 256 * Pow256(w - 1)
  }

  /** Byte i of a stored integer is its i-th digit to the base 256. */
  lemma {:induction false} LittleEndian(w: nat, x: int, i: nat)
    requires i < w
    ensures EncodeInt(w, x)[i] == x / Pow256(i) % 256
  {
    if i > 0 {
      LittleEndian(w - 1, x / 256, i - 1);
      DivTwice(x, Pow256(i - 1));
    }
  }

  lemma DivTwice(x: int, p: nat)
    requires p > 0
    ensures x / 256 / p == x / (256 * p)
  {
    var q := x / 256 / p;
    var r := x - 256 * p * q;
    assert x / 256 == p * q + x / 256 % p;
    assert x == 256 * (x / 256) + x % 256;
    assert 256 * (p * q) == 256 * p * q;
    assert 0 <= x / 256 % p <= p - 1;
    assert 0 <= r < 256 * p;
    DivUnique(x, 256 * p, q, r);
  }

  lemma DivUnique(x: int, d: nat, q: int, r: nat)
    requires d > 0 && x == d * q + r && r < d
    ensures x / d == q
  {
    var e := x / d - q;
    assert x == d * (x / d) + x % d;
    assert d * e == d * (x / d) - d * q;
    SmallMultiple(d, e);
  }

  lemma SmallMultiple(d: int, e: int)
    requires -d < d * e < d
    ensures e == 0
  {
  }

  /** The integers of w bytes in two's complement. */
  lemma {:induction false} FitsIff(w: nat, x: int)
    requires w > 0
    ensures Fits(w, x) <==> -128 * Pow256(w - 1) <= x < 128 * Pow256(w - 1)
  {
    if w > 1 {
      FitsIff(w - 1, x / 256);
      ScaleRange(x, 128 * Pow256(w - 2));
    }
  }

  lemma ScaleRange(x: int, h: int)
    ensures -h <= x / 256 < h <==> -256 * h <= x < 256 * h
  {
  }

  lemma WrapStep(w: nat, x: int)
    requires w > 1
    ensures Wrap(w, x) == x % 256 + 256 * Wrap(w - 1, x / 256)
  {
    assert EncodeInt(w, x)[1..] == EncodeInt(w - 1, x / 256);
  }

  lemma WrapSmall(w: nat, x: int)
    requires w <= 1
    ensures Wrap(w, x) == if w == 0 then 0 else x - 256 * ((x + 128) / 256)
  {
  }

  lemma PowStep(w: nat, k: int)
    requires w > 0
    ensures Pow256(w) * k == 256 * (Pow256(w - 1) * k)
  {
    assert (256 * Pow256(w - 1)) * k == 256 * (Pow256(w - 1) * k);
  }

  /** Storing changes a value by a multiple of the range only. */
  lemma {:induction false} WrapCarry(w: nat, x: int)
    ensures Wrap(w, x) == x - Pow256(w) * Carry(w, x)
  {
    hide Wrap;
    if w <= 1 {
      WrapSmall(w, x);
      assert Pow256(0) == 1 && Pow256(1) == 256;
    } else {
      hide Pow256;
      WrapStep(w, x);
      WrapCarry(w - 1, x / 256);
      PowStep(w, Carry(w - 1, x / 256));
    }
  }

  lemma Bytewise(x: int, p: int)
    ensures (x + 256 * p) / 256 == x / 256 + p && (x + 256 * p) % 256 == x % 256
  {
  }

  lemma PeriodSmall(w: nat, x: int, k: int)
    requires w <= 1
    ensures Wrap(w, x + Pow256(w) * k) == Wrap(w, x)
  {
    hide Wrap;
    assert Pow256(1) == 256;
    WrapSmall(w, x);
    WrapSmall(w, x + Pow256(w) * k);
    Bytewise(x + 128, k);
  }

  lemma {:induction false} WrapPeriod(w: nat, x: int, k: int)
    ensures Wrap(w, x + Pow256(w) * k) == Wrap(w, x)
  {
    hide Wrap;
    if w <= 1 {
      PeriodSmall(w, x, k);
    } else {
      hide Pow256;
      var p := Pow256(w - 1) * k;
      PowStep(w, k);
      WrapStep(w, x);
      WrapStep(w, x + 256 * p);
      WrapPeriod(w - 1, x / 256, k);
      Bytewise(x, p);
    }
  }

  /** A sum may be cut at every step or once at the end. */
  lemma WrapAdd(w: nat, a: int, b: int)
    ensures Wrap(w, Wrap(w, a) + b) == Wrap(w, a + b)
  {
    hide Wrap, Carry, Pow256;
    WrapCarry(w, a);
    assert a + b - Pow256(w) * Carry(w, a) == a + b + Pow256(w) * (-Carry(w, a));
    WrapPeriod(w, a + b, -Carry(w, a));
  }

  lemma WrapFits(w: nat, x: int)
    requires Fits(w, x)
    ensures Wrap(w, x) == x
  {
    DecodeEncode(w, x);
  }

  // ---------------------------------------------------------------------
  // Scalars
  // ---------------------------------------------------------------------

  datatype Type = Int(width: nat) | Text(width: nat)

  /** A text scalar keeps the width of its type beside its buffer. */
  datatype Scalar = IntS(width: nat, value: int) | TextS(width: nat, buffer: Bytes)

  /** n bytes of memory from an offset on; what lies beyond the string reads as zero. */
  function Window(b: Bytes, from: nat, n: nat): (r: Bytes)
    ensures |r| == n
  {
    seq(n, i requires 0 <= i < n => if from + i < |b| then b[from + i] else 0)
  }

  /** data(), for as many bytes as the type has. */
  function ScalarBytes(s: Scalar): (b: Bytes)
    ensures |b| == s.width
  {
    if s.IntS? then EncodeInt(s.width, s.value) else Window(s.buffer, 0, s.width)
  }

  /** MakeScalar */
  function MakeScalar(t: Type, b: Bytes): (s: Scalar)
    ensures WellTyped(t, s)
  {
    var data := Window(b, 0, t.width);
    EncodeDecode(data);
    if t.Int? then IntS(t.width, DecodeInt(data)) else TextS(t.width, data)
  }

  predicate WellTyped(t: Type, s: Scalar) {
    s.width == t.width && if t.Int? then s.IntS? && Fits(s.width, s.value) else s.TextS? && |s.buffer| == s.width
  }

  /** ValidateType looks at the name of the type: the width of a text is not compared. */
  predicate NameMatches(t: Type, s: Scalar) {
    if t.Int? then s.IntS? && s.width == t.width else s.TextS?
  }

  /** Reading back the bytes of a scalar. */
  lemma ScalarRoundTrip(t: Type, s: Scalar)
    requires WellTyped(t, s)
    ensures MakeScalar(t, ScalarBytes(s)) == s
  {
    assert Window(ScalarBytes(s), 0, t.width) == ScalarBytes(s);
    if t.Int? { DecodeEncode(s.width, s.value); }
  }

  // ---------------------------------------------------------------------
  // Schemas
  // ---------------------------------------------------------------------

  datatype Table = Warehouse | District | Customer | History | NewOrder | Order | OrderLine | Item | Stock

  function NumColumns(t: Table): (n: nat)
    ensures n < 128
  {
    match t
    case Warehouse => 5
    case District => 7
    case Customer => 15
    case History => 9
    case NewOrder => 4
    case Order => 8
    case OrderLine => 10
    case Item => 6
    case Stock => 8
  }

  /** The column types, the primary key columns first. */
  function Types(t: Table): (types: seq<Type>)
    ensures |types| == NumColumns(t)
  {
    match t
    case Warehouse => [Int(4), Text(10), Text(71), Int(4), Int(8)]
    case District => [Int(4), Int(1), Text(10), Text(71), Int(4), Int(8), Int(4)]
    case Customer => [Int(4), Int(1), Int(4), Text(34), Text(71), Text(16), Int(8), Text(2), Int(8), Int(4),
                      Int(8), Int(8), Int(2), Int(2), Text(250)]
    case History => [Int(4), Int(1), Int(4), Int(4), Int(1), Int(4), Int(8), Int(4), Text(24)]
    case NewOrder => [Int(4), Int(1), Int(4), Int(1)]
    case Order => [Int(4), Int(1), Int(4), Int(4), Int(8), Int(1), Int(1), Int(1)]
    case OrderLine => [Int(4), Int(1), Int(4), Int(1), Int(4), Int(4), Int(8), Int(1), Int(4), Text(24)]
    case Item => [Int(4), Int(4), Int(4), Text(24), Int(4), Text(50)]
    case Stock => [Int(4), Int(4), Int(2), Text(240), Int(4), Int(2), Int(2), Text(50)]
  }

  function PKeySize(t: Table): nat {
    match t
    case Warehouse => 1
    case District => 2
    case Customer => 3
    case History => 4
    case NewOrder => 3
    case Order => 3
    case OrderLine => 4
    case Item => 2
    case Stock => 2
  }

  predicate Grouped(t: Table) {
    !t.Warehouse? && !t.District? && !t.Customer?
  }

  function Id(t: Table): (id: Byte)
    ensures TableOf(id) == Some(t)
  {
    match t
    case Warehouse => 0
    case District => 1
    case Customer => 2
    case History => 3
    case NewOrder => 4
    case Order => 5
    case OrderLine => 6
    case Item => 7
    case Stock => 8
  }

  function TableOf(id: Byte): Option<Table> {
    if id == 0 then Some(Warehouse) else if id == 1 then Some(District) else if id == 2 then Some(Customer)
    else if id == 3 then Some(History) else if id == 4 then Some(NewOrder) else if id == 5 then Some(Order)
    else if id == 6 then Some(OrderLine) else if id == 7 then Some(Item) else if id == 8 then Some(Stock) else None
  }

  /** Primary key columns are integers, and the first, which decides the partition, has four
      bytes in every table. */
  lemma KeyColumns(t: Table)
    ensures 0 < PKeySize(t) < |Types(t)| < 128 && Types(t)[0] == Int(4)
    ensures forall i :: 0 <= i < PKeySize(t) ==> Types(t)[i].Int? && Types(t)[i].width in {1, 4}
  {
  }

  // ---------------------------------------------------------------------
  // Storage keys
  // ---------------------------------------------------------------------

  function EncodeInts(types: seq<Type>, values: seq<int>): Bytes
    requires |types| == |values|
  {
    if types == [] then [] else EncodeInt(types[0].width, values[0]) + EncodeInts(types[1..], values[1..])
  }

  function DecodeInts(types: seq<Type>, b: Bytes): (seq<int>, Bytes) {
    if types == [] then ([], b)
    else
      var n := if types[0].width <= |b| then types[0].width else |b|;
      var (rest, tail) := DecodeInts(types[1..], b[n..]);
      ([DecodeInt(b[..n])] + rest, tail)
  }

  predicate AllFit(types: seq<Type>, values: seq<int>) {
    |types| == |values| && forall i :: 0 <= i < |types| ==> Fits(types[i].width, values[i])
  }

  lemma DecodeHead(types: seq<Type>, first: Bytes, more: Bytes)
    requires types != [] && |first| == types[0].width
    ensures DecodeInts(types, first + more) == var (rest, tail) := DecodeInts(types[1..], more);
      ([DecodeInt(first)] + rest, tail)
  {
    assert (first + more)[..|first|] == first && (first + more)[|first|..] == more;
  }

  lemma {:induction false} DecodeEncodeInts(types: seq<Type>, values: seq<int>, tail: Bytes)
    requires AllFit(types, values)
    ensures DecodeInts(types, EncodeInts(types, values) + tail) == (values, tail)
  {
    if types == [] {
      assert EncodeInts(types, values) + tail == tail;
    } else {
      hide EncodeInt, DecodeInt, Fits, DecodeInts;
      var first, rest := EncodeInt(types[0].width, values[0]), EncodeInts(types[1..], values[1..]);
      assert EncodeInts(types, values) + tail == first + (rest + tail);
      DecodeHead(types, first, rest + tail);
      DecodeEncode(types[0].width, values[0]);
      DecodeEncodeInts(types[1..], values[1..], tail);
      assert values == [values[0]] + values[1..];
    }
  }

  /** The columns after the first that make up the primary key. */
  function OtherKeyTypes(t: Table): seq<Type> {
    KeyColumns(t);
    Types(t)[1..PKeySize(t)]
  }

  predicate KeyFits(t: Table, pkey: seq<int>) {
    |pkey| == PKeySize(t) > 0 && Fits(4, pkey[0]) && AllFit(OtherKeyTypes(t), pkey[1..])
  }

  /** A place in the database: a table, a primary key and, in an ungrouped table, a column. */
  datatype Loc = Loc(table: Table, pkey: seq<int>, col: nat)

  function LocOf(t: Table, pkey: seq<int>, col: nat): Loc {
    Loc(t, pkey, if Grouped(t) then 0 else col)
  }

  /** MakeStorageKey and the keys of MakeStorageKeys: the first primary key column, the table id,
      the other primary key columns and, unless the columns are grouped, the column. The key can
      be read back, so it determines table, primary key and column across all nine schemas. */
  function MakeKey(t: Table, pkey: seq<int>, col: nat): (k: Bytes)
    requires KeyFits(t, pkey) && col < 128
    ensures ParseKey(k) == Some(LocOf(t, pkey, col))
  {
    KeyRoundTrip(t, pkey, col);
    KeyBytes(t, pkey, col)
  }

  function KeyBytes(t: Table, pkey: seq<int>, col: nat): Bytes
    requires KeyFits(t, pkey) && col < 128
  {
    EncodeInt(4, pkey[0]) + [Id(t)] + EncodeInts(OtherKeyTypes(t), pkey[1..]) + if Grouped(t) then [] else [col]
  }

  /** Reads a storage key back. */
  function ParseKey(k: Bytes): Option<Loc> {
    if |k| < 5 || TableOf(k[4]).None? then None
    else
      var t := TableOf(k[4]).value;
      var (rest, tail) := DecodeInts(OtherKeyTypes(t), k[5..]);
      Some(Loc(t, [DecodeInt(k[..4])] + rest, if tail == [] then 0 else tail[0]))
  }

  lemma KeyRoundTrip(t: Table, pkey: seq<int>, col: nat)
    requires KeyFits(t, pkey) && col < 128
    ensures ParseKey(KeyBytes(t, pkey, col)) == Some(LocOf(t, pkey, col))
  {
    hide EncodeInt, DecodeInt, Fits, EncodeInts, DecodeInts, TableOf, OtherKeyTypes;
    var first, tail := EncodeInt(4, pkey[0]), if Grouped(t) then [] else [col];
    var more := EncodeInts(OtherKeyTypes(t), pkey[1..]) + tail;
    var k := KeyBytes(t, pkey, col);
    assert k == first + ([Id(t)] + more);
    assert k[..4] == first && k[4] == Id(t) && k[5..] == more;
    DecodeEncode(4, pkey[0]);
    DecodeEncodeInts(OtherKeyTypes(t), pkey[1..], tail);
    assert pkey == [pkey[0]] + pkey[1..];
  }

  /** Different places have different storage keys. */
  lemma KeysInjective(t: Table, pkey: seq<int>, col: nat, t': Table, pkey': seq<int>, col': nat)
    requires KeyFits(t, pkey) && col < 128 && KeyFits(t', pkey') && col' < 128
    ensures MakeKey(t, pkey, col) == MakeKey(t', pkey', col') <==> LocOf(t, pkey, col) == LocOf(t', pkey', col')
  {
    hide ParseKey;
    if LocOf(t, pkey, col) == LocOf(t', pkey', col') && Grouped(t) {
      GroupedKey(t, pkey, col, col');
    }
  }

  lemma GroupedKey(t: Table, pkey: seq<int>, col: nat, col': nat)
    requires KeyFits(t, pkey) && col < 128 && col' < 128 && Grouped(t)
    ensures MakeKey(t, pkey, col) == MakeKey(t, pkey, col')
  {
  }

  /** The sharder reads the partition off the first four bytes: a row stays in one partition. */
  lemma FirstColumnLeads(t: Table, pkey: seq<int>, col: nat)
    requires KeyFits(t, pkey) && col < 128
    ensures |MakeKey(t, pkey, col)| >= 4 && DecodeInt(MakeKey(t, pkey, col)[..4]) == pkey[0]
  {
    var k := MakeKey(t, pkey, col);
    assert k[..4] == EncodeInt(4, pkey[0]);
    DecodeEncode(4, pkey[0]);
  }
}
