/** Rows of grouped tables: the columns outside the primary key, one after the other
    (execution/tpcc/table.h). */
module TpccRows {
  import opened TpccCodec

  function RowTypes(t: Table): seq<Type> {
    KeyColumns(t);
    Types(t)[PKeySize(t)..]
  }

  lemma RowColumns(t: Table)
    ensures 0 < PKeySize(t) < |Types(t)| < 128 && |RowTypes(t)| == |Types(t)| - PKeySize(t)
    ensures forall c :: PKeySize(t) <= c < |Types(t)| ==> RowTypes(t)[c - PKeySize(t)] == Types(t)[c]
  {
    hide Types;
    KeyColumns(t);
  }

  /** Where the i-th column of a row starts. */
  function Offset(types: seq<Type>, i: nat): nat
    requires i <= |types|
  {
    if i == 0 then 0 else Offset(types, i - 1) + types[i - 1].width
  }

  function EncodeRow(values: seq<Scalar>): Bytes {
    if values == [] then [] else EncodeRow(values[..|values| - 1]) + ScalarBytes(values[|values| - 1])
  }

  /** The column at an offset of a row. */
  function ColumnAt(t: Type, row: Bytes, offset: nat): Scalar {
    MakeScalar(t, Window(row, offset, t.width))
  }

  predicate SameWidths(types: seq<Type>, values: seq<Scalar>) {
    |types| == |values| && forall i :: 0 <= i < |types| ==> values[i].width == types[i].width
  }

  predicate AllWellTyped(types: seq<Type>, values: seq<Scalar>) {
    |types| == |values| && forall i :: 0 <= i < |types| ==> WellTyped(types[i], values[i])
  }

  lemma {:induction false} RowPrefix(types: seq<Type>, values: seq<Scalar>, i: nat)
    requires SameWidths(types, values) && i <= |types|
    ensures |EncodeRow(values[..i])| == Offset(types, i)
  {
    if i > 0 {
      RowPrefix(types, values, i - 1);
      assert values[..i][..i - 1] == values[..i - 1];
    }
  }

  lemma RowPush(values: seq<Scalar>, v: Scalar)
    ensures EncodeRow(values + [v]) == EncodeRow(values) + ScalarBytes(v)
  {
    assert (values + [v])[..|values|] == values;
  }

  lemma {:induction false} RowConcat(a: seq<Scalar>, b: seq<Scalar>)
    ensures EncodeRow(a + b) == EncodeRow(a) + EncodeRow(b)
  {
    hide ScalarBytes;
    if b == [] {
      assert a + b == a;
    } else {
      var m := |b| - 1;
      assert a + b == a + b[..m] + [b[m]];
      RowPush(a + b[..m], b[m]);
      RowPush(b[..m], b[m]);
      assert b == b[..m] + [b[m]];
      RowConcat(a, b[..m]);
    }
  }

  /** A row falls apart into what is before a column, the column and what is after it. */
  lemma RowSplit(values: seq<Scalar>, i: nat)
    requires i < |values|
    ensures EncodeRow(values) == EncodeRow(values[..i]) + ScalarBytes(values[i]) + EncodeRow(values[i + 1..])
  {
    hide EncodeRow, ScalarBytes;
    assert values == values[..i] + [values[i]] + values[i + 1..];
    RowConcat(values[..i] + [values[i]], values[i + 1..]);
    RowPush(values[..i], values[i]);
  }

  lemma WindowMiddle(a: Bytes, b: Bytes, c: Bytes)
    ensures Window(a + b + c, |a|, |b|) == b
  {
    assert forall i :: 0 <= i < |b| ==> (a + b + c)[|a| + i] == b[i];
  }

  /** Decoding an encoded row returns its columns. */
  lemma RowRoundTrip(types: seq<Type>, values: seq<Scalar>, i: nat)
    requires AllWellTyped(types, values) && i < |types|
    ensures ColumnAt(types[i], EncodeRow(values), Offset(types, i)) == values[i]
  {
    hide EncodeRow, MakeScalar, ScalarBytes, Window, Offset;
    assert WellTyped(types[i], values[i]) && SameWidths(types, values);
    RowPrefix(types, values, i);
    RowSplit(values, i);
    WindowMiddle(EncodeRow(values[..i]), ScalarBytes(values[i]), EncodeRow(values[i + 1..]));
    ScalarRoundTrip(types[i], values[i]);
  }

  /** std::string::replace with as many bytes as are removed. It throws on an offset beyond the
      end, which leaves the string alone. */
  function Overwrite(row: Bytes, offset: nat, bytes: Bytes): Bytes {
    if offset > |row| then row
    else row[..offset] + bytes + if offset + |bytes| <= |row| then row[offset + |bytes|..] else []
  }

  /** column_offsets_: the primary key columns are not stored and have offset 0. */
  function ColumnOffset(t: Table, c: nat): nat
    requires c < NumColumns(t)
  {
    if c < PKeySize(t) then 0 else Offset(RowTypes(t), c - PKeySize(t))
  }

  predicate ColumnsOf(t: Table, cols: seq<nat>) {
    forall i :: 0 <= i < |cols| ==> cols[i] < NumColumns(t)
  }

  /** The update function that Table::Update hands to the adapter. */
  function UpdateRow(t: Table, row: Bytes, cols: seq<nat>, values: seq<Scalar>): Bytes
    requires |cols| == |values| && ColumnsOf(t, cols)
  {
    if cols == [] then row
    else
      var m := |cols| - 1;
      Overwrite(UpdateRow(t, row, cols[..m], values[..m]), ColumnOffset(t, cols[m]), ScalarBytes(values[m]))
  }

  predicate NonKey(t: Table, cols: seq<nat>) {
    forall i :: 0 <= i < |cols| ==> PKeySize(t) <= cols[i] < NumColumns(t)
  }

  /** The stored columns of a row with some of them replaced. */
  function SetColumns(t: Table, row: seq<Scalar>, cols: seq<nat>, values: seq<Scalar>): (r: seq<Scalar>)
    requires |cols| == |values| && NonKey(t, cols) && |row| == |RowTypes(t)|
    ensures |r| == |row|
  {
    if cols == [] then row
    else
      var m := |cols| - 1;
      SetColumns(t, row, cols[..m], values[..m])[cols[m] - PKeySize(t) := values[m]]
  }

  lemma OverwriteColumn(types: seq<Type>, row: seq<Scalar>, c: nat, v: Scalar)
    requires SameWidths(types, row) && c < |types| && v.width == types[c].width
    ensures Overwrite(EncodeRow(row), Offset(types, c), ScalarBytes(v)) == EncodeRow(row[c := v])
  {
    hide EncodeRow, ScalarBytes;
    var row' := row[c := v];
    RowPrefix(types, row, c);
    RowSplit(row, c);
    RowSplit(row', c);
    assert row'[..c] == row[..c] && row'[c + 1..] == row[c + 1..];
    var before, old', after := EncodeRow(row[..c]), ScalarBytes(row[c]), EncodeRow(row[c + 1..]);
    assert (before + old' + after)[|before|..][|old'|..] == after;
  }

  ghost predicate ValuesFit(t: Table, cols: seq<nat>, values: seq<Scalar>) {
    |cols| == |values| && NonKey(t, cols) && forall i :: 0 <= i < |cols| ==> values[i].width == Types(t)[cols[i]].width
  }

  /** An update in place equals re-encoding the row with just those columns replaced. */
  lemma {:induction false} UpdateIsReencode(t: Table, row: seq<Scalar>, cols: seq<nat>, values: seq<Scalar>)
    requires SameWidths(RowTypes(t), row) && ValuesFit(t, cols, values)
    ensures SameWidths(RowTypes(t), SetColumns(t, row, cols, values))
    ensures UpdateRow(t, EncodeRow(row), cols, values) == EncodeRow(SetColumns(t, row, cols, values))
  {
    hide EncodeRow, ScalarBytes, Overwrite, Types, PKeySize, NumColumns, RowTypes, Offset;
    RowColumns(t);
    if cols != [] {
      var m := |cols| - 1;
      UpdateIsReencode(t, row, cols[..m], values[..m]);
      OverwriteColumn(RowTypes(t), SetColumns(t, row, cols[..m], values[..m]), cols[m] - PKeySize(t), values[m]);
    }
  }

  /** A text scalar of a narrower type passes the name check and shifts what follows: the row
      comes out short by the missing width. */
  lemma NarrowTextShortens(types: seq<Type>, values: seq<Scalar>, i: nat)
    requires |types| == |values| && i < |types| &&
      (forall j :: 0 <= j < |types| && j != i ==> values[j].width == types[j].width)
    ensures |EncodeRow(values)| + types[i].width == Offset(types, |types|) + values[i].width
  {
    hide EncodeRow, ScalarBytes;
    var full := values[i := TextS(types[i].width, [])];
    assert SameWidths(types, full);
    RowPrefix(types, full, |types|);
    assert full[..|types|] == full;
    RowSplit(values, i);
    RowSplit(full, i);
    assert full[..i] == values[..i] && full[i + 1..] == values[i + 1..];
    Lengths(values[i], full[i]);
  }

  /** What the scalars of a row carry. */
  predicate Proper(s: Scalar) {
    if s.IntS? then Fits(s.width, s.value) else |s.buffer| == s.width
  }

  /** A row whose values have the names of the column types reads back as it was written exactly if
      they have the widths as well. The name check alone does not see to that for texts. */
  lemma ReadsBackIff(types: seq<Type>, values: seq<Scalar>)
    requires |types| == |values| && forall i ::
      0 <= i < |types| ==> NameMatches(types[i], values[i]) && Proper(values[i])
    ensures (forall i :: 0 <= i < |types| ==> ColumnAt(types[i], EncodeRow(values), Offset(types, i)) == values[i]) <==>
      SameWidths(types, values)
  {
    hide EncodeRow, Offset, Fits, Window;
    if SameWidths(types, values) {
      assert AllWellTyped(types, values);
      forall i | 0 <= i < |types| ensures ColumnAt(types[i], EncodeRow(values), Offset(types, i)) == values[i] {
        RowRoundTrip(types, values, i);
      }
    }
    if forall i :: 0 <= i < |types| ==> ColumnAt(types[i], EncodeRow(values), Offset(types, i)) == values[i] {
      forall i | 0 <= i < |types| ensures values[i].width == types[i].width {
        assert WellTyped(types[i], ColumnAt(types[i], EncodeRow(values), Offset(types, i)));
      }
    }
  }

  function TotalWidth(values: seq<Scalar>): nat {
    if values == [] then 0 else TotalWidth(values[..|values| - 1]) + values[|values| - 1].width
  }

  /** A row is as long as the widths of its values say, not those of its columns. */
  lemma {:induction false} RowLength(values: seq<Scalar>)
    ensures |EncodeRow(values)| == TotalWidth(values)
  {
    if values != [] { RowLength(values[..|values| - 1]); }
  }

  lemma Lengths(a: Scalar, b: Scalar)
    ensures |ScalarBytes(a)| == a.width && |ScalarBytes(b)| == b.width
  {
  }

  lemma FirstOffset(t: Table)
    ensures Offset(RowTypes(t), 0) == 0
  {
  }

  lemma NextOffset(t: Table, i: nat)
    requires PKeySize(t) <= i < |Types(t)|
    ensures i - PKeySize(t) < |RowTypes(t)|
    ensures Offset(RowTypes(t), i + 1 - PKeySize(t)) == Offset(RowTypes(t), i - PKeySize(t)) + Types(t)[i].width
  {
    hide Types, RowTypes, PKeySize;
    RowColumns(t);
  }

  /** InitializeColumnOffsets: primary key columns get offset 0, the others follow each other. */
  method InitializeColumnOffsets(t: Table) returns (offsets: array<nat>, others: seq<nat>)
    ensures fresh(offsets) && offsets.Length == |Types(t)|
    ensures forall i :: 0 <= i < offsets.Length ==>
      offsets[i] == if i < PKeySize(t) then 0 else Offset(RowTypes(t), i - PKeySize(t))
    ensures others == seq(|Types(t)| - PKeySize(t), i => PKeySize(t) + i)
  {
    RowColumns(t);
    hide Types, RowTypes, PKeySize, Offset;
    FirstOffset(t);
    var types, p := Types(t), PKeySize(t);
    offsets := new nat[|types|];
    for i := 0 to p
      invariant forall j :: 0 <= j < i ==> offsets[j] == 0
    {
      offsets[i] := 0;
    }
    var offset := 0;
    others := [];
    for i := p to |types|
      invariant forall j :: 0 <= j < i ==> offsets[j] == if j < p then 0 else Offset(RowTypes(t), j - p)
      invariant offset == Offset(RowTypes(t), i - p) && others == seq(i - p, j => p + j)
    {
      NextOffset(t, i);
      offsets[i] := offset;
      offset := offset + types[i].width;
      others := others + [i];
    }
  }
}
