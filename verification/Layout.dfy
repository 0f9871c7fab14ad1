/** The key layout shared by the sharders, the metadata initializers, the workload's key lists
    and the data loader (common/sharder.cpp, storage/metadata_initializer.cpp,
    workload/workload.h, storage/init.cpp). Keys are numbers. */
module Layout {

  /** SimpleSharder and SimpleMetadataInitializer. */
  function PartitionOf(P: nat, key: nat): nat
    requires P > 0
  {
    key % P
  }

  function HomeOf(P: nat, R: nat, key: nat): nat
    requires P > 0 && R > 0
  {
    key / P % R
  }

  /** SimpleSharder2 and SimpleMetadataInitializer2. */
  function PartitionOf2(P: nat, R: nat, key: nat): nat
    requires P > 0 && R > 0
  {
    key / R % P
  }

  function HomeOf2(R: nat, key: nat): nat
    requires R > 0
  {
    key % R
  }

  /** The d-th key of a simple key list. */
  function ListKey(P: nat, R: nat, p: nat, m: nat, d: nat): nat {
    P * (d * R + m) + p
  }

  /** Division of the host language, which rounds towards zero. */
  function TruncDiv(a: int, b: int): int
    requires b > 0
  {
    if a >= 0 then a / b else -(-a / b)
  }

  /** The KeyList constructor: at least one key, even when none fits. */
  function NumKeys(N: nat, P: nat, R: nat, p: nat, m: nat): nat
    requires P > 0 && R > 0
  {
    var n := TruncDiv(TruncDiv(N - p, P) - m, R);
    if n < 1 then 1 else n
  }

  /** Quotient and remainder by their defining equation. */
  lemma DivModUnique(x: nat, d: nat, q: nat, r: nat)
    requires d > 0 && x == d * q + r && r < d
    ensures x / d == q && x % d == r
  {
    var q' := x / d;
    assert d * q' <= x < d * q' + d;
    if q' < q {
      MulMono(d, q' + 1, q);
    } else if q < q' {
      MulMono(d, q + 1, q');
    }
  }

  lemma MulMono(d: nat, a: nat, b: nat)
    requires a <= b
    ensures d * a <= d * b && d * (a + 1) == d * a + d
  {
    assert d * b == d * a + d * (b - a);
  }

  /** A list key belongs to its partition and its home, and determines its place in the list. */
  lemma ListKeyPlace(P: nat, R: nat, p: nat, m: nat, d: nat)
    requires p < P && m < R
    ensures var key := ListKey(P, R, p, m, d); PartitionOf(P, key) == p && HomeOf(P, R, key) == m && key / P / R == d
  {
    DivModUnique(ListKey(P, R, p, m, d), P, d * R + m, p);
    DivModUnique(d * R + m, R, d, m);
  }

  lemma ListKeyInjective(P: nat, R: nat, p: nat, m: nat, d: nat, p': nat, m': nat, d': nat)
    requires p < P && m < R && p' < P && m' < R && ListKey(P, R, p, m, d) == ListKey(P, R, p', m', d')
    ensures p == p' && m == m' && d == d'
  {
    ListKeyPlace(P, R, p, m, d);
    ListKeyPlace(P, R, p', m', d');
  }

  /** Every key has a place, so the lists together hold every key. */
  lemma EveryKeyListed(P: nat, R: nat, key: nat)
    requires P > 0 && R > 0
    ensures key == ListKey(P, R, PartitionOf(P, key), HomeOf(P, R, key), key / P / R)
  {
    var c := key / P;
    assert c == R * (c / R) + c % R;
    assert key == P * c + key % P;
  }

  /** The second layout is the first with regions and partitions swapped. */
  lemma SecondLayout(P: nat, R: nat, p: nat, m: nat, d: nat)
    requires p < P && m < R
    ensures var key := ListKey(R, P, m, p, d); PartitionOf2(P, R, key) == p && HomeOf2(R, key) == m
  {
    ListKeyPlace(R, P, m, p, d);
  }

  lemma ListKeyMonotone(P: nat, R: nat, p: nat, m: nat, d: nat, e: nat)
    requires d <= e
    ensures ListKey(P, R, p, m, d) <= ListKey(P, R, p, m, e)
  {
    assert d * R <= e * R;
    assert P * (d * R + m) <= P * (e * R + m);
  }

  lemma TruncDivBelow(a: int, b: int, q: int)
    requires b > 0 && q >= 1 && TruncDiv(a, b) >= q
    ensures b * q <= a
  {
    if a >= 0 {
      assert b * (a / b) <= a;
      assert b * q <= b * (a / b);
    }
  }

  /** All keys of a list lie below num_records exactly if its first one does. */
  lemma ListBelowIff(N: nat, P: nat, R: nat, p: nat, m: nat)
    requires p < P && m < R
    ensures (forall d :: 0 <= d < NumKeys(N, P, R, p, m) ==> ListKey(P, R, p, m, d) < N) <==> P * m + p < N
  {
    assert ListKey(P, R, p, m, 0) == P * m + p;
    if P * m + p < N {
      forall d | 0 <= d < NumKeys(N, P, R, p, m) ensures ListKey(P, R, p, m, d) < N {
        if d > 0 { BelowRecords(N, P, R, p, m, d); }
      }
    }
  }

  /** One record in two partitions: the list of the second holds a key, and it is no record. */
  lemma ListBeyond()
    ensures NumKeys(1, 2, 1, 1, 0) == 1 && ListKey(2, 1, 1, 0, 0) == 1
  {
  }

  lemma BelowRecords(N: nat, P: nat, R: nat, p: nat, m: nat, d: nat)
    requires p < P && m < R && TruncDiv(TruncDiv(N - p, P) - m, R) > d
    ensures ListKey(P, R, p, m, d) < N
  {
    var c := TruncDiv(N - p, P);
    TruncDivBelow(c - m, R, d + 1);
    assert R * (d + 1) == d * R + R;
    var col := d * R + m;
    assert 1 <= col + 1 <= c;
    TruncDivBelow(N - p, P, col + 1);
    assert P * (col + 1) == P * col + P;
  }

  /** A list that is not degenerate keeps all its keys below num_records. */
  lemma NonDegenerateBelow(N: nat, P: nat, R: nat, p: nat, m: nat, d: nat)
    requires p < P && m < R && TruncDiv(TruncDiv(N - p, P) - m, R) >= 1 && d < NumKeys(N, P, R, p, m)
    ensures ListKey(P, R, p, m, d) < N
  {
    BelowRecords(N, P, R, p, m, d);
  }

  lemma TruncDivAbove(a: nat, b: nat)
    requires b > 0
    ensures TruncDiv(a, b) >= 0 && a < b * (TruncDiv(a, b) + 1)
  {
    assert a == b * (a / b) + a % b;
    MulMono(b, a / b, a / b);
  }

  /** A list misses at most one of the records of its partition and home. */
  lemma ListMissesAtMostOne(N: nat, P: nat, R: nat, p: nat, m: nat)
    requires p < P && m < R && P * m + p < N
    ensures N <= ListKey(P, R, p, m, NumKeys(N, P, R, p, m) + 1)
  {
    var c := TruncDiv(N - p, P);
    TruncDivAbove(N - p, P);
    if c < m { MulMono(P, c + 1, m); }
    TruncDivAbove(c - m, R);
    var n := NumKeys(N, P, R, p, m);
    MulMono(R, TruncDiv(c - m, R) + 1, n + 1);
    assert (n + 1) * R == R * (n + 1);
    MulMono(P, c + 1, (n + 1) * R + m);
  }

  /** Zipf draws range over the hot keys alone, so they stay below num_records exactly if the
      last hot key does. */
  lemma ZipfHotBelowIff(N: nat, P: nat, R: nat, p: nat, m: nat, hot: nat)
    requires hot > 0
    ensures (forall d :: 0 <= d < hot ==> ListKey(P, R, p, m, d) < N) <==> ListKey(P, R, p, m, hot - 1) < N
  {
    forall d | 0 <= d < hot ensures ListKey(P, R, p, m, d) <= ListKey(P, R, p, m, hot - 1) {
      ListKeyMonotone(P, R, p, m, d, hot - 1);
    }
  }

  /** Eleven hot keys out of ten records. */
  lemma ZipfHotBeyond()
    ensures NumKeys(10, 1, 1, 0, 0) == 10 && ListKey(1, 1, 0, 0, 10) == 10
  {
  }

  // ---------------------------------------------------------------------
  // The loader's threads
  // ---------------------------------------------------------------------

  /** The first key of the partition at or after a thread's start. */
  function FromKey(P: nat, part: nat, start: nat): nat
    requires P > 0
  {
    start + (part + P - start % P) % P
  }

  /** The distance from a start to the next key of the partition. */
  lemma GapMeaning(P: nat, part: nat, s: nat)
    requires part < P && s < P
    ensures (part + P - s) % P == if s <= part then part - s else part + P - s
  {
    if s <= part { DivModUnique(part + P - s, P, 1, part - s); }
    else { DivModUnique(part + P - s, P, 0, part + P - s); }
  }

  lemma FromKeyMeaning(P: nat, part: nat, start: nat, k: nat)
    requires part < P && k >= start
    ensures k % P == part <==> k >= FromKey(P, part, start) && (k - FromKey(P, part, start)) % P == 0
  {
    var s, c := start % P, start / P;
    GapMeaning(P, part, s);
    MulMono(P, c, c);
    assert start == P * c + s;
    var q := c + (if s <= part then 0 else 1);
    assert FromKey(P, part, start) == P * q + part;
    if k >= P * q + part { Residue(P, q, part, k); } else { NoneBetween(P, c, s, part, k); }
  }

  lemma Residue(P: nat, q: nat, part: nat, k: nat)
    requires part < P && k >= P * q + part
    ensures k % P == part <==> (k - (P * q + part)) % P == 0
  {
    var x := k - (P * q + part);
    var a, b := x / P, x % P;
    assert x == P * a + b;
    assert P * (q + a) == P * q + P * a;
    if b + part < P { DivModUnique(k, P, q + a, b + part); }
    else {
      MulMono(P, q + a, q + a);
      DivModUnique(k, P, q + a + 1, b + part - P);
    }
  }

  /** No key of the partition lies between a start and the next one. */
  lemma NoneBetween(P: nat, c: nat, s: nat, part: nat, k: nat)
    requires part < P && s < P && P * c + s <= k < P * (c + if s <= part then 0 else 1) + part
    ensures k % P != part
  {
    MulMono(P, c, c);
    var r := k - P * c;
    if r < P { DivModUnique(k, P, c, r); } else { DivModUnique(k, P, c + 1, r - P); }
  }

  /** The keys that a thread's stride visits. */
  predicate OnStride(P: nat, from: nat, k: nat)
    requires P > 0
  {
    k >= from && (k - from) % P == 0
  }

  lemma StrideStep(P: nat, from: nat, key: nat, k: nat)
    requires P > 0 && OnStride(P, from, key) && key <= k < key + P
    ensures OnStride(P, from, k) <==> k == key
  {
    DivModUnique(k - from, P, (key - from) / P, k - key);
  }

  lemma StrideNext(P: nat, from: nat, key: nat)
    requires P > 0 && OnStride(P, from, key)
    ensures OnStride(P, from, key + P)
  {
    var q := (key - from) / P;
    MulMono(P, q, q);
    DivModUnique(key + P - from, P, q + 1, 0);
  }

  lemma StrideMeaning(P: nat, part: nat, start: nat, k: nat)
    requires part < P && k >= start
    ensures OnStride(P, FromKey(P, part, start), k) <==> PartitionOf(P, k) == part
  {
    FromKeyMeaning(P, part, start, k);
  }

  /** One thread: every P-th key from its first one. */
  method GenerateRange(P: nat, from: nat, end: nat) returns (written: multiset<nat>)
    requires P > 0
    ensures forall k: nat :: written[k] == if k < end && OnStride(P, from, k) then 1 else 0
  {
    assert OnStride(P, from, from);
    assert forall k: nat :: k < from ==> !OnStride(P, from, k);
    hide OnStride;
    written := multiset{};
    var key := from;
    while key < end
      invariant OnStride(P, from, key)
      invariant forall k: nat :: written[k] == if k < key && k < end && OnStride(P, from, k) then 1 else 0
      decreases end - key
    {
      ghost var before := written;
      written := written + multiset{key};
      StrideNext(P, from, key);
      forall k: nat ensures written[k] == if k < key + P && k < end && OnStride(P, from, k) then 1 else 0 {
        if key <= k < key + P { StrideStep(P, from, key, k); }
      }
      key := key + P;
    }
  }

  /** Where thread i starts, for threads of n keys each. */
  function StartOf(n: nat, i: nat): nat {
    n * i
  }

  lemma Starts(N: nat, T: nat, i: nat)
    requires T > 0
    ensures var n := N / T + 1; StartOf(n, 0) == 0 && StartOf(n, i + 1) == StartOf(n, i) + n && StartOf(n, T) > N
  {
    var n := N / T + 1;
    MulMono(n, i, i);
    assert N == T * (N / T) + N % T;
    assert n * T == T * (N / T) + T;
  }

  /** GenerateSimpleData: the threads together write each key of the partition exactly once. */
  method GenerateSimpleData(N: nat, P: nat, T: nat, part: nat) returns (written: multiset<nat>)
    requires part < P && T > 0
    ensures forall k: nat :: written[k] == if k < N && PartitionOf(P, k) == part then 1 else 0
  {
    hide PartitionOf, OnStride, FromKey, StartOf;
    written := multiset{};
    var range := N / T + 1;
    Starts(N, T, 0);
    for i := 0 to T
      invariant forall k: nat ::
        written[k] == if k < StartOf(range, i) && k < N && PartitionOf(P, k) == part then 1 else 0
    {
      Starts(N, T, i);
      var start, next := StartOf(range, i), StartOf(range, i + 1);
      var end := if next < N then next else N;
      var from := FromKey(P, part, start);
      var more := GenerateRange(P, from, end);
      forall k: nat ensures more[k] == if start <= k < end && PartitionOf(P, k) == part then 1 else 0 {
        if k >= start { StrideMeaning(P, part, start, k); } else { StrideFrom(P, part, start, k); }
      }
      written := written + more;
    }
  }

  lemma StrideFrom(P: nat, part: nat, start: nat, k: nat)
    requires P > 0 && k < start
    ensures !OnStride(P, FromKey(P, part, start), k)
  {
  }

  /** GenerateSimpleData2: the same for the second layout, by testing every key. */
  method GenerateSimpleData2(N: nat, P: nat, R: nat, T: nat, part: nat) returns (written: multiset<nat>)
    requires part < P && R > 0 && T > 0
    ensures forall k: nat :: written[k] == if k < N && PartitionOf2(P, R, k) == part then 1 else 0
  {
    hide PartitionOf2, StartOf;
    written := multiset{};
    var range := N / T + 1;
    Starts(N, T, 0);
    for i := 0 to T
      invariant forall k: nat ::
        written[k] == if k < StartOf(range, i) && k < N && PartitionOf2(P, R, k) == part then 1 else 0
    {
      Starts(N, T, i);
      var start := StartOf(range, i);
      var end := if start + range < N then start + range else N;
      var key := start;
      while key < end
        invariant start <= key && (start < end ==> key <= end)
        invariant forall k: nat :: written[k] == if k < key && k < N && PartitionOf2(P, R, k) == part then 1 else 0
        decreases end - key
      {
        var keyPartition := PartitionOf2(P, R, key);
        if keyPartition == part { written := written + multiset{key}; }
        key := key + 1;
      }
    }
  }
}
