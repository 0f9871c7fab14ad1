/** Splitting a transaction by home region and by partition, and merging the finished pieces
    (common/proto_utils.cpp). Remaster programs keep the flag that exempts them from the
    redundancy test. */
module TxnSplit {
  import opened Prelude
  import opened Transactions

  datatype Entry = Entry(key: Key, write: bool, master: nat, value: string)
  datatype Status = NotStarted | Committed | Aborted(reason: string)
  datatype Txn = Txn(id: nat, kind: Kind, home: int, remaster: bool, keys: seq<Entry>,
                     regions: seq<nat>, partitions: seq<nat>, active: seq<nat>, status: Status)
  datatype Sharder = Sharder(partitions: nat, part: Key -> nat)

  ghost predicate ValidSharder(sh: Sharder) {
    forall k :: sh.part(k) < sh.partitions
  }

  // ---------------------------------------------------------------------
  // Sorted lists without repeats
  // ---------------------------------------------------------------------

  ghost predicate Increasing(s: seq<nat>) {
    forall i, j :: 0 <= i < j < |s| ==> s[i] < s[j]
  }

  lemma SomeIn(s: seq<nat>)
    requires s != []
    ensures exists x :: x in s
  {
    assert s[0] in s;
  }

  /** A sorted list without repeats is determined by its elements. */
  lemma {:induction false} IncreasingUnique(a: seq<nat>, b: seq<nat>)
    requires Increasing(a) && Increasing(b) && forall x :: x in a <==> x in b
    ensures a == b
  {
    if a == [] {
      if b != [] { SomeIn(b); }
    } else if b == [] {
      SomeIn(a);
    } else {
      var m, n := |a| - 1, |b| - 1;
      assert a[m] in b && b[n] in a;
      assert a[m] == b[n];
      forall x ensures x in a[..m] <==> x in b[..n] {
        assert x in a[..m] <==> x in a && x != a[m];
        assert x in b[..n] <==> x in b && x != b[n];
      }
      IncreasingUnique(a[..m], b[..n]);
      assert a == a[..m] + [a[m]] && b == b[..n] + [b[n]];
    }
  }

  ghost predicate IsMax(m: nat, s: set<nat>) {
    m in s && forall x :: x in s ==> x <= m
  }

  lemma {:induction false} MaxExists(s: set<nat>)
    requires s != {}
    ensures exists m :: IsMax(m, s)
  {
    var y :| y in s;
    if s == {y} {
      assert IsMax(y, s);
    } else {
      MaxExists(s - {y});
      var m :| IsMax(m, s - {y});
      assert forall x :: x in s ==> x == y || x in s - {y};
      assert IsMax(if m < y then y else m, s);
    }
  }

  /** What sorting and removing repeats leaves of a list with these elements. */
  ghost function Sorted(s: set<nat>): (r: seq<nat>)
    ensures Increasing(r) && forall x :: x in r <==> x in s
  {
    if s == {} then []
    else
      MaxExists(s);
      var m :| IsMax(m, s);
      Sorted(s - {m}) + [m]
  }

  /** The positions of the raised flags. */
  function Raised(flags: seq<bool>): (r: seq<nat>)
    ensures Increasing(r) && forall x: nat :: x in r <==> x < |flags| && flags[x]
  {
    if flags == [] then []
    else
      var n := |flags| - 1;
      var r := Raised(flags[..n]);
      assert forall i :: 0 <= i < |r| ==> r[i] in r;
      r + if flags[n] then [n] else []
  }

  // ---------------------------------------------------------------------
  // Splitting
  // ---------------------------------------------------------------------

  /** The entries that belong to partition p, in order. */
  function InPart(sh: Sharder, keys: seq<Entry>, p: nat): (r: seq<Entry>)
    ensures forall e :: e in r <==> e in keys && sh.part(e.key) == p
  {
    if keys == [] then []
    else
      var e := keys[|keys| - 1];
      assert keys == keys[..|keys| - 1] + [e];
      InPart(sh, keys[..|keys| - 1], p) + if sh.part(e.key) == p then [e] else []
  }

  ghost function Masters(keys: seq<Entry>): (r: set<nat>)
    ensures forall m :: m in r <==> exists e :: e in keys && e.master == m
  {
    set e | e in keys :: e.master
  }

  ghost function Parts(sh: Sharder, keys: seq<Entry>): set<nat> {
    set e | e in keys :: sh.part(e.key)
  }

  /** GenerateLockOnlyTxn */
  function LockOnly(txn: Txn, home: nat): Txn {
    txn.(home := home)
  }

  /** GeneratePartitionedTxn: nothing is left of a piece without keys, or without a key mastered
      at its home. */
  ghost function Partitioned(sh: Sharder, txn: Txn, p: nat): Option<Txn> {
    var keys := InPart(sh, txn.keys, p);
    if keys == [] || (!txn.remaster && txn.home !in Masters(keys)) then None
    else Some(txn.(keys := keys, regions := if txn.kind.MultiHome? then Sorted(Masters(keys)) else txn.regions))
  }

  /** The type, regions and partitions agree with the keys, as the forwarder leaves them. */
  ghost predicate Populated(sh: Sharder, txn: Txn) {
    && (txn.kind.SingleHome? ==> forall e :: e in txn.keys ==> e.master == txn.home)
    && txn.regions == Sorted(Masters(txn.keys))
    && txn.partitions == Sorted(Parts(sh, txn.keys))
    && !txn.kind.Unknown? && txn.keys != []
  }

  ghost predicate Survives(sh: Sharder, txn: Txn, home: nat, p: nat) {
    Partitioned(sh, LockOnly(txn, home), p).Some?
  }

  /** A lock-only copy survives in a partition exactly if its home masters a key there. */
  lemma SurvivesIff(sh: Sharder, txn: Txn, home: nat, p: nat)
    requires !txn.remaster
    ensures Survives(sh, txn, home, p) <==> exists e :: e in txn.keys && sh.part(e.key) == p && e.master == home
  {
    var keys := InPart(sh, txn.keys, p);
    if e :| e in txn.keys && sh.part(e.key) == p && e.master == home {
      assert e in keys;
    }
    if home in Masters(keys) {
      var e :| e in keys && e.master == home;
    }
  }

  /** Splitting keeps the order of the entries. */
  lemma {:induction false} InPartConcat(sh: Sharder, a: seq<Entry>, b: seq<Entry>, p: nat)
    ensures InPart(sh, a + b, p) == InPart(sh, a, p) + InPart(sh, b, p)
  {
    if b == [] {
      assert a + b == a;
    } else {
      var m := |b| - 1;
      assert (a + b)[..|a + b| - 1] == a + b[..m];
      InPartConcat(sh, a, b[..m], p);
    }
  }

  /** Every surviving copy of a multi-home transaction lists, sorted, exactly the homes whose
      copies survive in its partition, and all of them carry the same keys. */
  lemma SurvivorsAgree(sh: Sharder, txn: Txn, g: nat, h: nat, p: nat)
    requires txn.kind.MultiHome? && !txn.remaster && Survives(sh, txn, g, p) && Survives(sh, txn, h, p)
    ensures var a, b := Partitioned(sh, LockOnly(txn, g), p).value, Partitioned(sh, LockOnly(txn, h), p).value;
      && a == txn.(home := g, keys := InPart(sh, txn.keys, p), regions := a.regions)
      && b == txn.(home := h, keys := InPart(sh, txn.keys, p), regions := a.regions)
      && Increasing(a.regions) && forall r: nat :: r in a.regions <==> Survives(sh, txn, r, p)
  {
    forall r: nat ensures r in Masters(InPart(sh, txn.keys, p)) <==> Survives(sh, txn, r, p) {
      SurvivesIff(sh, txn, r, p);
    }
  }

  /** Some copy survives in a partition exactly if the partition is involved. */
  lemma SomeSurvivesIff(sh: Sharder, txn: Txn, p: nat)
    requires Populated(sh, txn) && !txn.remaster
    ensures (exists h :: h in txn.regions && Survives(sh, txn, h, p)) <==> p in txn.partitions
  {
    if p in txn.partitions {
      var e :| e in txn.keys && sh.part(e.key) == p;
      SurvivesIff(sh, txn, e.master, p);
      assert e.master in txn.regions;
    }
    if h :| h in txn.regions && Survives(sh, txn, h, p) {
      SurvivesIff(sh, txn, h, p);
      var e :| e in txn.keys && sh.part(e.key) == p && e.master == h;
      assert sh.part(e.key) in Parts(sh, txn.keys);
    }
  }

  /** The partitions split the key list: every entry goes to one piece, as often as it occurs. */
  lemma {:induction false} EntryInOnePiece(sh: Sharder, keys: seq<Entry>, p: nat, e: Entry)
    ensures multiset(InPart(sh, keys, p))[e] == if sh.part(e.key) == p then multiset(keys)[e] else 0
  {
    if keys != [] {
      var last := keys[|keys| - 1];
      assert keys == keys[..|keys| - 1] + [last];
      EntryInOnePiece(sh, keys[..|keys| - 1], p, e);
    }
  }

  // ---------------------------------------------------------------------
  // Merging
  // ---------------------------------------------------------------------

  function Names(keys: seq<Entry>): (r: set<Key>)
    ensures forall k :: k in r <==> exists e :: e in keys && e.key == k
  {
    set e | e in keys :: e.key
  }

  /** The entries whose names are not among the existing ones. */
  function Missing(existing: set<Key>, keys: seq<Entry>): seq<Entry> {
    if keys == [] then []
    else
      var e := keys[|keys| - 1];
      Missing(existing, keys[..|keys| - 1]) + if e.key in existing then [] else [e]
  }

  /** MergeTransaction */
  ghost function Merge(txn: Txn, other: Txn): Result<Txn> {
    if txn.id != other.id then Failure("Cannot merge transactions with different IDs")
    else if txn.kind != other.kind then Failure("Cannot merge transactions with different types")
    else Success(Merged(txn, other))
  }

  /** Only copies of one transaction are merged. */
  lemma MergeRefuses(txn: Txn, other: Txn)
    ensures Merge(txn, other).Success? <==> txn.id == other.id && txn.kind == other.kind
    ensures Merge(txn, other).Failure? ==>
      Merge(txn, other).error == if txn.id == other.id then "Cannot merge transactions with different types"
        else "Cannot merge transactions with different IDs"
  {
    hide Merged;
  }

  ghost function Merged(txn: Txn, other: Txn): Txn {
    var t :=
      if other.status.Aborted? then txn.(status := other.status)
      else if txn.status.Aborted? then txn
      else txn.(keys := txn.keys + Missing(Names(txn.keys), other.keys));
    t.(regions := Sorted(Elements(txn.regions) + Elements(other.regions)))
  }

  /** The entries of one name, in order. */
  function Named(keys: seq<Entry>, k: Key): seq<Entry> {
    if keys == [] then []
    else Named(keys[..|keys| - 1], k) + if keys[|keys| - 1].key == k then [keys[|keys| - 1]] else []
  }

  function Count(keys: seq<Entry>, k: Key): nat {
    |Named(keys, k)|
  }

  lemma NamedLast(keys: seq<Entry>, e: Entry, k: Key)
    ensures Named(keys + [e], k) == if e.key == k then Named(keys, k) + [e] else Named(keys, k)
  {
    assert (keys + [e])[..|keys|] == keys;
  }

  lemma {:induction false} NamedAppend(a: seq<Entry>, b: seq<Entry>, k: Key)
    ensures Named(a + b, k) == Named(a, k) + Named(b, k)
  {
    if b == [] {
      assert a + b == a;
    } else {
      assert (a + b)[..|a + b| - 1] == a + b[..|b| - 1];
      NamedAppend(a, b[..|b| - 1], k);
    }
  }

  lemma {:induction false} NamedNone(keys: seq<Entry>, k: Key)
    ensures Named(keys, k) == [] <==> k !in Names(keys)
  {
    if keys != [] {
      var last := keys[|keys| - 1];
      assert keys == keys[..|keys| - 1] + [last] && last in keys;
      NamedNone(keys[..|keys| - 1], k);
    }
  }

  lemma {:induction false} NamedMissing(existing: set<Key>, keys: seq<Entry>, k: Key)
    ensures Named(Missing(existing, keys), k) == if k in existing then [] else Named(keys, k)
  {
    if keys != [] {
      hide Named;
      var rest, e := keys[..|keys| - 1], keys[|keys| - 1];
      assert keys == rest + [e];
      NamedMissing(existing, rest, k);
      NamedLast(rest, e, k);
      NamedLast(Missing(existing, rest), e, k);
      assert Missing(existing, keys) == if e.key in existing then Missing(existing, rest)
        else Missing(existing, rest) + [e];
    }
  }

  /** A finished piece and the partition it came from. */
  datatype Piece = Piece(txn: Txn, part: nat)

  /** All pieces so far, merged in the order of arrival into the first, whose partition list is
      replaced by the partitions that have answered. */
  ghost function MergeAll(pieces: seq<Piece>): Txn
    requires pieces != []
  {
    var last := pieces[|pieces| - 1];
    if |pieces| == 1 then last.txn.(partitions := [last.part])
    else
      var t := Merged(MergeAll(pieces[..|pieces| - 1]), last.txn);
      t.(partitions := t.partitions + [last.part])
  }

  ghost function AllRegions(pieces: seq<Piece>): set<nat> {
    if pieces == [] then {} else AllRegions(pieces[..|pieces| - 1]) + Elements(pieces[|pieces| - 1].txn.regions)
  }

  ghost predicate SomeAborted(pieces: seq<Piece>) {
    exists i :: 0 <= i < |pieces| && pieces[i].txn.status.Aborted?
  }

  lemma MergeFirst(pieces: seq<Piece>)
    requires |pieces| == 1
    ensures MergeAll(pieces) == pieces[0].txn.(partitions := [pieces[0].part])
  {
  }

  /** What the last piece changes. */
  lemma MergeLast(pieces: seq<Piece>)
    requires |pieces| > 1
    ensures var t, before, last := MergeAll(pieces), MergeAll(pieces[..|pieces| - 1]), pieces[|pieces| - 1];
      && t.id == before.id && t.kind == before.kind && t.partitions == before.partitions + [last.part]
      && t.status == (if last.txn.status.Aborted? then last.txn.status else before.status)
      && t.keys == (if t.status.Aborted? then before.keys
        else before.keys + Missing(Names(before.keys), last.txn.keys))
      && t.regions == Sorted(Elements(before.regions) + Elements(last.txn.regions))
      && t == before.(keys := t.keys, status := t.status, regions := t.regions, partitions := t.partitions)
  {
  }

  ghost predicate SameTxn(id: nat, kind: Kind, pieces: seq<Piece>) {
    forall i :: 0 <= i < |pieces| ==> pieces[i].txn.id == id && pieces[i].txn.kind == kind
  }

  lemma {:induction false} MergeIdentity(id: nat, kind: Kind, pieces: seq<Piece>)
    requires SameTxn(id, kind, pieces) && pieces != []
    ensures var t := MergeAll(pieces);
      && t.id == id && t.kind == kind
      && t == pieces[0].txn.(keys := t.keys, status := t.status, regions := t.regions, partitions := t.partitions)
      && t.partitions == seq(|pieces|, i requires 0 <= i < |pieces| => pieces[i].part)
  {
    hide MergeAll, Sorted;
    if |pieces| == 1 {
      MergeFirst(pieces);
    } else {
      var before := pieces[..|pieces| - 1];
      MergeLast(pieces);
      assert forall i :: 0 <= i < |before| ==> before[i] == pieces[i];
      MergeIdentity(id, kind, before);
    }
  }

  /** The last aborted piece. */
  ghost predicate LastAborted(pieces: seq<Piece>, i: nat) {
    i < |pieces| && pieces[i].txn.status.Aborted? && forall j :: i < j < |pieces| ==> !pieces[j].txn.status.Aborted?
  }

  /** The merge is aborted exactly if a piece is, for the reason of the last of them. */
  lemma {:induction false} MergeStatus(pieces: seq<Piece>)
    requires pieces != []
    ensures MergeAll(pieces).status.Aborted? <==> SomeAborted(pieces)
    ensures SomeAborted(pieces) ==>
      exists i: nat :: LastAborted(pieces, i) && pieces[i].txn.status == MergeAll(pieces).status
  {
    hide MergeAll, Sorted;
    if |pieces| == 1 {
      MergeFirst(pieces);
      assert SomeAborted(pieces) ==> LastAborted(pieces, 0);
    } else {
      var m := |pieces| - 1;
      var before := pieces[..m];
      MergeLast(pieces);
      MergeStatus(before);
      if pieces[m].txn.status.Aborted? {
        assert LastAborted(pieces, m);
      } else if SomeAborted(before) {
        var i: nat :| LastAborted(before, i) && before[i].txn.status == MergeAll(before).status;
        assert LastAborted(pieces, i) && pieces[i].txn.status == MergeAll(pieces).status;
      }
      assert SomeAborted(pieces) <==> SomeAborted(before) || pieces[m].txn.status.Aborted?;
    }
  }

  /** From an aborted piece on, a merge takes no more keys. */
  lemma {:induction false} AbortedKeys(pieces: seq<Piece>, i: nat)
    requires i < |pieces| && pieces[i].txn.status.Aborted?
    ensures MergeAll(pieces).keys == if i == 0 then pieces[0].txn.keys else MergeAll(pieces[..i]).keys
  {
    hide MergeAll, Sorted, Missing;
    var m := |pieces| - 1;
    if m == 0 {
      MergeFirst(pieces);
    } else {
      MergeLast(pieces);
      MergeStatus(pieces);
      if i < m {
        assert pieces[..m][..i] == pieces[..i];
        AbortedKeys(pieces[..m], i);
      }
    }
  }

  ghost predicate Carries(piece: Piece, k: Key) {
    k in Names(piece.txn.keys)
  }

  /** Piece i is the first to arrive of those with key k. */
  ghost predicate FirstWith(pieces: seq<Piece>, i: nat, k: Key) {
    i < |pieces| && Carries(pieces[i], k) && forall j :: 0 <= j < i ==> !Carries(pieces[j], k)
  }

  ghost predicate SomeCarries(pieces: seq<Piece>, k: Key) {
    exists i :: 0 <= i < |pieces| && Carries(pieces[i], k)
  }

  /** Pieces may share keys, having sent their reads to each other. Of each key the merge holds
      exactly what the first piece with that key holds of it, and nothing if no piece has it. */
  lemma {:induction false} MergeKeys(pieces: seq<Piece>, k: Key)
    requires pieces != [] && !SomeAborted(pieces)
    ensures forall i: nat :: FirstWith(pieces, i, k) ==> Named(MergeAll(pieces).keys, k) == Named(pieces[i].txn.keys, k)
    ensures k in Names(MergeAll(pieces).keys) <==> SomeCarries(pieces, k)
  {
    hide MergeAll, Sorted, Named, Missing, Names;
    var m := |pieces| - 1;
    var before, last := pieces[..m], pieces[m].txn;
    if m == 0 {
      MergeFirst(pieces);
    } else {
      assert forall i :: 0 <= i < |before| ==> before[i] == pieces[i];
      MergeKeys(before, k);
      MergeLast(pieces);
      MergeStatus(pieces);
      var t := MergeAll(before);
      NamedAppend(t.keys, Missing(Names(t.keys), last.keys), k);
      NamedMissing(Names(t.keys), last.keys, k);
      NamedNone(t.keys, k);
      NamedNone(last.keys, k);
      NamedNone(MergeAll(pieces).keys, k);
      assert forall i: nat :: i < m ==> (FirstWith(pieces, i, k) <==> FirstWith(before, i, k));
      assert FirstWith(pieces, m, k) ==> !SomeCarries(before, k);
      assert SomeCarries(pieces, k) <==> SomeCarries(before, k) || Carries(pieces[m], k);
    }
  }

  lemma {:induction false} SomeFirst(pieces: seq<Piece>, i: nat, k: Key)
    requires i < |pieces| && Carries(pieces[i], k)
    ensures exists i: nat :: FirstWith(pieces, i, k)
  {
    hide Carries;
    if j: nat :| j < i && Carries(pieces[j], k) {
      SomeFirst(pieces, j, k);
    } else {
      assert FirstWith(pieces, i, k);
    }
  }

  ghost predicate NoRepeats(keys: seq<Entry>) {
    forall k :: Count(keys, k) <= 1
  }

  /** Of lists without repeats the merge has none either, and has a key exactly if a piece has. */
  lemma MergeOnce(pieces: seq<Piece>, k: Key)
    requires pieces != [] && !SomeAborted(pieces) && forall i :: 0 <= i < |pieces| ==> NoRepeats(pieces[i].txn.keys)
    ensures Count(MergeAll(pieces).keys, k) == if SomeCarries(pieces, k) then 1 else 0
  {
    hide MergeAll, Named, Names;
    MergeKeys(pieces, k);
    NamedNone(MergeAll(pieces).keys, k);
    if i: nat :| i < |pieces| && Carries(pieces[i], k) {
      SomeFirst(pieces, i, k);
      var f: nat :| FirstWith(pieces, f, k);
      NamedNone(pieces[f].txn.keys, k);
      assert Count(pieces[f].txn.keys, k) <= 1;
    }
  }

  /** Merged from several partitions, the regions are the sorted union without repeats. */
  lemma {:induction false} MergeRegions(pieces: seq<Piece>)
    requires |pieces| > 1
    ensures MergeAll(pieces).regions == Sorted(AllRegions(pieces))
  {
    var m := |pieces| - 1;
    var before := pieces[..m];
    hide MergeAll, Sorted;
    MergeLast(pieces);
    if m > 1 { MergeRegions(before); } else { MergeFirst(before); }
    assert Elements(MergeAll(before).regions) == AllRegions(before);
  }

  // ---------------------------------------------------------------------
  // Split, then merge
  // ---------------------------------------------------------------------

  /** The list a partition executes on: its own entries, and those that other partitions sent,
      in the order in which they came. */
  function Gathered(sh: Sharder, keys: seq<Entry>, p: nat, senders: seq<nat>): seq<Entry> {
    if senders == [] then InPart(sh, keys, p)
    else Gathered(sh, keys, p, senders[..|senders| - 1]) + InPart(sh, keys, senders[|senders| - 1])
  }

  /** A deletion takes the entry out of the list. */
  function Kept(keys: seq<Entry>, deleted: seq<Key>): seq<Entry> {
    if keys == [] then []
    else
      var e := keys[|keys| - 1];
      Kept(keys[..|keys| - 1], deleted) + if e.key in deleted then [] else [e]
  }

  /** How a piece was executed: the partitions whose reads it had, in the order in which they
      came, and the keys it deleted. */
  datatype Run = Run(senders: seq<nat>, deleted: seq<Key>)

  /** Execution sets values and the status and deletes keys; the other names stay. */
  ghost predicate Executed(before: Txn, gathered: seq<Entry>, deleted: seq<Key>, after: Txn) {
    && after.id == before.id && after.kind == before.kind
    && after.regions == before.regions && after.partitions == before.partitions
    && SameNames(Kept(gathered, deleted), after.keys)
  }

  ghost predicate SameNames(a: seq<Entry>, b: seq<Entry>) {
    |a| == |b| && forall i :: 0 <= i < |a| ==> a[i].key == b[i].key
  }

  /** The piece is what became of some surviving copy in its partition. Each partition sends its
      reads at most once. */
  ghost predicate PieceOf(sh: Sharder, txn: Txn, run: Run, piece: Piece) {
    && Distinct([piece.part] + run.senders)
    && exists home: nat :: Survives(sh, txn, home, piece.part) &&
         Executed(Partitioned(sh, LockOnly(txn, home), piece.part).value,
                  Gathered(sh, txn.keys, piece.part, run.senders), run.deleted, piece.txn)
  }

  ghost predicate Distinct(s: seq<nat>) {
    forall i, j :: 0 <= i < j < |s| ==> s[i] != s[j]
  }

  /** One piece per involved partition, in any order. */
  ghost predicate AllPiecesOf(sh: Sharder, txn: Txn, runs: seq<Run>, pieces: seq<Piece>) {
    && |pieces| == |txn.partitions| == |runs|
    && (forall i :: 0 <= i < |pieces| ==> PieceOf(sh, txn, runs[i], pieces[i]))
    && (forall i, j :: 0 <= i < j < |pieces| ==> pieces[i].part != pieces[j].part)
  }

  lemma {:induction false} CountSameNames(a: seq<Entry>, b: seq<Entry>, k: Key)
    requires SameNames(a, b)
    ensures Count(a, k) == Count(b, k)
  {
    if a != [] { CountSameNames(a[..|a| - 1], b[..|b| - 1], k); }
  }

  lemma {:induction false} CountKept(keys: seq<Entry>, deleted: seq<Key>, k: Key)
    ensures Count(Kept(keys, deleted), k) == if k in deleted then 0 else Count(keys, k)
  {
    if keys != [] {
      hide Named;
      var rest, e := keys[..|keys| - 1], keys[|keys| - 1];
      assert keys == rest + [e];
      CountKept(rest, deleted, k);
      NamedLast(rest, e, k);
      NamedLast(Kept(rest, deleted), e, k);
      assert Kept(keys, deleted) == if e.key in deleted then Kept(rest, deleted) else Kept(rest, deleted) + [e];
    }
  }

  lemma InPartLast(sh: Sharder, keys: seq<Entry>, p: nat)
    requires keys != []
    ensures var e, rest := keys[|keys| - 1], InPart(sh, keys[..|keys| - 1], p);
      InPart(sh, keys, p) == if sh.part(e.key) == p then rest + [e] else rest
  {
  }

  lemma NoEntries(sh: Sharder, p: nat, k: Key)
    ensures InPart(sh, [], p) == [] && Named([], k) == []
  {
  }

  lemma {:induction false} CountInPart(sh: Sharder, keys: seq<Entry>, p: nat, k: Key)
    ensures Count(InPart(sh, keys, p), k) == if sh.part(k) == p then Count(keys, k) else 0
  {
    hide InPart, Named;
    if keys == [] {
      NoEntries(sh, p, k);
    } else {
      var rest, e := keys[..|keys| - 1], keys[|keys| - 1];
      assert keys == rest + [e];
      CountInPart(sh, rest, p, k);
      InPartLast(sh, keys, p);
      NamedLast(InPart(sh, rest, p), e, k);
      NamedLast(rest, e, k);
    }
  }

  /** What a partition with reads from these senders has got. */
  ghost predicate Got(sh: Sharder, p: nat, senders: seq<nat>, k: Key) {
    sh.part(k) in [p] + senders
  }

  lemma {:induction false} CountGathered(sh: Sharder, keys: seq<Entry>, p: nat, senders: seq<nat>, k: Key)
    requires Distinct([p] + senders)
    ensures Count(Gathered(sh, keys, p, senders), k) == if Got(sh, p, senders, k) then Count(keys, k) else 0
  {
    hide Named, InPart;
    if senders == [] {
      CountInPart(sh, keys, p, k);
    } else {
      var n := |senders| - 1;
      var rest, q := senders[..n], senders[n];
      var all := [p] + senders;
      assert all[..n + 1] == [p] + rest && all[n + 1] == q;
      assert forall i :: 0 <= i <= n ==> ([p] + rest)[i] == all[i];
      CountGathered(sh, keys, p, rest, k);
      CountInPart(sh, keys, q, k);
      NamedAppend(Gathered(sh, keys, p, rest), InPart(sh, keys, q), k);
    }
  }

  /** A piece holds the keys it has got, less those it has deleted. */
  lemma PieceKeys(sh: Sharder, txn: Txn, run: Run, piece: Piece, k: Key)
    requires PieceOf(sh, txn, run, piece)
    ensures Count(piece.txn.keys, k) == if Got(sh, piece.part, run.senders, k) &&
      k !in run.deleted then Count(txn.keys, k) else 0
  {
    hide Sorted, Named, Kept, Gathered, Distinct;
    var gathered := Gathered(sh, txn.keys, piece.part, run.senders);
    CountGathered(sh, txn.keys, piece.part, run.senders, k);
    CountKept(gathered, run.deleted, k);
    CountSameNames(Kept(gathered, run.deleted), piece.txn.keys, k);
  }

  /** A piece belongs to its transaction, and lists the masters of its keys. */
  lemma PieceMeaning(sh: Sharder, txn: Txn, run: Run, piece: Piece)
    requires Populated(sh, txn) && !txn.remaster && PieceOf(sh, txn, run, piece)
    ensures piece.txn.id == txn.id && piece.txn.kind == txn.kind && piece.part in txn.partitions
    ensures piece.txn.regions == Sorted(Masters(InPart(sh, txn.keys, piece.part)))
  {
    hide Sorted, Gathered, Kept, Distinct;
    var keys := InPart(sh, txn.keys, piece.part);
    assert keys[0] in keys;
    assert sh.part(keys[0].key) in Parts(sh, txn.keys);
    if txn.kind.SingleHome? { assert Masters(keys) == Masters(txn.keys); }
  }

  lemma AllPiecesAre(sh: Sharder, txn: Txn, runs: seq<Run>, pieces: seq<Piece>)
    requires Populated(sh, txn) && !txn.remaster && AllPiecesOf(sh, txn, runs, pieces)
    ensures SameTxn(txn.id, txn.kind, pieces)
  {
    hide PieceOf, Populated, Sorted;
    forall i | 0 <= i < |pieces| ensures pieces[i].txn.id == txn.id && pieces[i].txn.kind == txn.kind {
      PieceMeaning(sh, txn, runs[i], pieces[i]);
    }
  }

  /** Pigeonhole: as many different partitions as are involved are all of them. */
  lemma {:induction false} AllCovered(parts: seq<nat>, all: seq<nat>, p: nat)
    requires |parts| == |all| && p in all
    requires (forall i, j :: 0 <= i < j < |parts| ==> parts[i] != parts[j]) && forall q :: q in parts ==> q in all
    ensures p in parts
  {
    if p !in parts {
      AllDifferent(parts);
      FewElements(all);
      assert Elements(parts) <= Elements(all) - {p};
      SubsetSize(Elements(parts), Elements(all) - {p});
      assert false;
    }
  }

  ghost predicate MastersHere(sh: Sharder, keys: seq<Entry>, p: nat, r: nat) {
    exists e :: e in keys && sh.part(e.key) == p && e.master == r
  }

  lemma {:induction false} RegionsOf(sh: Sharder, keys: seq<Entry>, pieces: seq<Piece>, r: nat)
    requires forall i ::
      0 <= i < |pieces| ==> (r in pieces[i].txn.regions <==> MastersHere(sh, keys, pieces[i].part, r))
    ensures r in AllRegions(pieces) <==> exists i :: 0 <= i < |pieces| && MastersHere(sh, keys, pieces[i].part, r)
  {
    if pieces != [] {
      hide MastersHere;
      var m := |pieces| - 1;
      var before := pieces[..m];
      assert forall i :: 0 <= i < |before| ==> before[i] == pieces[i];
      RegionsOf(sh, keys, before, r);
    }
  }

  lemma Covered(sh: Sharder, txn: Txn, runs: seq<Run>, pieces: seq<Piece>, k: Key)
    requires Populated(sh, txn) && !txn.remaster && AllPiecesOf(sh, txn, runs, pieces) && k in Names(txn.keys)
    ensures exists i :: 0 <= i < |pieces| && pieces[i].part == sh.part(k)
  {
    hide Sorted, PieceOf;
    var parts := seq(|pieces|, i requires 0 <= i < |pieces| => pieces[i].part);
    forall q | q in parts ensures q in txn.partitions {
      var i :| 0 <= i < |parts| && parts[i] == q;
      PieceMeaning(sh, txn, runs[i], pieces[i]);
    }
    var e :| e in txn.keys && e.key == k;
    assert sh.part(k) in Parts(sh, txn.keys);
    AllCovered(parts, txn.partitions, sh.part(k));
    var i :| 0 <= i < |parts| && parts[i] == sh.part(k);
  }

  /** Some piece had this key when it was executed and did not delete it. */
  ghost predicate KeptBySome(sh: Sharder, runs: seq<Run>, pieces: seq<Piece>, k: Key)
    requires |runs| == |pieces|
  {
    exists i :: 0 <= i < |pieces| && Got(sh, pieces[i].part, runs[i].senders, k) && k !in runs[i].deleted
  }

  /** The round trip: however the pieces of a transaction arrive and whatever reads they had
      exchanged, merging them gives back its regions and, unless one was aborted, each key as
      often as the transaction had it, except for keys that every piece with the key deleted. */
  lemma SplitMerge(sh: Sharder, txn: Txn, runs: seq<Run>, pieces: seq<Piece>)
    requires Populated(sh, txn) && !txn.remaster && AllPiecesOf(sh, txn, runs, pieces) && pieces != []
    ensures var t := MergeAll(pieces);
      && t.id == txn.id && t.kind == txn.kind && t.regions == txn.regions
      && (t.status.Aborted? <==> SomeAborted(pieces))
      && (!SomeAborted(pieces) ==> forall k ::
        Count(t.keys, k) == if KeptBySome(sh, runs, pieces, k) then Count(txn.keys, k) else 0)
  {
    hide MergeAll, Sorted, Count, PieceOf;
    AllPiecesAre(sh, txn, runs, pieces);
    MergeIdentity(txn.id, txn.kind, pieces);
    MergeStatus(pieces);
    RestoredRegions(sh, txn, runs, pieces);
    if !SomeAborted(pieces) {
      forall k
        ensures Count(MergeAll(pieces).keys, k) == if KeptBySome(sh, runs, pieces, k) then Count(txn.keys, k) else 0 {
        RestoredKey(sh, txn, runs, pieces, k);
      }
    }
  }

  lemma RestoredKey(sh: Sharder, txn: Txn, runs: seq<Run>, pieces: seq<Piece>, k: Key)
    requires AllPiecesOf(sh, txn, runs, pieces) && pieces != [] && !SomeAborted(pieces)
    ensures Count(MergeAll(pieces).keys, k) == if KeptBySome(sh, runs, pieces, k) then Count(txn.keys, k) else 0
  {
    hide MergeAll, Sorted, Named, PieceOf, Names;
    MergeKeys(pieces, k);
    NamedNone(MergeAll(pieces).keys, k);
    forall i | 0 <= i < |pieces|
      ensures Carries(pieces[i], k) <==> Count(pieces[i].txn.keys, k) > 0
      ensures Count(pieces[i].txn.keys, k) ==
        if Got(sh, pieces[i].part, runs[i].senders, k) && k !in runs[i].deleted then Count(txn.keys, k) else 0
    {
      NamedNone(pieces[i].txn.keys, k);
      PieceKeys(sh, txn, runs[i], pieces[i], k);
    }
    if i: nat :| i < |pieces| && Carries(pieces[i], k) { SomeFirst(pieces, i, k); }
  }

  /** Partitions that run the same program on the same reads delete the same keys: then the
      answer is the key list less these. */
  lemma SplitMergeSame(sh: Sharder, txn: Txn, runs: seq<Run>, pieces: seq<Piece>, deleted: set<Key>, k: Key)
    requires Populated(sh, txn) && !txn.remaster && AllPiecesOf(sh, txn, runs, pieces) && pieces != [] &&
      !SomeAborted(pieces)
    requires forall i ::
      0 <= i < |pieces| && Got(sh, pieces[i].part, runs[i].senders, k) ==> (k in runs[i].deleted <==> k in deleted)
    ensures Count(MergeAll(pieces).keys, k) == if k in deleted then 0 else Count(txn.keys, k)
  {
    hide MergeAll, Sorted, Named, PieceOf, Names, Populated;
    RestoredKey(sh, txn, runs, pieces, k);
    if k in Names(txn.keys) { Covered(sh, txn, runs, pieces, k); } else { NamedNone(txn.keys, k); }
  }

  lemma RestoredRegion(sh: Sharder, txn: Txn, runs: seq<Run>, pieces: seq<Piece>, r: nat)
    requires Populated(sh, txn) && !txn.remaster && AllPiecesOf(sh, txn, runs, pieces)
    ensures r in AllRegions(pieces) <==> r in Masters(txn.keys)
  {
    hide Sorted, PieceOf, Populated, AllRegions;
    forall i | 0 <= i < |pieces| ensures r in pieces[i].txn.regions <==> MastersHere(sh, txn.keys, pieces[i].part, r) {
      PieceMeaning(sh, txn, runs[i], pieces[i]);
    }
    RegionsOf(sh, txn.keys, pieces, r);
    if r in Masters(txn.keys) {
      var e :| e in txn.keys && e.master == r;
      assert e.key in Names(txn.keys);
      Covered(sh, txn, runs, pieces, e.key);
    }
  }

  lemma RestoredRegions(sh: Sharder, txn: Txn, runs: seq<Run>, pieces: seq<Piece>)
    requires Populated(sh, txn) && !txn.remaster && AllPiecesOf(sh, txn, runs, pieces) && pieces != []
    ensures MergeAll(pieces).regions == txn.regions
  {
    hide MergeAll, Sorted, PieceOf;
    forall r: nat
      ensures r in AllRegions(pieces) <==> r in Masters(txn.keys) { RestoredRegion(sh, txn, runs, pieces, r); }
    assert AllRegions(pieces) == Masters(txn.keys);
    if |pieces| == 1 {
      PieceMeaning(sh, txn, runs[0], pieces[0]);
      MergeFirst(pieces);
      assert AllRegions(pieces) == Elements(pieces[0].txn.regions) by { assert AllRegions(pieces[..0]) == {}; }
      IncreasingUnique(pieces[0].txn.regions, txn.regions);
    } else {
      MergeRegions(pieces);
    }
  }
}
