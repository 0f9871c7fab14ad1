/** The loops of common/proto_utils.cpp, each against its specification in TxnSplit. */
module TxnSplitMethods {
  import opened Prelude
  import opened Transactions
  import opened TxnSplit

  function Insert(x: nat, s: seq<nat>): (r: seq<nat>)
    requires Increasing(s)
    ensures Increasing(r) && forall y :: y in r <==> y == x || y in s
  {
    if s == [] || x < s[0] then [x] + s
    else if x == s[0] then s
    else
      assert forall y :: y in s <==> y == s[0] || y in s[1..];
      var r := Insert(x, s[1..]);
      assert forall i :: 0 <= i < |r| ==> r[i] in r;
      [s[0]] + r
  }

  /** The library's sort, followed by unique and erase. */
  function SortUnique(s: seq<nat>): (r: seq<nat>)
    ensures r == Sorted(Elements(s))
  {
    if s == [] then
      IncreasingUnique([], Sorted(Elements(s)));
      []
    else
      var r := Insert(s[0], SortUnique(s[1..]));
      assert forall y :: y in s <==> y == s[0] || y in s[1..];
      IncreasingUnique(r, Sorted(Elements(s)));
      r
  }

  method GenerateLockOnlyTxn(txn: Txn, home: nat) returns (copy: Txn)
    ensures copy == LockOnly(txn, home)
  {
    copy := txn;
    copy := copy.(home := home);
  }

  /** The numbers a vector of flags stands for. */
  ghost function Up(flags: seq<bool>): (r: set<nat>)
    ensures forall x: nat :: x in r <==> x < |flags| && flags[x]
  {
    Elements(Raised(flags))
  }

  method RaiseFlag(flags: seq<bool>, x: nat) returns (r: seq<bool>)
    ensures Up(r) == Up(flags) + {x} && |r| >= |flags| && (x < |flags| ==> |r| == |flags|)
  {
    r := flags;
    if x >= |r| { r := r + seq(x + 1 - |r|, _ => false); }
    r := r[x := true];
  }

  method CollectFlags(flags: seq<bool>) returns (list: seq<nat>)
    ensures list == Sorted(Up(flags))
  {
    hide Sorted;
    list := [];
    for x := 0 to |flags|
      invariant list == Raised(flags[..x])
    {
      assert flags[..x + 1][..x] == flags[..x];
      if flags[x] { list := list + [x]; }
    }
    assert flags[..|flags|] == flags;
    IncreasingUnique(list, Sorted(Up(flags)));
  }

  /** Erases the keys of other partitions one by one and flags the masters of the others. */
  method EraseForeignKeys(sh: Sharder, txn: Txn, partition: nat)
      returns (keys: seq<Entry>, involved: seq<bool>, redundant: bool)
    ensures keys == InPart(sh, txn.keys, partition) && Up(involved) == Masters(keys)
    ensures redundant == (!txn.remaster && txn.home !in Masters(keys))
  {
    hide InPart, Up, Masters;
    keys, involved, redundant := txn.keys, seq(8, _ => false), !txn.remaster;
    var i := 0;
    ghost var kept, seen := [], 0;
    NothingYet(sh, partition);
    while i < |keys|
      invariant seen <= |txn.keys| && keys == kept + txn.keys[seen..] && i == |kept|
      invariant kept == InPart(sh, txn.keys[..seen], partition)
      invariant Up(involved) == Masters(kept)
      invariant redundant == (!txn.remaster && txn.home !in Masters(kept))
      decreases |keys| - i
    {
      var e := keys[i];
      ghost var rest := txn.keys[seen + 1..];
      SplitAt(kept, txn.keys, seen);
      InPartPush(sh, txn.keys[..seen], e, partition);
      if sh.part(e.key) != partition {
        EraseAt(kept, e, rest);
        keys := keys[..i] + keys[i + 1..];
      } else {
        involved := RaiseFlag(involved, e.master);
        redundant := redundant && e.master != txn.home;
        MastersLast(kept, e);
        kept := kept + [e];
        i := i + 1;
      }
      seen := seen + 1;
    }
    assert keys == kept && txn.keys[..seen] == txn.keys;
  }

  lemma SplitAt(kept: seq<Entry>, keys: seq<Entry>, seen: nat)
    requires seen < |keys|
    ensures kept + keys[seen..] == kept + [keys[seen]] + keys[seen + 1..] &&
      keys[..seen + 1] == keys[..seen] + [keys[seen]]
    ensures (kept + keys[seen..])[|kept|] == keys[seen]
  {
  }

  lemma EraseAt(kept: seq<Entry>, e: Entry, rest: seq<Entry>)
    ensures var s := kept + [e] + rest; s[..|kept|] + s[|kept| + 1..] == kept + rest
  {
  }

  lemma InPartPush(sh: Sharder, keys: seq<Entry>, e: Entry, p: nat)
    ensures InPart(sh, keys + [e], p) == if sh.part(e.key) == p then InPart(sh, keys, p) + [e] else InPart(sh, keys, p)
  {
    assert (keys + [e])[..|keys|] == keys;
  }

  /** Nothing is left of a piece without keys or without a key mastered at its home. */
  method GeneratePartitionedTxn(sh: Sharder, txn: Txn, partition: nat) returns (piece: Option<Txn>)
    ensures piece == Partitioned(sh, txn, partition)
  {
    hide Sorted, InPart, Up, Masters;
    var keys, involved, redundant := EraseForeignKeys(sh, txn, partition);
    if keys == [] || redundant { return None; }
    var regions := txn.regions;
    if txn.kind.MultiHome? { regions := CollectFlags(involved); }
    piece := Some(txn.(keys := keys, regions := regions));
  }

  lemma NothingYet(sh: Sharder, p: nat)
    ensures InPart(sh, [], p) == [] && Masters([]) == {} == Up(seq(8, _ => false))
  {
  }

  lemma MastersLast(keys: seq<Entry>, e: Entry)
    ensures Masters(keys + [e]) == Masters(keys) + {e.master}
  {
  }

  /** The list is cleared first for a single-home transaction, and appended to otherwise. */
  method PopulateInvolvedRegions(txn: Txn) returns (t: Txn)
    requires txn.kind.SingleHome? ==> txn.keys != []
    ensures t == txn.(regions :=
      if txn.kind.Unknown? then txn.regions
      else if txn.kind.SingleHome? then [txn.keys[0].master]
      else txn.regions + Sorted(Masters(txn.keys)))
  {
    if txn.kind.Unknown? { return txn; }
    if txn.kind.SingleHome? { return txn.(regions := [txn.keys[0].master]); }
    var regions := [];
    for i := 0 to |txn.keys|
      invariant Elements(regions) == Masters(txn.keys[..i])
    {
      assert txn.keys[..i + 1] == txn.keys[..i] + [txn.keys[i]];
      MastersLast(txn.keys[..i], txn.keys[i]);
      regions := regions + [txn.keys[i].master];
    }
    assert txn.keys[..|txn.keys|] == txn.keys;
    t := txn.(regions := txn.regions + SortUnique(regions));
  }

  ghost function Written(keys: seq<Entry>): (r: seq<Entry>)
    ensures forall e :: e in r <==> e in keys && e.write
  {
    if keys == [] then []
    else
      assert keys == keys[..|keys| - 1] + [keys[|keys| - 1]];
      Written(keys[..|keys| - 1]) + if keys[|keys| - 1].write then [keys[|keys| - 1]] else []
  }

  /** Involved partitions own a key, active ones a written key. */
  method PopulateInvolvedPartitions(sh: Sharder, txn: Txn) returns (t: Txn)
    requires ValidSharder(sh)
    ensures t == txn.(partitions := txn.partitions + Sorted(Parts(sh, txn.keys)),
      active := txn.active + Sorted(Parts(sh, Written(txn.keys))))
  {
    hide Sorted;
    var involved, active := seq(sh.partitions, _ => false), seq(sh.partitions, _ => false);
    for i := 0 to |txn.keys|
      invariant |involved| == |active| == sh.partitions
      invariant Up(involved) == Parts(sh, txn.keys[..i])
      invariant Up(active) == Parts(sh, Written(txn.keys[..i]))
    {
      var e := txn.keys[i];
      assert txn.keys[..i + 1] == txn.keys[..i] + [e];
      PartsLast(sh, txn.keys[..i], e);
      var p := sh.part(e.key);
      involved := RaiseFlag(involved, p);
      if e.write { active := RaiseFlag(active, p); }
    }
    assert txn.keys[..|txn.keys|] == txn.keys;
    var partitions := CollectFlags(involved);
    var written := CollectFlags(active);
    t := txn.(partitions := txn.partitions + partitions, active := txn.active + written);
  }

  lemma PartsLast(sh: Sharder, keys: seq<Entry>, e: Entry)
    ensures Parts(sh, keys + [e]) == Parts(sh, keys) + {sh.part(e.key)}
    ensures Parts(sh, Written(keys + [e])) == Parts(sh, Written(keys)) + if e.write then {sh.part(e.key)} else {}
  {
  }

  method MergeTransaction(txn: Txn, other: Txn) returns (r: Result<Txn>)
    ensures r == Merge(txn, other)
  {
    hide Sorted;
    if txn.id != other.id { return Failure("Cannot merge transactions with different IDs"); }
    if txn.kind != other.kind { return Failure("Cannot merge transactions with different types"); }
    var t := txn;
    if other.status.Aborted? {
      t := t.(status := other.status);
    } else if !txn.status.Aborted? {
      var existing := {};
      for i := 0 to |txn.keys|
        invariant existing == Names(txn.keys[..i])
      {
        assert txn.keys[..i + 1] == txn.keys[..i] + [txn.keys[i]];
        existing := existing + {txn.keys[i].key};
      }
      assert txn.keys[..|txn.keys|] == txn.keys;
      for i := 0 to |other.keys|
        invariant t == txn.(keys := txn.keys + Missing(existing, other.keys[..i]))
      {
        assert other.keys[..i + 1][..i] == other.keys[..i];
        if other.keys[i].key !in existing { t := t.(keys := t.keys + [other.keys[i]]); }
      }
      assert other.keys[..|other.keys|] == other.keys;
    }
    assert Elements(t.regions + other.regions) == Elements(t.regions) + Elements(other.regions);
    r := Success(t.(regions := SortUnique(t.regions + other.regions)));
  }
}
