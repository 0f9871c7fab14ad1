/** The quorum trackers of module/janus/coordinator.h. */
module Quorums {
  import opened Prelude

  /** A transaction id and the bitmap of its partitions. */
  type Dep = (nat, nat)

  /** QuorumDeps: replies are sets of dependencies. */
  datatype Quorum = Quorum(n: nat, fast: bool, count: nat, deps: set<Dep>)

  function Majority(n: nat): nat {
    (n + 1) / 2
  }

  predicate Done(q: Quorum) {
    if q.fast then q.count == q.n else q.count >= Majority(q.n)
  }

  function Add(q: Quorum, reply: set<Dep>): Quorum {
    if Done(q) then q
    else if q.count == 0 then q.(deps := reply, count := 1)
    else if !q.fast || reply != q.deps then q.(fast := false, deps := q.deps + reply, count := q.count + 1)
    else q.(count := q.count + 1)
  }

  function AddAll(n: nat, replies: seq<set<Dep>>): Quorum {
    if replies == [] then Quorum(n, true, 0, {})
    else Add(AddAll(n, replies[..|replies| - 1]), replies[|replies| - 1])
  }

  /** The number of replies before the first that differs from the first one. */
  function Agreeing(replies: seq<set<Dep>>): (k: nat)
    ensures k <= |replies| && (forall i :: 0 <= i < k ==> replies[i] == replies[0])
    ensures k < |replies| ==> replies[k] != replies[0]
  {
    if replies == [] then 0
    else
      var m := |replies| - 1;
      var k := Agreeing(replies[..m]);
      if k == m && replies[m] == replies[0] then m + 1 else k
  }

  ghost function Union(replies: seq<set<Dep>>): (u: set<Dep>)
    ensures forall d :: d in u <==> exists i :: 0 <= i < |replies| && d in replies[i]
  {
    if replies == [] then {}
    else
      var m := |replies| - 1;
      Union(replies[..m]) + replies[m]
  }

  predicate StaysFast(n: nat, replies: seq<set<Dep>>) {
    Agreeing(replies) >= Min(|replies|, n)
  }

  /** How many replies count: all n while they agree, otherwise up to the first count that
      reaches both the first disagreement and a majority. */
  function Counted(n: nat, replies: seq<set<Dep>>): (k: nat)
    ensures k <= |replies|
  {
    if StaysFast(n, replies) then Min(|replies|, n)
    else
      var d := Agreeing(replies) + 1;
      Min(|replies|, if d < Majority(n) then Majority(n) else d)
  }

  lemma UnionSame(replies: seq<set<Dep>>)
    requires replies != [] && forall i :: 0 <= i < |replies| ==> replies[i] == replies[0]
    ensures Union(replies) == replies[0]
  {
    assert forall d :: d in replies[0] ==> d in Union(replies);
  }

  lemma UnionPush(replies: seq<set<Dep>>, r: set<Dep>)
    ensures Union(replies + [r]) == Union(replies) + r
  {
    assert (replies + [r])[..|replies|] == replies;
  }

  /** The state after any sequence of replies, in closed form. */
  lemma {:induction false} AfterReplies(n: nat, replies: seq<set<Dep>>)
    ensures AddAll(n, replies) ==
      Quorum(n, StaysFast(n, replies), Counted(n, replies), Union(replies[..Counted(n, replies)]))
  {
    hide Agreeing, Union, Counted, StaysFast, Add;
    if replies == [] {
      NoReplies(n);
    } else {
      var before, r := replies[..|replies| - 1], replies[|replies| - 1];
      AfterReplies(n, before);
      AfterReply(n, before, r);
      assert replies == before + [r];
    }
  }

  lemma NoReplies(n: nat)
    ensures AddAll(n, []) == Quorum(n, StaysFast(n, []), Counted(n, []), Union([][..Counted(n, [])]))
  {
  }

  lemma AgreeingPush(replies: seq<set<Dep>>, r: set<Dep>)
    ensures var k := Agreeing(replies);
      Agreeing(replies + [r]) == if k == |replies| && (replies == [] || r == replies[0]) then k + 1 else k
  {
    assert (replies + [r])[..|replies|] == replies;
  }

  lemma AfterReply(n: nat, before: seq<set<Dep>>, r: set<Dep>)
    requires AddAll(n, before) == Quorum(n, StaysFast(n, before), Counted(n, before),
      Union(before[..Counted(n, before)]))
    ensures var all := before + [r];
      Add(AddAll(n, before), r) == Quorum(n, StaysFast(n, all), Counted(n, all), Union(all[..Counted(n, all)]))
  {
    AgreeingPush(before, r);
    hide AddAll, Agreeing, Union;
    var all := before + [r];
    var k, j := Counted(n, before), Counted(n, all);
    assert all[..k] == before[..k];
    if j == k + 1 {
      assert k == |before| && all[..j] == before[..k] + [r];
      UnionPush(before[..k], r);
      if StaysFast(n, before) && k > 0 { UnionSame(before[..k]); }
    }
  }

  /** Finished fast exactly if n replies are in and the first n agree. */
  lemma FastIff(n: nat, replies: seq<set<Dep>>)
    requires n > 0
    ensures var q := AddAll(n, replies);
      Done(q) && q.fast <==> |replies| >= n && forall i :: 0 <= i < n ==> replies[i] == replies[0]
  {
    AfterReplies(n, replies);
    if |replies| >= n && forall i :: 0 <= i < n ==> replies[i] == replies[0] {
      assert Agreeing(replies) >= n;
    }
  }

  /** Finished slow: the counted replies disagree, are a majority, no shorter prefix is both, and
      the dependencies are exactly their union. */
  lemma SlowMeaning(n: nat, replies: seq<set<Dep>>)
    requires var q := AddAll(n, replies); Done(q) && !q.fast
    ensures var q := AddAll(n, replies);
      && q.count <= |replies| && q.count >= Majority(n) && q.deps == Union(replies[..q.count])
      && (exists i :: 0 <= i < q.count && replies[i] != replies[0])
      && (q.count > Majority(n) ==> forall i :: 0 <= i < q.count - 1 ==> replies[i] == replies[0])
  {
    AfterReplies(n, replies);
    assert replies[Agreeing(replies)] != replies[0];
  }

  /** Once done, later replies change nothing. */
  lemma {:induction false} StaysDone(n: nat, replies: seq<set<Dep>>, more: seq<set<Dep>>)
    requires Done(AddAll(n, replies))
    ensures AddAll(n, replies + more) == AddAll(n, replies)
  {
    if more == [] {
      assert replies + more == replies;
    } else {
      var m := |more| - 1;
      StaysDone(n, replies, more[..m]);
      assert (replies + more)[..|replies + more| - 1] == replies + more[..m];
    }
  }

  /** Any two slow quorums share a replica exactly if the number of replicas is odd. */
  ghost predicate IsQuorum(n: nat, s: set<nat>) {
    |s| >= Majority(n) && forall r :: r in s ==> r < n
  }

  function Range(a: nat, b: nat): (s: set<nat>)
    requires a <= b
    ensures |s| == b - a && forall r: nat :: r in s <==> a <= r < b
    decreases b - a
  {
    if a == b then {} else Range(a, b - 1) + {b - 1}
  }

  lemma OddQuorumsMeet(n: nat, a: set<nat>, b: set<nat>)
    requires n % 2 == 1 && IsQuorum(n, a) && IsQuorum(n, b)
    ensures exists r :: r in a && r in b
  {
    SubsetSize(a + b, Range(0, n));
    assert |a + b| == |a| + |b| - |a * b|;
    assert a * b != {};
    var r :| r in a * b;
  }

  lemma QuorumsMeetIffOdd(n: nat)
    requires n > 0
    ensures (forall a, b :: IsQuorum(n, a) && IsQuorum(n, b) ==> exists r :: r in a && r in b) <==> n % 2 == 1
  {
    if n % 2 == 1 {
      forall a, b | IsQuorum(n, a) && IsQuorum(n, b) ensures exists r :: r in a && r in b { OddQuorumsMeet(n, a, b); }
    } else {
      var a, b := Range(0, n / 2), Range(n / 2, n);
      assert IsQuorum(n, a) && IsQuorum(n, b);
      assert !exists r :: r in a && r in b;
    }
  }
}

module QuorumObjects {
  import opened Quorums

  class QuorumDeps {
    const n: nat
    var fast: bool
    var count: nat
    var deps: set<Dep>

    constructor (n: nat)
      ensures View() == AddAll(n, [])
    {
      this.n, fast, count, deps := n, true, 0, {};
    }

    ghost function View(): Quorum
      reads this
    {
      Quorum(n, fast, count, deps)
    }

    method Add(reply: set<Dep>)
      modifies this
      ensures View() == Quorums.Add(old(View()), reply)
    {
      var done := IsDone();
      if done { return; }
      if count == 0 {
        deps := reply;
      } else if !fast || reply != deps {
        fast, deps := false, deps + reply;
      }
      count := count + 1;
    }

    method IsDone() returns (done: bool)
      ensures done == Done(View())
    {
      if fast { return count == n; }
      done := count >= (n + 1) / 2;
    }
  }
}
