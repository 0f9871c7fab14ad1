/** Which master each key of a forwarded transaction carries (module/forwarder.cpp), told from the
    events of the run alone. */
module ForwarderMasters {
  import opened Prelude
  import opened Transactions
  import opened Forwarders

  /** The event is a request served by the owner of the key, which held this master for it. */
  ghost predicate LookedUp(c: Config, e: Event, k: Key, master: Meta) {
    e.Deliver? && e.m.Lookup? && e.m.to == c.part(k) && k in e.m.keys && e.lookup(k) == master
  }

  ghost predicate LookedUpBetween(c: Config, events: seq<Event>, j: nat, i: nat, k: Key, master: Meta) {
    exists l :: j < l < i && l < |events| && LookedUp(c, events[l], k, master)
  }

  /** With one region the master is region 0. Otherwise a key that is stored where the transaction
      came in has the master found there at that moment, another key the master it came with, or
      else one that its owner looked up later. */
  ghost predicate RightMaster(c: Config, events: seq<Event>, j: nat, i: nat, original: KeyInfo, now: KeyInfo)
    requires j < |events| && events[j].Submit?
  {
    && now.key == original.key
    && if c.regions == 1 then now.meta == Some(Meta(0, 0))
       else if c.part(now.key) == events[j].p then now.meta == Some(events[j].lookup(now.key))
       else if original.meta.Some? then now.meta == original.meta
       else now.meta.Some? ==> LookedUpBetween(c, events, j, i, now.key, now.meta.value)
  }

  ghost predicate RightMasters(c: Config, events: seq<Event>, j: nat, i: nat, t: RoutedTxn)
    requires j < |events| && events[j].Submit?
  {
    var keys := events[j].txn.keys;
    |t.keys| == |keys| && forall n :: 0 <= n < |keys| ==> RightMaster(c, events, j, i, keys[n], t.keys[n])
  }

  lemma LaterMasters(c: Config, events: seq<Event>, j: nat, i: nat, t: RoutedTxn)
    requires j < |events| && events[j].Submit? && RightMasters(c, events, j, i, t)
    ensures RightMasters(c, events, j, i + 1, t)
  {
  }

  lemma MastersAtFirst(c: Config, events: seq<Event>, j: nat)
    requires j < |events| && events[j].Submit?
    ensures var t := events[j].txn;
      RightMasters(c, events, j, j + 1, t.(keys := ResolveAll(c, events[j].p, events[j].lookup, t.keys)))
  {
  }

  /** A response that names the transaction was looked up after the transaction came in. */
  ghost predicate FoundSince(c: Config, events: seq<Event>, j: nat, i: nat, id: nat, m: Msg) {
    m.Found? && id in m.ids ==> forall x :: x in m.results ==> LookedUpBetween(c, events, j, i, x.0, x.1)
  }

  lemma MastersFilled(c: Config, events: seq<Event>, j: nat, i: nat, t: RoutedTxn, m: Msg)
    requires j < |events| && events[j].Submit? && RightMasters(c, events, j, i, t)
    requires m.Found? && t.id in m.ids && FoundSince(c, events, j, i, t.id, m)
    ensures RightMasters(c, events, j, i, Filled(Index(m.results), t))
  {
    hide LookedUpBetween;
    var f, index := Filled(Index(m.results), t), Index(m.results);
    forall n | 0 <= n < |t.keys| ensures RightMaster(c, events, j, i, events[j].txn.keys[n], f.keys[n]) {
      assert RightMaster(c, events, j, i, events[j].txn.keys[n], t.keys[n]);
      assert f.keys[n] == Fill(index, t.keys[n]);
    }
  }

  // ---------------------------------------------------------------------
  // Ids come from transactions that came in
  // ---------------------------------------------------------------------

  ghost predicate IdsKnown(s: State) {
    && (forall m, id :: m in s.net && id in m.ids ==> id in s.submitted)
    && (forall p, q, id ::
      0 <= p < |s.nodes| && 0 <= q < |s.nodes[p].batches| && id in s.nodes[p].batches[q].ids ==> id in s.submitted)
  }

  lemma TimerIds(c: Config, s: State, p: nat)
    requires |s.nodes| == c.partitions && Enabled(c, s, Timer(p)) && IdsKnown(s)
    ensures IdsKnown(Step(c, s, Timer(p)))
  {
    hide Requests;
    var s' := Step(c, s, Timer(p));
    forall m, id | m in s'.net && id in m.ids ensures id in s'.submitted {
      if m !in s.net { RequestsMeaning(p, s.nodes[p].batches, m); }
    }
  }

  lemma SubmitIds(c: Config, s: State, e: Event)
    requires |s.nodes| == c.partitions && Enabled(c, s, e) && e.Submit? && IdsKnown(s)
    ensures IdsKnown(Step(c, s, e))
  {
    hide KeysFor, ResolveAll, KindOf;
  }

  lemma DeliverIds(c: Config, s: State, e: Event)
    requires |s.nodes| == c.partitions && Enabled(c, s, e) && e.Deliver? && IdsKnown(s)
    ensures IdsKnown(Step(c, s, e))
  {
    hide UpdateAll, Index, Answers;
    var s' := Step(c, s, e);
    forall m, id | m in s'.net && id in m.ids ensures id in s'.submitted {
      assert m in s.net || m.ids == e.m.ids;
    }
  }

  lemma StepIds(c: Config, s: State, e: Event)
    requires |s.nodes| == c.partitions && Enabled(c, s, e) && IdsKnown(s)
    ensures IdsKnown(Step(c, s, e))
  {
    hide Step, Enabled, IdsKnown;
    match e
    case Submit(_, _, _) => SubmitIds(c, s, e);
    case Timer(p) => TimerIds(c, s, p);
    case Deliver(_, _) => DeliverIds(c, s, e);
  }

  lemma NodeCount(c: Config, s: State)
    requires Inv(c, s)
    ensures |s.nodes| == c.partitions
  {
  }

  lemma {:induction false} RunIds(c: Config, states: seq<State>, events: seq<Event>, i: nat)
    requires ValidConfig(c) && IsRun(c, states, events) && i < |states|
    ensures IdsKnown(states[i])
  {
    hide Inv, Enabled, Step, IdsKnown;
    if i == 0 {
      assert IdsKnown(states[0]) by { NoIds(c); }
    } else {
      RunIds(c, states, events, i - 1);
      StepIds(c, states[i - 1], events[i - 1]);
    }
  }

  lemma NoIds(c: Config)
    ensures IdsKnown(Init(c))
  {
  }

  // ---------------------------------------------------------------------
  // One transaction through a run
  // ---------------------------------------------------------------------

  /** Transaction `id`, which came in with event j, in the state before event i. */
  ghost predicate Traced(c: Config, s: State, events: seq<Event>, j: nat, i: nat)
    requires j < |events| && events[j].Submit?
  {
    var id, p := events[j].txn.id, events[j].p;
    && id in s.submitted && s.submitted[id].0 == p
    && (forall t :: t in s.forwarded && t.id == id ==> RightMasters(c, events, j, i, t))
    && (p < |s.nodes| && id in s.nodes[p].pending ==> RightMasters(c, events, j, i, s.nodes[p].pending[id]))
    && (forall m :: m in s.net ==> FoundSince(c, events, j, i, id, m))
  }

  lemma TracedLater(c: Config, s: State, events: seq<Event>, j: nat, i: nat)
    requires j < |events| && events[j].Submit? && Traced(c, s, events, j, i)
    ensures Traced(c, s, events, j, i + 1)
  {
    hide RightMasters;
    var id, p := events[j].txn.id, events[j].p;
    forall t | t in s.forwarded && t.id == id ensures RightMasters(c, events, j, i + 1, t) {
      LaterMasters(c, events, j, i, t);
    }
    if p < |s.nodes| && id in s.nodes[p].pending { LaterMasters(c, events, j, i, s.nodes[p].pending[id]); }
    forall m, x | m in s.net && m.Found? && id in m.ids && x in m.results
      ensures LookedUpBetween(c, events, j, i + 1, x.0, x.1) {
      assert FoundSince(c, events, j, i, id, m);
      assert LookedUpBetween(c, events, j, i, x.0, x.1);
    }
  }

  lemma TracedAtFirst(c: Config, s: State, events: seq<Event>, j: nat)
    requires j < |events| && events[j].Submit? && Inv(c, s) && IdsKnown(s) && Enabled(c, s, events[j])
    ensures Traced(c, Step(c, s, events[j]), events, j, j + 1)
  {
    hide RightMasters, ResolveAll, KindOf, Enlist;
    MastersAtFirst(c, events, j);
    NotForwarded(c, s, events[j].txn.id);
    NodeCount(c, s);
    hide Inv;
  }

  lemma NotForwarded(c: Config, s: State, id: nat)
    requires Inv(c, s) && id !in s.submitted
    ensures forall t :: t in s.forwarded ==> t.id != id
    ensures forall p :: 0 <= p < |s.nodes| ==> id !in s.nodes[p].pending
  {
    hide AllWaiting, NodeOk, GoodMsg, PendingOk, OnceEach, NoneLost;
  }

  lemma TracedSubmit(c: Config, s: State, events: seq<Event>, j: nat, i: nat, e: Event)
    requires j < |events| && events[j].Submit? && |s.nodes| == c.partitions && Enabled(c, s, e) && e.Submit?
    requires Traced(c, s, events, j, i)
    ensures Traced(c, Step(c, s, e), events, j, i)
  {
    hide RightMasters, ResolveAll, KindOf, Enlist, FoundSince;
  }

  lemma TracedTimer(c: Config, s: State, events: seq<Event>, j: nat, i: nat, e: Event)
    requires j < |events| && events[j].Submit? && |s.nodes| == c.partitions && Enabled(c, s, e) && e.Timer?
    requires Traced(c, s, events, j, i)
    ensures Traced(c, Step(c, s, e), events, j, i)
  {
    hide RightMasters, Requests;
    var s' := Step(c, s, e);
    forall m | m in s'.net ensures FoundSince(c, events, j, i, events[j].txn.id, m) {
      if m !in s.net { RequestsMeaning(e.p, s.nodes[e.p].batches, m); }
    }
  }

  lemma TracedLookup(c: Config, s: State, events: seq<Event>, j: nat, i: nat)
    requires j < i < |events| && events[j].Submit? && |s.nodes| == c.partitions && Enabled(c, s, events[i])
    requires events[i].Deliver? && events[i].m.Lookup? && Traced(c, s, events, j, i)
    ensures Traced(c, Step(c, s, events[i]), events, j, i + 1)
  {
    TracedLater(c, s, events, j, i);
    hide RightMasters;
    var id, m, lookup := events[j].txn.id, events[i].m, events[i].lookup;
    var a := OnLookup(c, m.to, m, lookup);
    forall x | x in a.results ensures LookedUpBetween(c, events, j, i + 1, x.0, x.1) {
      assert LookedUp(c, events[i], x.0, x.1);
    }
    forall y | y in Step(c, s, events[i]).net ensures FoundSince(c, events, j, i + 1, id, y) {
      assert y in s.net || y == a;
    }
  }

  lemma TracedFound(c: Config, s: State, events: seq<Event>, j: nat, i: nat, e: Event)
    requires j < |events| && events[j].Submit? && Inv(c, s) && Enabled(c, s, e)
    requires e.Deliver? && e.m.Found? && Traced(c, s, events, j, i)
    ensures Traced(c, Step(c, s, e), events, j, i)
  {
    var id, m := events[j].txn.id, e.m;
    NodeCount(c, s);
    PendingHere(c, s, m.to);
    hide Inv;
    FoundMasters(c, s.nodes[m.to], events, j, i, m);
    hide RightMasters, UpdateAll, Index, FoundSince;
    var s' := Step(c, s, e);
    forall x | x in s'.net ensures x in s.net {}
    var (node, out) := OnFound(s.nodes[m.to], m);
    assert s'.forwarded == s.forwarded + out && s'.nodes == s.nodes[m.to := node];
  }

  /** What a response does to the transaction, where it is pending. */
  lemma FoundMasters(c: Config, node: Node, events: seq<Event>, j: nat, i: nat, m: Msg)
    requires j < |events| && events[j].Submit? && m.Found? && FoundSince(c, events, j, i, events[j].txn.id, m)
    requires forall x :: x in node.pending ==> node.pending[x].id == x
    requires events[j].txn.id in node.pending ==> RightMasters(c, events, j, i, node.pending[events[j].txn.id])
    ensures var (node', out) := OnFound(node, m); var id := events[j].txn.id;
      && (id in node'.pending ==> id in node.pending && RightMasters(c, events, j, i, node'.pending[id]))
      && forall t :: t in out && t.id == id ==> id in node.pending && RightMasters(c, events, j, i, t)
  {
    hide RightMasters, UpdateAll, Index, Filled, Completed, FoundSince;
    var id := events[j].txn.id;
    UpdateAllMeaning(node.pending, Index(m.results), m.ids);
    if id in node.pending && id in m.ids { MastersFilled(c, events, j, i, node.pending[id], m); }
  }

  lemma PendingHere(c: Config, s: State, p: nat)
    requires Inv(c, s) && p < |s.nodes|
    ensures forall id :: id in s.nodes[p].pending ==>
      s.nodes[p].pending[id].id == id && id in s.submitted && s.submitted[id].0 == p
  {
    hide NodeOk, GoodMsg, PendingOk, OnceEach, NoneLost, Gone, Waiting;
    assert AllWaiting(c, s.nodes[p], s.net, p);
  }

  lemma TracedStep(c: Config, s: State, events: seq<Event>, j: nat, i: nat)
    requires j < i < |events| && events[j].Submit? && Inv(c, s) && Enabled(c, s, events[i])
    requires Traced(c, s, events, j, i)
    ensures Traced(c, Step(c, s, events[i]), events, j, i + 1)
  {
    NodeCount(c, s);
    hide Inv, Traced, Step, Enabled;
    match events[i]
    case Submit(_, _, _) =>
      TracedSubmit(c, s, events, j, i, events[i]);
      TracedLater(c, Step(c, s, events[i]), events, j, i);
    case Timer(_) =>
      TracedTimer(c, s, events, j, i, events[i]);
      TracedLater(c, Step(c, s, events[i]), events, j, i);
    case Deliver(m, _) =>
      if m.Lookup? {
        TracedLookup(c, s, events, j, i);
      } else {
        TracedFound(c, s, events, j, i, events[i]);
        TracedLater(c, Step(c, s, events[i]), events, j, i);
      }
  }

  lemma {:induction false} RunTraced(c: Config, states: seq<State>, events: seq<Event>, j: nat, i: nat)
    requires ValidConfig(c) && IsRun(c, states, events) && j < i < |states| && events[j].Submit?
    ensures Traced(c, states[i], events, j, i)
  {
    hide Inv, Enabled, Step, Traced;
    RunInv(c, states, events, i - 1);
    if i == j + 1 {
      RunIds(c, states, events, j);
      TracedAtFirst(c, states[j], events, j);
    } else {
      RunTraced(c, states, events, j, i - 1);
      TracedStep(c, states[i - 1], events, j, i - 1);
    }
  }

  /** A transaction is forwarded with the keys it came in with, in their order. With one region
      every master is region 0. Otherwise a key stored where the transaction came in carries
      exactly the master found at that moment, another one the master it came with if it came
      with one, and else a master that the owner of the key held when it answered a request sent
      after the transaction came in. */
  lemma ForwardedMasters(c: Config, states: seq<State>, events: seq<Event>, j: nat, i: nat, t: RoutedTxn, n: nat)
    requires ValidConfig(c) && IsRun(c, states, events) && j < i < |states| && events[j].Submit?
    requires t in states[i].forwarded && t.id == events[j].txn.id && n < |t.keys|
    ensures |t.keys| == |events[j].txn.keys| && t.keys[n].key == events[j].txn.keys[n].key
    ensures c.regions == 1 ==> t.keys[n].meta == Some(Meta(0, 0))
    ensures c.regions != 1 && c.part(t.keys[n].key) == events[j].p ==>
      t.keys[n].meta == Some(events[j].lookup(t.keys[n].key))
    ensures c.regions != 1 && c.part(t.keys[n].key) != events[j].p && events[j].txn.keys[n].meta.Some? ==>
      t.keys[n].meta == events[j].txn.keys[n].meta
    ensures c.regions != 1 && c.part(t.keys[n].key) != events[j].p && events[j].txn.keys[n].meta.None? ==>
      && t.keys[n].meta.Some?
      && exists l :: j < l < i && events[l].Deliver? && events[l].m.Lookup? &&
           events[l].m.to == c.part(t.keys[n].key) && t.keys[n].key in events[l].m.keys &&
           t.keys[n].meta.value == events[l].lookup(t.keys[n].key)
  {
    hide Inv, IsRun;
    RunLength(c, states, events);
    RunTraced(c, states, events, j, i);
    RunInv(c, states, events, i);
    AllResolved(c, states[i], t);
    assert RightMasters(c, events, j, i, t);
    assert RightMaster(c, events, j, i, events[j].txn.keys[n], t.keys[n]);
    assert t.keys[n] in t.keys;
  }

  lemma RunLength(c: Config, states: seq<State>, events: seq<Event>)
    requires IsRun(c, states, events)
    ensures |states| == |events| + 1
  {
  }

  lemma AllResolved(c: Config, s: State, t: RoutedTxn)
    requires Inv(c, s) && t in s.forwarded
    ensures Resolved(t.keys)
  {
    hide NodeOk, GoodMsg, AllWaiting, Accounted, PendingOk, Answered;
  }
}
