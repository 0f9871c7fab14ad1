/** The forwarders of one replica of module/forwarder.cpp: each partition resolves the masters
    of the keys it owns and asks the other partitions, in batches, for the rest. */
module Forwarders {
  import opened Prelude
  import opened Transactions

  datatype Meta = Meta(master: nat, counter: nat)
  /** A transaction on its way: keys whose masters may not be known yet. */
  datatype KeyInfo = KeyInfo(key: Key, meta: Option<Meta>)
  datatype RoutedTxn = RoutedTxn(id: nat, keys: seq<KeyInfo>)

  /** The keys and transactions waiting to be asked about at one partition. */
  datatype Batch = Batch(keys: seq<Key>, ids: seq<nat>)
  datatype Node = Node(pending: map<nat, RoutedTxn>, batches: seq<Batch>, size: nat, timers: nat)
  datatype Msg =
    | Lookup(from: nat, to: nat, keys: seq<Key>, ids: seq<nat>)
    | Found(from: nat, to: nat, ids: seq<nat>, results: seq<(Key, Meta)>)

  datatype Config = Config(partitions: nat, regions: nat, part: Key -> nat)

  ghost predicate ValidConfig(c: Config) {
    forall k :: c.part(k) < c.partitions
  }

  // ---------------------------------------------------------------------
  // Handlers
  // ---------------------------------------------------------------------

  predicate Resolved(keys: seq<KeyInfo>) {
    forall e :: e in keys ==> e.meta.Some?
  }

  /** SetTransactionType */
  function KindOf(keys: seq<KeyInfo>): (kind: Kind)
    ensures kind.Unknown? <==> keys == [] || !Resolved(keys)
    ensures kind.SingleHome? ==> forall e :: e in keys ==> e.meta.value.master == keys[0].meta.value.master
    ensures kind.MultiHome? ==> exists e, f :: e in keys && f in keys && e.meta.value.master != f.meta.value.master
  {
    if keys == [] || !Resolved(keys) then Unknown
    else
      assert keys[0] in keys;
      if forall e :: e in keys ==> e.meta.value.master == keys[0].meta.value.master
      then SingleHome else MultiHome
  }

  /** The home that goes with a single-home type; -1 stands for several homes, and for none yet. */
  function HomeOf(keys: seq<KeyInfo>): (home: int)
    ensures home >= 0 <==> KindOf(keys).SingleHome?
    ensures home >= 0 ==> forall e :: e in keys ==> e.meta.value.master == home
  {
    if KindOf(keys).SingleHome? then
      assert keys[0] in keys;
      keys[0].meta.value.master
    else -1
  }

  predicate Remote(c: Config, p: nat, k: Key) {
    c.regions != 1 && c.part(k) != p
  }

  /** The lookup of a key at the partition that owns it: its stored or its initial master. With
      a single region the masters are not looked up. */
  function Resolve(c: Config, p: nat, lookup: Key -> Meta, e: KeyInfo): KeyInfo {
    if c.regions == 1 then e.(meta := Some(Meta(0, 0)))
    else if c.part(e.key) == p then e.(meta := Some(lookup(e.key)))
    else e
  }

  function ResolveAll(c: Config, p: nat, lookup: Key -> Meta, keys: seq<KeyInfo>): seq<KeyInfo> {
    seq(|keys|, i requires 0 <= i < |keys| => Resolve(c, p, lookup, keys[i]))
  }

  /** The keys that belong to partition q, in order. */
  function KeysFor(c: Config, keys: seq<KeyInfo>, q: nat): (ks: seq<Key>)
    ensures forall k :: k in ks <==> c.part(k) == q && exists e :: e in keys && e.key == k
  {
    if keys == [] then []
    else
      var e := keys[|keys| - 1];
      assert keys == keys[..|keys| - 1] + [e];
      KeysFor(c, keys[..|keys| - 1], q) + (if c.part(e.key) == q then [e.key] else [])
  }

  predicate Involves(c: Config, keys: seq<KeyInfo>, q: nat) {
    exists e :: e in keys && c.part(e.key) == q
  }

  predicate AnyRemote(c: Config, p: nat, keys: seq<KeyInfo>) {
    exists e :: e in keys && Remote(c, p, e.key)
  }

  function Enlist(c: Config, p: nat, txn: RoutedTxn, batches: seq<Batch>): seq<Batch> {
    seq(|batches|, q requires 0 <= q < |batches| =>
      if q == p then batches[q]
      else Batch(batches[q].keys + KeysFor(c, txn.keys, q),
        batches[q].ids + if Involves(c, txn.keys, q) then [txn.id] else []))
  }

  /** ProcessForwardTxn, with what it forwards at once. A transaction of unknown type is dropped. */
  function OnTxn(c: Config, p: nat, node: Node, txn: RoutedTxn, lookup: Key -> Meta): (Node, seq<RoutedTxn>) {
    var t := txn.(keys := ResolveAll(c, p, lookup, txn.keys));
    if AnyRemote(c, p, txn.keys) then
      (Node(node.pending[txn.id := t], Enlist(c, p, txn, node.batches), node.size + 1,
            if node.size == 0 then node.timers + 1 else node.timers), [])
    else (node, if KindOf(t.keys).Unknown? then [] else [t])
  }

  function Requests(p: nat, batches: seq<Batch>): multiset<Msg> {
    if batches == [] then multiset{}
    else
      var q := |batches| - 1;
      Requests(p, batches[..q]) +
      if batches[q].ids == [] then multiset{} else multiset{Lookup(p, q, batches[q].keys, batches[q].ids)}
  }

  function Cleared(b: Batch): Batch {
    if b.ids == [] then b else Batch([], [])
  }

  /** SendLookupMasterRequestBatch */
  function OnTimer(p: nat, node: Node): (Node, multiset<Msg>)
    requires node.timers > 0
  {
    (node.(batches := seq(|node.batches|, q requires 0 <= q < |node.batches| => Cleared(node.batches[q])),
           size := 0, timers := node.timers - 1),
     Requests(p, node.batches))
  }

  function Answers(c: Config, q: nat, lookup: Key -> Meta, keys: seq<Key>): (r: seq<(Key, Meta)>)
    ensures forall x :: x in r ==> x.0 in keys && c.part(x.0) == q && x.1 == lookup(x.0)
    ensures forall k :: k in keys && c.part(k) == q ==> (k, lookup(k)) in r
  {
    if keys == [] then []
    else
      var k := keys[|keys| - 1];
      assert keys == keys[..|keys| - 1] + [k];
      Answers(c, q, lookup, keys[..|keys| - 1]) + if c.part(k) == q then [(k, lookup(k))] else []
  }

  /** ProcessLookUpMasterRequest */
  function OnLookup(c: Config, q: nat, m: Msg, lookup: Key -> Meta): Msg
    requires m.Lookup?
  {
    Found(q, m.from, m.ids, Answers(c, q, lookup, m.keys))
  }

  /** The last result for each key. */
  function Index(results: seq<(Key, Meta)>): (index: map<Key, Meta>)
    ensures forall k :: k in index <==> exists x :: x in results && x.0 == k
    ensures forall k :: k in index ==> (k, index[k]) in results
    ensures forall k :: k in index ==> exists i ::
      0 <= i < |results| && results[i] == (k, index[k]) && forall j :: i < j < |results| ==> results[j].0 != k
  {
    if results == [] then map[]
    else
      var x := results[|results| - 1];
      assert results == results[..|results| - 1] + [x];
      Index(results[..|results| - 1])[x.0 := x.1]
  }

  function Fill(index: map<Key, Meta>, e: KeyInfo): KeyInfo {
    if e.meta.None? && e.key in index then e.(meta := Some(index[e.key])) else e
  }

  function FillAll(index: map<Key, Meta>, keys: seq<KeyInfo>): seq<KeyInfo> {
    seq(|keys|, i requires 0 <= i < |keys| => Fill(index, keys[i]))
  }

  function Filled(index: map<Key, Meta>, t: RoutedTxn): (f: RoutedTxn)
    ensures f.id == t.id
  {
    t.(keys := FillAll(index, t.keys))
  }

  predicate Completed(index: map<Key, Meta>, t: RoutedTxn) {
    !KindOf(Filled(index, t).keys).Unknown?
  }

  /** One transaction named by a response. */
  function Update(pending: map<nat, RoutedTxn>, index: map<Key, Meta>, id: nat): (map<nat, RoutedTxn>, seq<RoutedTxn>) {
    if id !in pending then (pending, [])
    else
      var t := Filled(index, pending[id]);
      if Completed(index, pending[id]) then (pending - {id}, [t]) else (pending[id := t], [])
  }

  /** UpdateMasterInfo */
  function UpdateAll(pending: map<nat, RoutedTxn>, index: map<Key, Meta>, ids: seq<nat>): (map<nat, RoutedTxn>,
      seq<RoutedTxn>) {
    if ids == [] then (pending, [])
    else
      var (before, out) := UpdateAll(pending, index, ids[..|ids| - 1]);
      var (after, more) := Update(before, index, ids[|ids| - 1]);
      (after, out + more)
  }

  function OnFound(node: Node, m: Msg): (Node, seq<RoutedTxn>)
    requires m.Found?
  {
    var (pending, out) := UpdateAll(node.pending, Index(m.results), m.ids);
    (node.(pending := pending), out)
  }

  // ---------------------------------------------------------------------
  // The replica
  // ---------------------------------------------------------------------

  /** `submitted` records where and with which keys each transaction came in, `forwarded` what
      was sent on, `known` the masters that some owner has answered. */
  datatype State = State(nodes: seq<Node>, net: multiset<Msg>, submitted: map<nat, (nat, RoutedTxn)>,
      forwarded: seq<RoutedTxn>,
      known: set<(Key, Meta)>)
  datatype Event =
    | Submit(p: nat, txn: RoutedTxn, lookup: Key -> Meta)
    | Timer(p: nat)
    | Deliver(m: Msg, lookup: Key -> Meta)

  ghost predicate Enabled(c: Config, s: State, e: Event)
    requires |s.nodes| == c.partitions
  {
    match e
    case Submit(p, txn, _) => p < c.partitions && txn.id !in s.submitted
    case Timer(p) => p < c.partitions && s.nodes[p].timers > 0
    case Deliver(m, _) => m in s.net && m.to < c.partitions
  }

  /** The masters of the keys that are stored where the transaction came in. */
  function OwnAnswers(c: Config, p: nat, lookup: Key -> Meta, keys: seq<KeyInfo>): set<(Key, Meta)> {
    set e | e in keys && (c.regions == 1 || c.part(e.key) == p) ::
      (e.key, if c.regions == 1 then Meta(0, 0) else lookup(e.key))
  }

  function Step(c: Config, s: State, e: Event): State
    requires |s.nodes| == c.partitions && Enabled(c, s, e)
  {
    match e
    case Submit(p, txn, lookup) =>
      var (node, out) := OnTxn(c, p, s.nodes[p], txn, lookup);
      State(s.nodes[p := node], s.net, s.submitted[txn.id := (p, txn)], s.forwarded + out,
            s.known + OwnAnswers(c, p, lookup, txn.keys))
    case Timer(p) =>
      var (node, out) := OnTimer(p, s.nodes[p]);
      s.(nodes := s.nodes[p := node], net := s.net + out)
    case Deliver(m, lookup) =>
      if m.Lookup? then
        var answer := OnLookup(c, m.to, m, lookup);
        s.(net := s.net - multiset{m} + multiset{answer}, known := s.known + set x | x in answer.results)
      else
        var (node, out) := OnFound(s.nodes[m.to], m);
        s.(nodes := s.nodes[m.to := node], net := s.net - multiset{m}, forwarded := s.forwarded + out)
  }

  function Init(c: Config): State {
    State(seq(c.partitions, _ => Node(map[], seq(c.partitions, _ => Batch([], [])), 0, 0)), multiset{}, map[], [], {})
  }

  // ---------------------------------------------------------------------
  // Invariants
  // ---------------------------------------------------------------------

  /** One callback is scheduled exactly while the batch holds something. */
  ghost predicate NodeOk(c: Config, node: Node) {
    && |node.batches| == c.partitions
    && node.timers == (if node.size > 0 then 1 else 0)
    && (forall q ::
      0 <= q < |node.batches| ==> BatchOk(c, node.batches[q], q) && (node.size == 0 ==> node.batches[q].ids == []))
  }

  ghost predicate BatchOk(c: Config, b: Batch, q: nat) {
    && (b.ids == [] ==> b.keys == [])
    && (forall k :: k in b.keys ==> c.part(k) == q)
  }

  /** Requests go to the owners of their keys, answers come from them. */
  ghost predicate GoodMsg(c: Config, known: set<(Key, Meta)>, m: Msg) {
    m.from < c.partitions && m.to < c.partitions &&
    match m
    case Lookup(_, to, keys, _) => forall k :: k in keys ==> c.part(k) == to
    case Found(from, _, _, results) => forall x :: x in results ==> x in known && c.part(x.0) == from
  }

  /** The message is a question of p to q, or the answer, that names the transaction. */
  predicate Concerns(m: Msg, p: nat, q: nat, id: nat) {
    id in m.ids && if m.Lookup? then m.from == p && m.to == q else m.from == q && m.to == p
  }

  predicate Mentions(m: Msg, k: Key) {
    if m.Lookup? then k in m.keys else exists x :: x in m.results && x.0 == k
  }

  /** Partition q still owes p an answer for the transaction, or for one of its keys. */
  ghost predicate Owes(node: Node, net: multiset<Msg>, p: nat, q: nat, id: nat) {
    q < |node.batches| && (id in node.batches[q].ids || exists m :: m in net && Concerns(m, p, q, id))
  }

  ghost predicate OwesKey(node: Node, net: multiset<Msg>, p: nat, q: nat, id: nat, k: Key) {
    && q < |node.batches|
    && ((id in node.batches[q].ids && k in node.batches[q].keys) || exists m ::
      m in net && Concerns(m, p, q, id) && Mentions(m, k))
  }

  /** A pending transaction waits for some partition, and each of its unresolved keys sits with
      its id in the batch, a request or a response. */
  ghost predicate Waiting(c: Config, node: Node, net: multiset<Msg>, p: nat, txn: RoutedTxn) {
    && (exists q :: Owes(node, net, p, q, txn.id))
    && (forall e :: e in txn.keys && e.meta.None? ==> OwesKey(node, net, p, c.part(e.key), txn.id, e.key))
  }

  ghost predicate AllWaiting(c: Config, node: Node, net: multiset<Msg>, p: nat) {
    forall id :: id in node.pending ==> node.pending[id].id == id && Waiting(c, node, net, p, node.pending[id])
  }

  /** The same keys, with masters as submitted or as answered by their owners. */
  ghost predicate Answered(known: set<(Key, Meta)>, original: RoutedTxn, txn: RoutedTxn) {
    && txn.id == original.id && |txn.keys| == |original.keys|
    && forall i :: 0 <= i < |txn.keys| ==>
         && txn.keys[i].key == original.keys[i].key
         && (txn.keys[i].meta == original.keys[i].meta ||
           (txn.keys[i].meta.Some? && (txn.keys[i].key, txn.keys[i].meta.value) in known))
  }

  /** Every transaction that came in is pending where it came in, or forwarded, never both. */
  ghost predicate OnceEach(out: seq<RoutedTxn>) {
    forall i, j :: 0 <= i < j < |out| ==> out[i].id != out[j].id
  }

  ghost predicate Has(out: seq<RoutedTxn>, id: nat) {
    exists t :: t in out && t.id == id
  }

  lemma OnceAppend(a: seq<RoutedTxn>, b: seq<RoutedTxn>)
    requires OnceEach(a) && OnceEach(b) && forall id :: !(Has(a, id) && Has(b, id))
    ensures OnceEach(a + b)
  {
    var all := a + b;
    forall i, j | 0 <= i < j < |all| ensures all[i].id != all[j].id {
      if i < |a| <= j {
        assert all[i] in a && all[j] in b;
        assert Has(a, all[i].id) && Has(b, all[j].id);
      }
    }
  }

  lemma HasAppend(a: seq<RoutedTxn>, b: seq<RoutedTxn>, id: nat)
    ensures Has(a + b, id) <==> Has(a, id) || Has(b, id)
  {
    if t :| t in a && t.id == id { assert t in a + b; }
    if t :| t in b && t.id == id { assert t in a + b; }
  }

  lemma HasIn(out: seq<RoutedTxn>, t: RoutedTxn)
    requires t in out
    ensures Has(out, t.id)
  {
  }

  ghost predicate Accounted(nodes: seq<Node>, submitted: map<nat, (nat, RoutedTxn)>, forwarded: seq<RoutedTxn>) {
    Owned(nodes, submitted) && Gone(nodes, submitted, forwarded) && OnceEach(forwarded) &&
      NoneLost(nodes, submitted, forwarded)
  }

  /** A transaction is pending nowhere but where it was submitted. */
  ghost predicate Owned(nodes: seq<Node>, submitted: map<nat, (nat, RoutedTxn)>) {
    && (forall id :: id in submitted ==> submitted[id].0 < |nodes| && submitted[id].1.id == id)
    && (forall p, id :: 0 <= p < |nodes| && id in nodes[p].pending ==> id in submitted && submitted[id].0 == p)
  }

  /** What was forwarded is no longer pending. */
  ghost predicate Gone(nodes: seq<Node>, submitted: map<nat, (nat, RoutedTxn)>, forwarded: seq<RoutedTxn>) {
    forall t :: t in forwarded ==>
      t.id in submitted && submitted[t.id].0 < |nodes| && t.id !in nodes[submitted[t.id].0].pending
  }

  /** What has keys is pending or was forwarded. */
  ghost predicate NoneLost(nodes: seq<Node>, submitted: map<nat, (nat, RoutedTxn)>, forwarded: seq<RoutedTxn>) {
    forall id :: id in submitted && submitted[id].1.keys != [] ==>
      submitted[id].0 < |nodes| && (id in nodes[submitted[id].0].pending || Has(forwarded, id))
  }

  ghost predicate PendingOk(known: set<(Key, Meta)>, submitted: map<nat, (nat, RoutedTxn)>,
      pending: map<nat, RoutedTxn>) {
    forall id ::
      id in pending ==> id in submitted && pending[id].keys != [] && Answered(known, submitted[id].1, pending[id])
  }

  ghost predicate ForwardedOk(known: set<(Key, Meta)>, submitted: map<nat, (nat, RoutedTxn)>,
      forwarded: seq<RoutedTxn>) {
    forall t :: t in forwarded ==>
      t.id in submitted && t.keys != [] && Resolved(t.keys) && Answered(known, submitted[t.id].1, t)
  }

  ghost predicate Inv(c: Config, s: State) {
    && |s.nodes| == c.partitions
    && (forall p :: 0 <= p < c.partitions ==> NodeOk(c, s.nodes[p]))
    && (forall m :: m in s.net ==> GoodMsg(c, s.known, m))
    && (forall p :: 0 <= p < c.partitions ==> AllWaiting(c, s.nodes[p], s.net, p))
    && Accounted(s.nodes, s.submitted, s.forwarded)
    && (forall p :: 0 <= p < c.partitions ==> PendingOk(s.known, s.submitted, s.nodes[p].pending))
    && ForwardedOk(s.known, s.submitted, s.forwarded)
  }

  lemma InitInv(c: Config)
    ensures Inv(c, Init(c))
  {
  }

  // ---------------------------------------------------------------------
  // What one response does
  // ---------------------------------------------------------------------

  predicate Completes(pending: map<nat, RoutedTxn>, index: map<Key, Meta>, ids: seq<nat>, id: nat) {
    id in ids && id in pending && Completed(index, pending[id])
  }

  /** A response fills the transactions it names, keeps those it does not complete, and forwards
      the others once each. */
  ghost predicate Touched(pending: map<nat, RoutedTxn>, index: map<Key, Meta>, ids: seq<nat>,
      after: map<nat, RoutedTxn>, out: seq<RoutedTxn>) {
    StillPending(pending, index, ids, after) && Finished(pending, index, ids, out)
  }

  ghost predicate StillPending(pending: map<nat, RoutedTxn>, index: map<Key, Meta>, ids: seq<nat>,
      after: map<nat, RoutedTxn>) {
    && (forall id :: id in after <==> id in pending && !Completes(pending, index, ids, id))
    && (forall id :: id in after ==> after[id] == if id in ids then Filled(index, pending[id]) else pending[id])
  }

  ghost predicate Finished(pending: map<nat, RoutedTxn>, index: map<Key, Meta>, ids: seq<nat>, out: seq<RoutedTxn>) {
    && (forall t :: t in out ==> Completes(pending, index, ids, t.id) && t == Filled(index, pending[t.id]))
    && (forall id :: Completes(pending, index, ids, id) ==> Has(out, id))
    && OnceEach(out)
  }

  lemma {:induction false} UpdateAllMeaning(pending: map<nat, RoutedTxn>, index: map<Key, Meta>, ids: seq<nat>)
    requires forall id :: id in pending ==> pending[id].id == id
    ensures var (after, out) := UpdateAll(pending, index, ids); Touched(pending, index, ids, after, out)
  {
    if ids != [] {
      var last := ids[|ids| - 1];
      assert ids == ids[..|ids| - 1] + [last];
      var (before, out) := UpdateAll(pending, index, ids[..|ids| - 1]);
      UpdateAllMeaning(pending, index, ids[..|ids| - 1]);
      UpdateStep(pending, index, ids[..|ids| - 1], before, out, last);
    }
  }

  lemma FillTwice(index: map<Key, Meta>, t: RoutedTxn)
    ensures Filled(index, Filled(index, t)) == Filled(index, t)
    ensures Completed(index, Filled(index, t)) <==> Completed(index, t)
  {
    assert FillAll(index, FillAll(index, t.keys)) == FillAll(index, t.keys);
  }

  lemma UpdateStep(pending: map<nat, RoutedTxn>, index: map<Key, Meta>, ids: seq<nat>, before: map<nat, RoutedTxn>,
      out: seq<RoutedTxn>, last: nat)
    requires (forall id :: id in pending ==> pending[id].id == id) && Touched(pending, index, ids, before, out)
    ensures var (after, more) := Update(before, index, last); Touched(pending, index, ids + [last], after, out + more)
  {
    if last !in before {
      assert out + [] == out;
      UpdateMisses(pending, index, ids, before, out, last);
    } else if Completed(index, before[last]) {
      UpdateCompletes(pending, index, ids, before, out, last);
    } else {
      assert out + [] == out;
      UpdateFills(pending, index, ids, before, out, last);
    }
  }

  lemma UpdateMisses(pending: map<nat, RoutedTxn>, index: map<Key, Meta>, ids: seq<nat>, before: map<nat, RoutedTxn>,
      out: seq<RoutedTxn>, last: nat)
    requires Touched(pending, index, ids, before, out) && last !in before
    ensures Touched(pending, index, ids + [last], before, out)
  {
    hide Completed, Filled;
    forall id ensures Completes(pending, index, ids + [last], id) <==> Completes(pending, index, ids, id) { }
  }

  lemma UpdateFills(pending: map<nat, RoutedTxn>, index: map<Key, Meta>, ids: seq<nat>, before: map<nat, RoutedTxn>,
      out: seq<RoutedTxn>, last: nat)
    requires Touched(pending, index, ids, before, out) && last in before && !Completed(index, before[last])
    ensures Touched(pending, index, ids + [last], before[last := Filled(index, before[last])], out)
  {
    hide Completed, Filled;
    FillTwice(index, pending[last]);
    forall id ensures Completes(pending, index, ids + [last], id) <==> Completes(pending, index, ids, id) { }
  }

  lemma UpdateCompletes(pending: map<nat, RoutedTxn>, index: map<Key, Meta>, ids: seq<nat>, before: map<nat, RoutedTxn>,
      out: seq<RoutedTxn>, last: nat)
    requires (forall id :: id in pending ==> pending[id].id == id) && Touched(pending, index, ids, before, out)
    requires last in before && Completed(index, before[last])
    ensures Touched(pending, index, ids + [last], before - {last}, out + [Filled(index, before[last])])
  {
    FillTwice(index, pending[last]);
    FilledId(index, pending[last]);
    hide Completed, Filled, Finished;
    var t, ids' := Filled(index, before[last]), ids + [last];
    forall id ensures Completes(pending, index, ids', id) <==> Completes(pending, index, ids, id) || id == last { }
    OneFinished(pending, index, ids, ids', out, last, t);
  }

  lemma OneFinished(pending: map<nat, RoutedTxn>, index: map<Key, Meta>, ids: seq<nat>, ids': seq<nat>,
      out: seq<RoutedTxn>, last: nat, t: RoutedTxn)
    requires Finished(pending, index, ids, out) && t.id == last && last in pending && t == Filled(index, pending[last])
    requires !Completes(pending, index, ids, last)
    requires forall id :: Completes(pending, index, ids', id) <==> Completes(pending, index, ids, id) || id == last
    ensures Finished(pending, index, ids', out + [t])
  {
    hide Completes, Filled;
    assert forall id :: Has(out, id) ==> Completes(pending, index, ids, id);
    HasIn([t], t);
    assert forall id :: Has([t], id) ==> id == last;
    hide Has;
    forall id ensures Has(out + [t], id) <==> Has(out, id) || Has([t], id) { HasAppend(out, [t], id); }
    OnceAppend(out, [t]);
  }

  lemma FilledId(index: map<Key, Meta>, t: RoutedTxn)
    ensures Filled(index, t).id == t.id
  {
  }

  // ---------------------------------------------------------------------
  // Steps: who still owes an answer
  // ---------------------------------------------------------------------

  /** The answer, or the request that a batch became, stands for everything before it. */
  predicate StandsFor(m: Msg, m': Msg) {
    && m'.ids == m.ids && m.Lookup? && m'.Found? && m'.from == m.to && m'.to == m.from
    && forall k :: k in m.keys ==> exists x :: x in m'.results && x.0 == k
  }

  lemma AnswerStandsFor(c: Config, known: set<(Key, Meta)>, m: Msg, lookup: Key -> Meta)
    requires m.Lookup? && GoodMsg(c, known, m)
    ensures var a := OnLookup(c, m.to, m, lookup);
      StandsFor(m, a) && GoodMsg(c, known + (set x | x in a.results), a)
  {
    var a := OnLookup(c, m.to, m, lookup);
    forall k | k in m.keys ensures exists x :: x in a.results && x.0 == k {
      assert (k, lookup(k)) in a.results;
    }
  }

  lemma WaitingReplaced(c: Config, node: Node, net: multiset<Msg>, m: Msg, a: Msg, p: nat, txn: RoutedTxn)
    requires Waiting(c, node, net, p, txn) && m in net && StandsFor(m, a)
    ensures Waiting(c, node, net - multiset{m} + multiset{a}, p, txn)
  {
    var net' := net - multiset{m} + multiset{a};
    forall x | x in net ensures x in net' || x == m {}
    assert a in net';
    var q :| Owes(node, net, p, q, txn.id);
    assert Owes(node, net', p, q, txn.id);
    forall e | e in txn.keys && e.meta.None? ensures OwesKey(node, net', p, c.part(e.key), txn.id, e.key) {
      assert OwesKey(node, net, p, c.part(e.key), txn.id, e.key);
    }
  }

  /** Batches and network that only grow keep everybody waiting. */
  predicate Grown(a: seq<Batch>, b: seq<Batch>) {
    |a| == |b| && forall q :: 0 <= q < |a| ==> a[q].ids <= b[q].ids && a[q].keys <= b[q].keys
  }

  lemma WaitingGrown(c: Config, node: Node, node': Node, net: multiset<Msg>, net': multiset<Msg>, p: nat,
      txn: RoutedTxn)
    requires Waiting(c, node, net, p, txn) && Grown(node.batches, node'.batches) && net <= net'
    ensures Waiting(c, node', net', p, txn)
  {
    forall x | x in net ensures x in net' {}
    var q :| Owes(node, net, p, q, txn.id);
    assert Owes(node', net', p, q, txn.id);
    forall e | e in txn.keys && e.meta.None? ensures OwesKey(node', net', p, c.part(e.key), txn.id, e.key) {
      assert OwesKey(node, net, p, c.part(e.key), txn.id, e.key);
    }
  }

  /** A submitted transaction joins the batch of every partition it needs. */
  lemma WaitingNew(c: Config, p: nat, node: Node, net: multiset<Msg>, txn: RoutedTxn, lookup: Key -> Meta)
    requires ValidConfig(c) && p < c.partitions && |node.batches| == c.partitions && AnyRemote(c, p, txn.keys)
    ensures Waiting(c, OnTxn(c, p, node, txn, lookup).0, net, p, txn.(keys := ResolveAll(c, p, lookup, txn.keys)))
  {
    var node' := OnTxn(c, p, node, txn, lookup).0;
    var t := txn.(keys := ResolveAll(c, p, lookup, txn.keys));
    var r :| r in txn.keys && Remote(c, p, r.key);
    assert Owes(node', net, p, c.part(r.key), txn.id);
    forall e | e in t.keys && e.meta.None? ensures OwesKey(node', net, p, c.part(e.key), txn.id, e.key) {
      assert e in txn.keys && Remote(c, p, e.key);
    }
  }

  lemma {:induction false} RequestsMeaning(p: nat, batches: seq<Batch>, m: Msg)
    ensures m in Requests(p, batches) <==>
      && m.Lookup? && m.from == p && m.to < |batches|
      && m.ids == batches[m.to].ids != [] && m.keys == batches[m.to].keys
  {
    if batches != [] {
      var q := |batches| - 1;
      RequestsMeaning(p, batches[..q], m);
      assert Lookup(p, q, batches[q].keys, batches[q].ids) != m ||
        (m.Lookup? && m.from == p && m.to == q && m.ids == batches[q].ids && m.keys == batches[q].keys);
    }
  }

  lemma WaitingSent(c: Config, p: nat, node: Node, net: multiset<Msg>, txn: RoutedTxn)
    requires NodeOk(c, node) && node.timers > 0 && Waiting(c, node, net, p, txn)
    ensures var (node', out) := OnTimer(p, node); Waiting(c, node', net + out, p, txn)
  {
    var (node', out) := OnTimer(p, node);
    var net' := net + out;
    forall q | 0 <= q < |node.batches| && node.batches[q].ids != []
      ensures Lookup(p, q, node.batches[q].keys, node.batches[q].ids) in net'
    {
      RequestsMeaning(p, node.batches, Lookup(p, q, node.batches[q].keys, node.batches[q].ids));
    }
    var q :| Owes(node, net, p, q, txn.id);
    OwesSent(node, node', net, net', p, q, txn.id, []);
    forall e | e in txn.keys && e.meta.None? ensures OwesKey(node', net', p, c.part(e.key), txn.id, e.key) {
      OwesSent(node, node', net, net', p, c.part(e.key), txn.id, e.key);
    }
  }

  lemma OwesSent(node: Node, node': Node, net: multiset<Msg>, net': multiset<Msg>, p: nat, q: nat, id: nat, k: Key)
    requires net <= net' && |node'.batches| == |node.batches|
    requires q < |node.batches| && node.batches[q].ids != [] ==>
      Lookup(p, q, node.batches[q].keys, node.batches[q].ids) in net'
    ensures Owes(node, net, p, q, id) ==> Owes(node', net', p, q, id)
    ensures OwesKey(node, net, p, q, id, k) ==> OwesKey(node', net', p, q, id, k)
  {
    forall x | x in net ensures x in net' {}
    if Owes(node, net, p, q, id) && id in node.batches[q].ids {
      assert Concerns(Lookup(p, q, node.batches[q].keys, node.batches[q].ids), p, q, id);
    }
  }

  /** A response is gone, but what it owed has been filled in. */
  lemma WaitingAnswered(c: Config, node: Node, net: multiset<Msg>, m: Msg, p: nat, txn: RoutedTxn)
    requires Waiting(c, node, net, p, txn) && m in net && m.Found?
    requires txn.id in m.ids && m.to == p ==> !Completed(Index(m.results), txn) && txn.keys != []
    ensures Waiting(c, node, net - multiset{m}, p, if txn.id in m.ids && m.to == p then Filled(Index(m.results), txn)
      else txn)
  {
    hide KindOf;
    var net' := net - multiset{m};
    forall x | x in net ensures x in net' || x == m {}
    var named := txn.id in m.ids && m.to == p;
    var t := if named then Filled(Index(m.results), txn) else txn;
    forall e | e in t.keys && e.meta.None? ensures OwesKey(node, net', p, c.part(e.key), txn.id, e.key) {
      if named {
        var i :| 0 <= i < |t.keys| && t.keys[i] == e;
        assert txn.keys[i] in txn.keys && e.key !in Index(m.results);
      }
      assert OwesKey(node, net, p, c.part(e.key), txn.id, e.key);
    }
    if named {
      assert !Resolved(t.keys);
      var e :| e in t.keys && e.meta.None?;
      assert OwesKey(node, net', p, c.part(e.key), txn.id, e.key);
      assert Owes(node, net', p, c.part(e.key), txn.id);
    } else {
      var q :| Owes(node, net, p, q, txn.id);
      assert Owes(node, net', p, q, txn.id);
    }
  }

  // ---------------------------------------------------------------------
  // Steps: the invariant
  // ---------------------------------------------------------------------

  lemma AnsweredMore(known: set<(Key, Meta)>, known': set<(Key, Meta)>, original: RoutedTxn, txn: RoutedTxn)
    requires Answered(known, original, txn) && known <= known'
    ensures Answered(known', original, txn)
  {
  }

  lemma AnsweredFilled(known: set<(Key, Meta)>, original: RoutedTxn, txn: RoutedTxn, results: seq<(Key, Meta)>)
    requires Answered(known, original, txn) && forall x :: x in results ==> x in known
    ensures Answered(known, original, Filled(Index(results), txn))
  {
  }

  lemma AnsweredNew(c: Config, p: nat, known: set<(Key, Meta)>, txn: RoutedTxn, lookup: Key -> Meta)
    ensures Answered(known + OwnAnswers(c, p, lookup, txn.keys), txn, txn.(keys := ResolveAll(c, p, lookup, txn.keys)))
  {
    var t := txn.(keys := ResolveAll(c, p, lookup, txn.keys));
    forall i | 0 <= i < |t.keys| && !Remote(c, p, t.keys[i].key)
      ensures (t.keys[i].key, t.keys[i].meta.value) in OwnAnswers(c, p, lookup, txn.keys)
    {
      assert txn.keys[i] in txn.keys;
    }
  }

  lemma ForwardedNow(c: Config, p: nat, txn: RoutedTxn, lookup: Key -> Meta)
    requires !AnyRemote(c, p, txn.keys)
    ensures var keys := ResolveAll(c, p, lookup, txn.keys);
      Resolved(keys) && (KindOf(keys).Unknown? <==> txn.keys == [])
  {
    var keys := ResolveAll(c, p, lookup, txn.keys);
    forall e | e in keys ensures e.meta.Some? {
      var i :| 0 <= i < |keys| && keys[i] == e;
      assert txn.keys[i] in txn.keys;
    }
  }

  lemma SubmitNode(c: Config, p: nat, node: Node, txn: RoutedTxn, lookup: Key -> Meta)
    requires NodeOk(c, node)
    ensures var node' := OnTxn(c, p, node, txn, lookup).0; NodeOk(c, node') && Grown(node.batches, node'.batches)
  {
    var node' := OnTxn(c, p, node, txn, lookup).0;
    forall q | 0 <= q < |node'.batches| ensures BatchOk(c, node'.batches[q], q) {
      var more := KeysFor(c, txn.keys, q);
      assert BatchOk(c, node.batches[q], q);
      assert more != [] ==> more[0] in more && Involves(c, txn.keys, q);
    }
  }

  /** A new transaction that becomes pending, or is forwarded at once, or has no keys. */
  lemma AccountedNew(nodes: seq<Node>, submitted: map<nat, (nat, RoutedTxn)>, forwarded: seq<RoutedTxn>, p: nat,
      txn: RoutedTxn,
      node': Node, out: seq<RoutedTxn>)
    requires Accounted(nodes, submitted, forwarded) && p < |nodes| && txn.id !in submitted
    requires forall id :: id in node'.pending <==> id in nodes[p].pending || (id == txn.id && txn.id in node'.pending)
    requires |out| <= 1 && (forall t :: t in out ==> t.id == txn.id && txn.id !in node'.pending)
    requires txn.keys != [] ==> txn.id in node'.pending || |out| == 1
    ensures Accounted(nodes[p := node'], submitted[txn.id := (p, txn)], forwarded + out)
  {
    var all := forwarded + out;
    assert forall t :: t in all <==> t in forwarded || t in out;
    assert |out| == 1 ==> out[0] in all && out[0] in out;
    forall i, j | 0 <= i < j < |all| ensures all[i].id != all[j].id {
      assert i < |forwarded| && all[i] in forwarded;
      if j >= |forwarded| { assert all[j] in out; }
    }
  }

  lemma SubmitAccounted(c: Config, s: State, p: nat, txn: RoutedTxn, lookup: Key -> Meta)
    requires |s.nodes| == c.partitions && Enabled(c, s, Submit(p, txn, lookup)) &&
      Accounted(s.nodes, s.submitted, s.forwarded)
    ensures var s' := Step(c, s, Submit(p, txn, lookup)); Accounted(s'.nodes, s'.submitted, s'.forwarded)
  {
    hide KindOf, Enlist, Accounted, ResolveAll;
    if !AnyRemote(c, p, txn.keys) { ForwardedNow(c, p, txn, lookup); }
    var (node', out) := OnTxn(c, p, s.nodes[p], txn, lookup);
    NotPending(s, p, txn.id);
    AccountedNew(s.nodes, s.submitted, s.forwarded, p, txn, node', out);
  }

  lemma NotPending(s: State, p: nat, id: nat)
    requires Accounted(s.nodes, s.submitted, s.forwarded) && p < |s.nodes| && id !in s.submitted
    ensures id !in s.nodes[p].pending
  {
  }

  predicate Extends(a: map<nat, (nat, RoutedTxn)>, b: map<nat, (nat, RoutedTxn)>) {
    forall id :: id in a ==> id in b && b[id] == a[id]
  }

  lemma KeysMore(known: set<(Key, Meta)>, known': set<(Key, Meta)>, submitted: map<nat, (nat, RoutedTxn)>,
      submitted': map<nat, (nat, RoutedTxn)>,
                 pending: map<nat, RoutedTxn>, forwarded: seq<RoutedTxn>)
    requires known <= known' && Extends(submitted, submitted')
    ensures PendingOk(known, submitted, pending) ==> PendingOk(known', submitted', pending)
    ensures ForwardedOk(known, submitted, forwarded) ==> ForwardedOk(known', submitted', forwarded)
  {
    hide Answered, Resolved;
    if PendingOk(known, submitted, pending) {
      forall id | id in pending ensures Answered(known', submitted[id].1, pending[id]) {
        AnsweredMore(known, known', submitted[id].1, pending[id]);
      }
    }
    if ForwardedOk(known, submitted, forwarded) {
      forall t | t in forwarded ensures Answered(known', submitted[t.id].1, t) {
        AnsweredMore(known, known', submitted[t.id].1, t);
      }
    }
  }

  lemma SubmitKeys(c: Config, known: set<(Key, Meta)>, submitted: map<nat, (nat, RoutedTxn)>, forwarded: seq<RoutedTxn>,
                   p: nat, node: Node, txn: RoutedTxn, lookup: Key -> Meta)
    requires PendingOk(known, submitted, node.pending) && ForwardedOk(known, submitted, forwarded) &&
      txn.id !in submitted
    ensures var (node', out) := OnTxn(c, p, node, txn, lookup);
      var known', submitted' := known + OwnAnswers(c, p, lookup, txn.keys), submitted[txn.id := (p, txn)];
      PendingOk(known', submitted', node'.pending) && ForwardedOk(known', submitted', forwarded + out)
  {
    hide KindOf, Enlist, Answered, Resolved;
    var known', submitted' := known + OwnAnswers(c, p, lookup, txn.keys), submitted[txn.id := (p, txn)];
    KeysMore(known, known', submitted, submitted', node.pending, forwarded);
    AnsweredNew(c, p, known, txn, lookup);
    if !AnyRemote(c, p, txn.keys) { ForwardedNow(c, p, txn, lookup); }
  }

  lemma SubmitWaiting(c: Config, p: nat, node: Node, net: multiset<Msg>, txn: RoutedTxn, lookup: Key -> Meta)
    requires ValidConfig(c) && p < c.partitions && NodeOk(c, node) && AllWaiting(c, node, net, p)
    ensures AllWaiting(c, OnTxn(c, p, node, txn, lookup).0, net, p)
  {
    hide Waiting, KindOf, Enlist, NodeOk;
    var node' := OnTxn(c, p, node, txn, lookup).0;
    SubmitNode(c, p, node, txn, lookup);
    if AnyRemote(c, p, txn.keys) {
      NodeSize(c, node);
      WaitingNew(c, p, node, net, txn, lookup);
      forall id | id in node.pending && id != txn.id ensures Waiting(c, node', net, p, node.pending[id]) {
        WaitingGrown(c, node, node', net, net, p, node.pending[id]);
      }
    }
  }

  lemma NodeSize(c: Config, node: Node)
    requires NodeOk(c, node)
    ensures |node.batches| == c.partitions
  {
  }

  lemma SubmitInv(c: Config, s: State, p: nat, txn: RoutedTxn, lookup: Key -> Meta)
    requires ValidConfig(c) && Inv(c, s) && Enabled(c, s, Submit(p, txn, lookup))
    ensures Inv(c, Step(c, s, Submit(p, txn, lookup)))
  {
    hide NodeOk, AllWaiting, Accounted, PendingOk, ForwardedOk, OnTxn, OwnAnswers;
    var s' := Step(c, s, Submit(p, txn, lookup));
    SubmitNode(c, p, s.nodes[p], txn, lookup);
    SubmitWaiting(c, p, s.nodes[p], s.net, txn, lookup);
    SubmitAccounted(c, s, p, txn, lookup);
    SubmitKeys(c, s.known, s.submitted, s.forwarded, p, s.nodes[p], txn, lookup);
    forall r | 0 <= r < c.partitions && r != p ensures PendingOk(s'.known, s'.submitted, s'.nodes[r].pending) {
      KeysMore(s.known, s'.known, s.submitted, s'.submitted, s.nodes[r].pending, s.forwarded);
    }
    GoodMore(c, s.known, s'.known, s.net);
  }

  lemma GoodMore(c: Config, known: set<(Key, Meta)>, known': set<(Key, Meta)>, net: multiset<Msg>)
    requires known <= known' && forall m :: m in net ==> GoodMsg(c, known, m)
    ensures forall m :: m in net ==> GoodMsg(c, known', m)
  {
  }

  lemma GrownSelf(node: Node)
    ensures Grown(node.batches, node.batches)
  {
  }

  lemma AllWaitingMore(c: Config, node: Node, net: multiset<Msg>, net': multiset<Msg>, p: nat)
    requires AllWaiting(c, node, net, p) && net <= net'
    ensures AllWaiting(c, node, net', p)
  {
    hide Waiting;
    GrownSelf(node);
    forall id | id in node.pending ensures Waiting(c, node, net', p, node.pending[id]) {
      WaitingGrown(c, node, node, net, net', p, node.pending[id]);
    }
  }

  lemma AllWaitingSent(c: Config, p: nat, node: Node, net: multiset<Msg>)
    requires NodeOk(c, node) && node.timers > 0 && AllWaiting(c, node, net, p)
    ensures var (node', out) := OnTimer(p, node); AllWaiting(c, node', net + out, p) && NodeOk(c, node')
  {
    hide Waiting;
    var (node', out) := OnTimer(p, node);
    forall id | id in node.pending ensures Waiting(c, node', net + out, p, node.pending[id]) {
      WaitingSent(c, p, node, net, node.pending[id]);
    }
    forall q | 0 <= q < |node.batches| ensures node'.batches[q] == Batch([], []) {
      assert BatchOk(c, node.batches[q], q);
    }
  }

  lemma RequestsGood(c: Config, known: set<(Key, Meta)>, p: nat, node: Node)
    requires NodeOk(c, node) && p < c.partitions
    ensures forall m :: m in Requests(p, node.batches) ==> GoodMsg(c, known, m)
  {
    forall m | m in Requests(p, node.batches) ensures GoodMsg(c, known, m) {
      RequestsMeaning(p, node.batches, m);
      assert BatchOk(c, node.batches[m.to], m.to);
    }
  }

  lemma AccountedSame(nodes: seq<Node>, nodes': seq<Node>, submitted: map<nat, (nat, RoutedTxn)>,
      forwarded: seq<RoutedTxn>)
    requires Accounted(nodes, submitted, forwarded) && |nodes'| == |nodes|
    requires forall p :: 0 <= p < |nodes| ==> nodes'[p].pending == nodes[p].pending
    ensures Accounted(nodes', submitted, forwarded)
  {
  }

  lemma TimerInv(c: Config, s: State, p: nat)
    requires Inv(c, s) && Enabled(c, s, Timer(p))
    ensures Inv(c, Step(c, s, Timer(p)))
  {
    hide NodeOk, AllWaiting, Accounted, PendingOk, ForwardedOk, Requests;
    var s' := Step(c, s, Timer(p));
    AllWaitingSent(c, p, s.nodes[p], s.net);
    forall r | 0 <= r < c.partitions && r != p ensures AllWaiting(c, s'.nodes[r], s'.net, r) {
      AllWaitingMore(c, s.nodes[r], s.net, s'.net, r);
    }
    RequestsGood(c, s.known, p, s.nodes[p]);
    AccountedSame(s.nodes, s'.nodes, s.submitted, s.forwarded);
  }

  lemma LookupInv(c: Config, s: State, m: Msg, lookup: Key -> Meta)
    requires Inv(c, s) && Enabled(c, s, Deliver(m, lookup)) && m.Lookup?
    ensures Inv(c, Step(c, s, Deliver(m, lookup)))
  {
    hide NodeOk, AllWaiting, Accounted, PendingOk, ForwardedOk, OnLookup;
    var s' := Step(c, s, Deliver(m, lookup));
    var a := OnLookup(c, m.to, m, lookup);
    AnswerStandsFor(c, s.known, m, lookup);
    GoodMore(c, s.known, s'.known, s.net);
    forall x | x in s'.net ensures x in s.net || x == a {}
    forall p | 0 <= p < c.partitions
      ensures AllWaiting(c, s'.nodes[p], s'.net, p) && PendingOk(s'.known, s'.submitted, s'.nodes[p].pending) {
      AllWaitingReplaced(c, s.nodes[p], s.net, m, a, p);
      KeysMore(s.known, s'.known, s.submitted, s'.submitted, s.nodes[p].pending, s.forwarded);
    }
    KeysMore(s.known, s'.known, s.submitted, s'.submitted, map[], s.forwarded);
  }

  lemma AllWaitingReplaced(c: Config, node: Node, net: multiset<Msg>, m: Msg, a: Msg, p: nat)
    requires AllWaiting(c, node, net, p) && m in net && StandsFor(m, a)
    ensures AllWaiting(c, node, net - multiset{m} + multiset{a}, p)
  {
    hide Waiting;
    forall id | id in node.pending ensures Waiting(c, node, net - multiset{m} + multiset{a}, p, node.pending[id]) {
      WaitingReplaced(c, node, net, m, a, p, node.pending[id]);
    }
  }

  lemma FoundWaiting(c: Config, p: nat, node: Node, net: multiset<Msg>, known: set<(Key, Meta)>,
      submitted: map<nat, (nat, RoutedTxn)>, m: Msg)
    requires AllWaiting(c, node, net, p) && PendingOk(known, submitted, node.pending) && m in net && m.Found?
    ensures AllWaiting(c, if m.to == p then OnFound(node, m).0 else node, net - multiset{m}, p)
  {
    hide Waiting, Completed, Filled, UpdateAll, Index;
    UpdateAllMeaning(node.pending, Index(m.results), m.ids);
    var node' := if m.to == p then OnFound(node, m).0 else node;
    forall id | id in node'.pending
      ensures node'.pending[id].id == id && Waiting(c, node', net - multiset{m}, p, node'.pending[id]) {
      WaitingAnswered(c, node, net, m, p, node.pending[id]);
      SameWaiting(c, node, node', net - multiset{m}, p, node'.pending[id]);
    }
  }

  lemma SameWaiting(c: Config, node: Node, node': Node, net: multiset<Msg>, p: nat, txn: RoutedTxn)
    requires Waiting(c, node, net, p, txn) && node'.batches == node.batches
    ensures Waiting(c, node', net, p, txn)
  {
    GrownSelf(node);
    WaitingGrown(c, node, node', net, net, p, txn);
  }

  lemma FoundKeys(c: Config, known: set<(Key, Meta)>, submitted: map<nat, (nat, RoutedTxn)>, forwarded: seq<RoutedTxn>,
      node: Node, m: Msg)
    requires PendingOk(known, submitted, node.pending) && ForwardedOk(known, submitted, forwarded)
    requires (forall id :: id in node.pending ==> node.pending[id].id == id) && m.Found? && GoodMsg(c, known, m)
    ensures var (node', out) := OnFound(node, m);
      PendingOk(known, submitted, node'.pending) && ForwardedOk(known, submitted, forwarded + out)
  {
    hide UpdateAll, Index, Answered, KindOf;
    var (node', out) := OnFound(node, m);
    UpdateAllMeaning(node.pending, Index(m.results), m.ids);
    forall id | id in node.pending
      ensures Answered(known, submitted[id].1, Filled(Index(m.results), node.pending[id])) {
      AnsweredFilled(known, submitted[id].1, node.pending[id], m.results);
    }
  }

  /** Transactions that leave one node's pending list in the moment they are forwarded. */
  lemma AccountedMoved(nodes: seq<Node>, submitted: map<nat, (nat, RoutedTxn)>, forwarded: seq<RoutedTxn>, p: nat,
      node': Node,
      out: seq<RoutedTxn>)
    requires Accounted(nodes, submitted, forwarded) && p < |nodes|
    requires forall id :: id in node'.pending ==> id in nodes[p].pending
    requires forall t :: t in out ==> t.id in nodes[p].pending && t.id !in node'.pending
    requires forall id :: id in nodes[p].pending && id !in node'.pending ==> Has(out, id)
    requires OnceEach(out)
    ensures Accounted(nodes[p := node'], submitted, forwarded + out)
  {
    hide NoneLost;
    forall id ensures !(Has(forwarded, id) && Has(out, id)) { }
    OnceAppend(forwarded, out);
    hide OnceEach, Has;
    NoneLostMoved(nodes, submitted, forwarded, p, node', out);
  }

  lemma NoneLostMoved(nodes: seq<Node>, submitted: map<nat, (nat, RoutedTxn)>, forwarded: seq<RoutedTxn>, p: nat,
      node': Node, out: seq<RoutedTxn>)
    requires NoneLost(nodes, submitted, forwarded) && p < |nodes|
    requires forall id :: id in nodes[p].pending && id !in node'.pending ==> Has(out, id)
    ensures NoneLost(nodes[p := node'], submitted, forwarded + out)
  {
    hide Has;
    forall id
      ensures Has(forwarded + out, id) <==> Has(forwarded, id) || Has(out, id) { HasAppend(forwarded, out, id); }
  }

  lemma FoundAccounted(c: Config, nodes: seq<Node>, submitted: map<nat, (nat, RoutedTxn)>, forwarded: seq<RoutedTxn>,
      m: Msg)
    requires Accounted(nodes, submitted, forwarded) && m.Found? && m.to < |nodes|
    requires forall id :: id in nodes[m.to].pending ==> nodes[m.to].pending[id].id == id
    ensures var (node', out) := OnFound(nodes[m.to], m); Accounted(nodes[m.to := node'], submitted, forwarded + out)
  {
    hide UpdateAll, Index, Completed, Filled, Accounted;
    var node := nodes[m.to];
    var (node', out) := OnFound(node, m);
    UpdateAllMeaning(node.pending, Index(m.results), m.ids);
    AccountedMoved(nodes, submitted, forwarded, m.to, node', out);
  }

  lemma FoundInv(c: Config, s: State, m: Msg, lookup: Key -> Meta)
    requires Inv(c, s) && Enabled(c, s, Deliver(m, lookup)) && m.Found?
    ensures Inv(c, Step(c, s, Deliver(m, lookup)))
  {
    hide AllWaiting, Accounted, PendingOk, ForwardedOk, UpdateAll, BatchOk;
    var s' := Step(c, s, Deliver(m, lookup));
    PendingIds(c, s.nodes[m.to], s.net, m.to);
    forall x | x in s'.net ensures x in s.net {}
    forall p | 0 <= p < c.partitions ensures AllWaiting(c, s'.nodes[p], s'.net, p) {
      FoundWaiting(c, p, s.nodes[p], s.net, s.known, s.submitted, m);
    }
    FoundKeys(c, s.known, s.submitted, s.forwarded, s.nodes[m.to], m);
    FoundAccounted(c, s.nodes, s.submitted, s.forwarded, m);
    forall p | 0 <= p < c.partitions ensures NodeOk(c, s'.nodes[p]) {
      assert s'.nodes[p] == s.nodes[p].(pending := s'.nodes[p].pending);
    }
  }

  lemma PendingIds(c: Config, node: Node, net: multiset<Msg>, p: nat)
    requires AllWaiting(c, node, net, p)
    ensures forall id :: id in node.pending ==> node.pending[id].id == id
  {
  }

  lemma StepInv(c: Config, s: State, e: Event)
    requires ValidConfig(c) && Inv(c, s) && Enabled(c, s, e)
    ensures Inv(c, Step(c, s, e))
  {
    hide Inv, Step, Enabled;
    match e
    case Submit(p, txn, lookup) => SubmitInv(c, s, p, txn, lookup);
    case Timer(p) => TimerInv(c, s, p);
    case Deliver(m, lookup) => if m.Lookup? { LookupInv(c, s, m, lookup); } else { FoundInv(c, s, m, lookup); }
  }

  // ---------------------------------------------------------------------
  // Runs
  // ---------------------------------------------------------------------

  ghost predicate IsRun(c: Config, states: seq<State>, events: seq<Event>) {
    && |states| == |events| + 1 && states[0] == Init(c) &&
      (forall i :: 0 <= i < |states| ==> |states[i].nodes| == c.partitions)
    && forall i ::
      0 <= i < |events| ==> Enabled(c, states[i], events[i]) && states[i + 1] == Step(c, states[i], events[i])
  }

  lemma {:induction false} RunInv(c: Config, states: seq<State>, events: seq<Event>, i: nat)
    requires ValidConfig(c) && IsRun(c, states, events) && i < |states|
    ensures Inv(c, states[i])
  {
    hide Inv, Enabled;
    if i == 0 {
      InitInv(c);
    } else {
      RunInv(c, states, events, i - 1);
      StepInv(c, states[i - 1], events[i - 1]);
    }
  }

  /** No orphans: an unresolved key of a pending transaction sits, together with the id, in a
      batch with a callback scheduled, in a request to its owner or in the owner's response. */
  lemma NoOrphan(c: Config, states: seq<State>, events: seq<Event>, i: nat, p: nat, id: nat, e: KeyInfo)
    requires ValidConfig(c) && IsRun(c, states, events) && i < |states| && p < c.partitions
    requires id in states[i].nodes[p].pending && e in states[i].nodes[p].pending[id].keys && e.meta.None?
    ensures var node, q := states[i].nodes[p], c.part(e.key);
      || (node.timers > 0 && |node.batches| == c.partitions && id in node.batches[q].ids &&
        e.key in node.batches[q].keys)
      || (exists m :: m in states[i].net && Concerns(m, p, q, id) && Mentions(m, e.key))
  {
    RunInv(c, states, events, i);
    var s := states[i];
    assert AllWaiting(c, s.nodes[p], s.net, p) && NodeOk(c, s.nodes[p]);
    assert OwesKey(s.nodes[p], s.net, p, c.part(e.key), id, e.key);
  }

  /** At any moment a transaction has been forwarded at most once, with its own keys, each with
      the master it came with or the one its owner answered. */
  lemma ForwardedOnce(c: Config, states: seq<State>, events: seq<Event>, i: nat, j: nat, k: nat)
    requires ValidConfig(c) && IsRun(c, states, events) && i < |states| && j < |states[i].forwarded| &&
      k < |states[i].forwarded|
    ensures var s := states[i]; var t := s.forwarded[j];
      && (t.id == s.forwarded[k].id ==> j == k)
      && t.id in s.submitted && t.keys != [] && Resolved(t.keys) && Answered(s.known, s.submitted[t.id].1, t)
      && forall p :: 0 <= p < c.partitions ==> t.id !in s.nodes[p].pending
  {
    RunInv(c, states, events, i);
    var s := states[i];
    assert s.forwarded[j] in s.forwarded;
    assert Accounted(s.nodes, s.submitted, s.forwarded);
  }

  ghost predicate Drained(s: State) {
    s.net == multiset{} && forall p :: 0 <= p < |s.nodes| ==> s.nodes[p].timers == 0
  }

  lemma NothingOwed(c: Config, node: Node, net: multiset<Msg>, p: nat)
    requires NodeOk(c, node) && AllWaiting(c, node, net, p) && node.timers == 0 && net == multiset{}
    ensures node.pending == map[]
  {
    assert forall q, id :: !Owes(node, net, p, q, id);
  }

  /** Once the callbacks and the network have drained nothing is pending, and a transaction has
      been forwarded exactly if it has keys. */
  lemma DrainedForwardsAll(c: Config, states: seq<State>, events: seq<Event>, i: nat)
    requires ValidConfig(c) && IsRun(c, states, events) && i < |states| && Drained(states[i])
    ensures var s := states[i];
      && (forall p :: 0 <= p < c.partitions ==> s.nodes[p].pending == map[])
      && (forall id ::
        id in s.submitted ==> (s.submitted[id].1.keys != [] <==> exists t :: t in s.forwarded && t.id == id))
  {
    RunInv(c, states, events, i);
    var s := states[i];
    forall p | 0 <= p < c.partitions ensures s.nodes[p].pending == map[] {
      NothingOwed(c, s.nodes[p], s.net, p);
    }
    forall t | t in s.forwarded ensures s.submitted[t.id].1.keys != [] {
      assert Answered(s.known, s.submitted[t.id].1, t);
    }
  }

  /** A transaction without keys, submitted anywhere: everything has drained at once, and it was
      forwarded to nobody. */
  lemma EmptyDropped(c: Config, p: nat, id: nat, lookup: Key -> Meta)
    requires p < c.partitions
    ensures var e := Submit(p, RoutedTxn(id, []), lookup);
      && |Init(c).nodes| == c.partitions && Enabled(c, Init(c), e)
      && var s := Step(c, Init(c), e);
        IsRun(c, [Init(c), s], [e]) && Drained(s) && id in s.submitted && s.forwarded == []
  {
    var s := Step(c, Init(c), Submit(p, RoutedTxn(id, []), lookup));
    assert s.nodes == Init(c).nodes;
  }
}

/** The forwarder object of one partition. */
module ForwarderObjects {
  import opened Prelude
  import opened Transactions
  import opened Forwarders

  method SetTransactionType(keys: seq<KeyInfo>) returns (kind: Kind, home: int)
    ensures kind == KindOf(keys) && home == HomeOf(keys)
  {
    var complete := keys != [];
    for i := 0 to |keys|
      invariant complete <==> keys != [] && forall e :: e in keys[..i] ==> e.meta.Some?
    {
      if keys[i].meta.None? {
        complete := false;
        break;
      }
    }
    if !complete { return Unknown, -1; }
    assert keys == keys[..|keys|];
    home := keys[0].meta.value.master;
    var single := true;
    for i := 0 to |keys|
      invariant single <==> forall e :: e in keys[..i] ==> e.meta.value.master == home
    {
      if keys[i].meta.value.master != home {
        single := false;
        break;
      }
    }
    kind := if single then SingleHome else MultiHome;
    if !single { home := -1; }
  }

  /** PopulateInvolvedPartitions, the flags of the partitions that own some key. */
  method InvolvedPartitions(c: Config, keys: seq<KeyInfo>) returns (flags: seq<bool>)
    requires ValidConfig(c)
    ensures |flags| == c.partitions && forall q :: 0 <= q < |flags| ==> flags[q] == Involves(c, keys, q)
  {
    flags := seq(c.partitions, _ => false);
    for i := 0 to |keys|
      invariant |flags| == c.partitions && forall q :: 0 <= q < |flags| ==> flags[q] == Involves(c, keys[..i], q)
    {
      assert keys[..i + 1] == keys[..i] + [keys[i]];
      flags := flags[c.part(keys[i].key) := true];
    }
    assert keys[..|keys|] == keys;
  }

  /** The batches once the remote keys of a prefix have been added. */
  ghost function WithKeys(c: Config, p: nat, keys: seq<KeyInfo>, batches: seq<Batch>): seq<Batch> {
    seq(|batches|, q requires 0 <= q < |batches| =>
      if q == p || c.regions == 1 then batches[q] else batches[q].(keys := batches[q].keys + KeysFor(c, keys, q)))
  }

  /** Then once the id has been added to the partitions below n. */
  ghost function WithId(c: Config, p: nat, txn: RoutedTxn, batches: seq<Batch>, n: nat): seq<Batch> {
    seq(|batches|, q requires 0 <= q < |batches| =>
      if q == p || q >= n || !Involves(c, txn.keys, q) then batches[q]
        else batches[q].(ids := batches[q].ids + [txn.id]))
  }

  lemma NoKeys(c: Config, p: nat, keys: seq<KeyInfo>, batches: seq<Batch>)
    requires !AnyRemote(c, p, keys)
    ensures WithKeys(c, p, keys, batches) == batches
  {
    forall q | 0 <= q < |batches| && q != p && c.regions != 1
      ensures batches[q].keys + KeysFor(c, keys, q) == batches[q].keys {
      if KeysFor(c, keys, q) != [] { SomeIn(KeysFor(c, keys, q)); }
    }
  }

  lemma SomeIn(ks: seq<Key>)
    requires ks != []
    ensures exists k :: k in ks
  {
    assert ks[0] in ks;
  }

  lemma WithOneMore(c: Config, p: nat, keys: seq<KeyInfo>, e: KeyInfo, batches: seq<Batch>)
    requires c.part(e.key) < |batches|
    ensures var q := c.part(e.key); var was := WithKeys(c, p, keys, batches);
      WithKeys(c, p, keys + [e], batches) ==
        if Remote(c, p, e.key) then was[q := was[q].(keys := was[q].keys + [e.key])] else was
  {
    var q := c.part(e.key);
    var was, now := WithKeys(c, p, keys, batches), WithKeys(c, p, keys + [e], batches);
    assert (keys + [e])[..|keys|] == keys;
    forall r | 0 <= r < |batches|
      ensures now[r] == if r == q && Remote(c, p, e.key) then was[r].(keys := was[r].keys + [e.key]) else was[r]
    {
      assert KeysFor(c, keys + [e], r) == KeysFor(c, keys, r) + if q == r then [e.key] else [];
      assert batches[r].keys + (KeysFor(c, keys, r) + [e.key]) == batches[r].keys + KeysFor(c, keys, r) + [e.key];
    }
  }

  lemma EnlistSplit(c: Config, p: nat, txn: RoutedTxn, batches: seq<Batch>)
    requires c.regions != 1
    ensures WithId(c, p, txn, WithKeys(c, p, txn.keys, batches), |batches|) == Enlist(c, p, txn, batches)
  {
    forall q | 0 <= q < |batches| ensures batches[q].ids + [] == batches[q].ids {}
  }

  lemma NoRequests(p: nat)
    ensures Requests(p, []) == multiset{}
  {
  }

  lemma RequestsPush(p: nat, batches: seq<Batch>, q: nat)
    requires q < |batches|
    ensures Requests(p, batches[..q + 1]) == Requests(p, batches[..q]) +
      if batches[q].ids == [] then multiset{} else multiset{Lookup(p, q, batches[q].keys, batches[q].ids)}
  {
    assert batches[..q + 1][..q] == batches[..q];
  }

  class Forwarder {
    const c: Config
    const local: nat
    var pending: map<nat, RoutedTxn>
    var batches: seq<Batch>
    var size: nat
    var timers: nat

    constructor (c: Config, local: nat)
      requires ValidConfig(c) && local < c.partitions
      ensures Ready() && this.c == c && this.local == local && View() == Init(c).nodes[local]
    {
      this.c, this.local := c, local;
      pending, batches, size, timers := map[], seq(c.partitions, _ => Batch([], [])), 0, 0;
    }

    ghost predicate Ready()
      reads this
    {
      ValidConfig(c) && local < c.partitions && |batches| == c.partitions
    }

    ghost function View(): Node
      reads this
    {
      Node(pending, batches, size, timers)
    }

    method AddKeys(txn: RoutedTxn, lookup: Key -> Meta) returns (keys: seq<KeyInfo>, needRemote: bool)
      requires Ready()
      modifies this`batches
      ensures batches == WithKeys(c, local, txn.keys, old(batches))
      ensures keys == ResolveAll(c, local, lookup, txn.keys) && needRemote == AnyRemote(c, local, txn.keys)
    {
      hide WithKeys;
      keys, needRemote := [], false;
      ghost var before := batches;
      NoKeys(c, local, [], before);
      for i := 0 to |txn.keys|
        invariant |batches| == c.partitions && batches == WithKeys(c, local, txn.keys[..i], before)
        invariant keys == ResolveAll(c, local, lookup, txn.keys[..i]) &&
          needRemote == AnyRemote(c, local, txn.keys[..i])
      {
        var e := txn.keys[i];
        assert txn.keys[..i + 1] == txn.keys[..i] + [e];
        WithOneMore(c, local, txn.keys[..i], e, before);
        var q := c.part(e.key);
        if c.regions == 1 {
          keys := keys + [e.(meta := Some(Meta(0, 0)))];
        } else if q == local {
          keys := keys + [e.(meta := Some(lookup(e.key)))];
        } else {
          batches := batches[q := batches[q].(keys := batches[q].keys + [e.key])];
          keys, needRemote := keys + [e], true;
        }
      }
      assert txn.keys[..|txn.keys|] == txn.keys;
    }

    method AddId(txn: RoutedTxn)
      requires Ready()
      modifies this`batches
      ensures batches == WithId(c, local, txn, old(batches), c.partitions)
    {
      var involved := InvolvedPartitions(c, txn.keys);
      ghost var before := batches;
      for q := 0 to c.partitions
        invariant |batches| == c.partitions && batches == WithId(c, local, txn, before, q)
      {
        if involved[q] && q != local {
          batches := batches[q := batches[q].(ids := batches[q].ids + [txn.id])];
        }
      }
    }

    method ProcessForwardTxn(txn: RoutedTxn, lookup: Key -> Meta) returns (out: seq<RoutedTxn>)
      requires Ready()
      modifies this
      ensures Ready() && (View(), out) == OnTxn(c, local, old(View()), txn, lookup)
    {
      var keys, needRemote := AddKeys(txn, lookup);
      var t := txn.(keys := keys);
      ghost var was := old(batches);
      if !needRemote {
        NoKeys(c, local, txn.keys, was);
        var kind, _ := SetTransactionType(keys);
        out := if kind == Unknown then [] else [t];
        return;
      }
      AddId(txn);
      EnlistSplit(c, local, txn, was);
      pending := pending[txn.id := t];
      size := size + 1;
      if size == 1 { timers := timers + 1; }
      out := [];
    }

    /** Sends the batches that name a transaction; the callback that runs this is used up. */
    method SendLookupMasterRequestBatch() returns (out: multiset<Msg>)
      requires Ready() && timers > 0
      modifies this
      ensures Ready() && (View(), out) == OnTimer(local, old(View()))
    {
      hide Requests;
      ghost var was := View();
      out := SendBatches();
      size, timers := 0, timers - 1;
      assert View().batches == OnTimer(local, was).0.batches;
    }

    method SendBatches() returns (out: multiset<Msg>)
      requires Ready()
      modifies this`batches
      ensures Ready() && out == Requests(local, old(batches))
      ensures batches == seq(|old(batches)|, q requires 0 <= q < |old(batches)| => Cleared(old(batches)[q]))
    {
      hide Requests;
      out := multiset{};
      ghost var before := batches;
      NoRequests(local);
      for q := 0 to c.partitions
        invariant Ready() && out == Requests(local, before[..q])
        invariant forall r :: 0 <= r < |batches| ==> batches[r] == if r < q then Cleared(before[r]) else before[r]
      {
        RequestsPush(local, before, q);
        if batches[q].ids != [] {
          out := out + multiset{Lookup(local, q, batches[q].keys, batches[q].ids)};
          batches := batches[q := Batch([], [])];
        }
      }
      assert before[..c.partitions] == before;
    }

    method ProcessLookUpMasterRequest(m: Msg, lookup: Key -> Meta) returns (answer: Msg)
      requires m.Lookup?
      ensures answer == OnLookup(c, local, m, lookup)
    {
      var results := [];
      for i := 0 to |m.keys|
        invariant results == Answers(c, local, lookup, m.keys[..i])
      {
        assert m.keys[..i + 1][..i] == m.keys[..i];
        var key := m.keys[i];
        if c.part(key) == local { results := results + [(key, lookup(key))]; }
      }
      assert m.keys[..|m.keys|] == m.keys;
      answer := Found(local, m.from, m.ids, results);
    }

    method UpdateMasterInfo(m: Msg) returns (out: seq<RoutedTxn>)
      requires m.Found?
      modifies this`pending
      ensures (View(), out) == OnFound(old(View()), m)
    {
      var index: map<Key, Meta> := map[];
      for i := 0 to |m.results|
        invariant index == Index(m.results[..i])
      {
        assert m.results[..i + 1][..i] == m.results[..i];
        index := index[m.results[i].0 := m.results[i].1];
      }
      assert m.results[..|m.results|] == m.results;
      out := [];
      for i := 0 to |m.ids|
        invariant (pending, out) == UpdateAll(old(pending), index, m.ids[..i])
      {
        assert m.ids[..i + 1][..i] == m.ids[..i];
        var more := UpdateTxn(m.ids[i], index);
        out := out + more;
      }
      assert m.ids[..|m.ids|] == m.ids;
    }

    method UpdateTxn(id: nat, index: map<Key, Meta>) returns (out: seq<RoutedTxn>)
      modifies this`pending
      ensures (pending, out) == Update(old(pending), index, id)
    {
      if id !in pending { return []; }
      var keys := pending[id].keys;
      for i := 0 to |keys|
        invariant |keys| == |pending[id].keys|
        invariant forall j ::
          0 <= j < |keys| ==> keys[j] == if j < i then Fill(index, pending[id].keys[j]) else pending[id].keys[j]
      {
        if keys[i].meta.None? && keys[i].key in index {
          keys := keys[i := keys[i].(meta := Some(index[keys[i].key]))];
        }
      }
      assert keys == FillAll(index, pending[id].keys);
      var t := pending[id].(keys := keys);
      var kind, _ := SetTransactionType(keys);
      if kind == Unknown {
        pending, out := pending[id := t], [];
      } else {
        pending, out := pending - {id}, [t];
      }
    }
  }
}
