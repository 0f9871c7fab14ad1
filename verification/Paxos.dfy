/** The stable-leader Multi-Paxos of paxos/leader.cpp and paxos/acceptor.cpp, as a step
    system over a network that delivers each message once, in any order. */
module Paxos {
  import opened Ids

  /** Members of one Paxos group. The leader is the first acceptor and never changes. */
  datatype Config = Config(machines: set<Machine>, acceptors: set<Machine>, learners: set<Machine>, leader: Machine)

  ghost predicate ValidConfig(c: Config) {
    && c.acceptors <= c.machines && c.learners <= c.machines && c.leader in c.acceptors
  }

  function Majority(c: Config): nat {
    |c.acceptors| / 2 + 1
  }

  datatype Msg<V> =
    | Propose(from: Machine, to: Machine, value: V)
    | Accept(from: Machine, to: Machine, ballot: nat, slot: nat, value: V)
    | Accepted(from: Machine, to: Machine, ballot: nat, slot: nat)
    | Commit(from: Machine, to: Machine, slot: nat, value: V, leader: Machine)
    | Committed(from: Machine, to: Machine, slot: nat)

  datatype Instance<V> = Instance(ballot: nat, value: V, accepts: nat, commits: nat)

  /** The Leader and the Acceptor object of one machine: next empty slot, open instances,
      and the acceptor's ballot. */
  datatype Proc<V> = Proc(next: nat, instances: map<nat, Instance<V>>, ballot: nat)

  function Offers<V(==, !new)>(c: Config, me: Machine, slot: nat, value: V): (r: multiset<Msg<V>>)
    ensures forall m ::
      r[m] == if m.Accept? && m.to in c.acceptors && m == Accept(me, m.to, 0, slot, value) then 1 else 0
  {
    multiset(set a | a in c.acceptors :: Accept(me, a, 0, slot, value))
  }

  function Broadcast<V(==, !new)>(c: Config, me: Machine, slot: nat, value: V): (r: multiset<Msg<V>>)
    ensures forall m ::
      r[m] == if m.Commit? && m.to in c.learners && m == Commit(me, m.to, slot, value, me) then 1 else 0
  {
    multiset(set l | l in c.learners :: Commit(me, l, slot, value, me))
  }

  // ---------------------------------------------------------------------
  // Handlers
  // ---------------------------------------------------------------------

  /** Leader::StartNewInstance */
  function StartNewInstance<V(==, !new)>(c: Config, me: Machine, p: Proc<V>, value: V): (Proc<V>, multiset<Msg<V>>) {
    var k := p.next;
    var instances' := if k in p.instances then p.instances else p.instances[k := Instance(0, value, 0, 0)];
    (p.(next := k + 1, instances := instances'), Offers(c, me, k, value))
  }

  /** Leader::HandleRequest and Acceptor::HandleRequest on a proposal */
  function OnPropose<V(==, !new)>(c: Config, me: Machine, p: Proc<V>, value: V): (Proc<V>, multiset<Msg<V>>) {
    if me == c.leader then StartNewInstance(c, me, p, value)
    else (p, multiset{Propose(me, c.leader, value)})
  }

  /** Acceptor::ProcessAcceptRequest */
  function OnAccept<V(==, !new)>(me: Machine, p: Proc<V>, from: Machine, ballot: nat, slot: nat): (Proc<V>,
      multiset<Msg<V>>) {
    if ballot < p.ballot then (p, multiset{})
    else (p.(ballot := ballot), multiset{Accepted(me, from, ballot, slot)})
  }

  /** Leader::ProcessCommitRequest and Acceptor::ProcessCommitRequest */
  function OnCommit<V(==, !new)>(me: Machine, p: Proc<V>, from: Machine, slot: nat): (Proc<V>, multiset<Msg<V>>) {
    (p.(next := if slot >= p.next then slot + 1 else p.next), multiset{Committed(me, from, slot)})
  }

  /** Leader::HandleResponse on an accept response */
  function OnAccepted<V(==, !new)>(c: Config, me: Machine, p: Proc<V>, slot: nat): (Proc<V>, multiset<Msg<V>>) {
    if slot !in p.instances then (p, multiset{})
    else
      var i := p.instances[slot].(accepts := p.instances[slot].accepts + 1);
      (p.(instances := p.instances[slot := i]),
       if i.accepts == Majority(c) then Broadcast(c, me, slot, i.value) else multiset{})
  }

  /** Leader::HandleResponse on a commit response. The original reads the slot of the absent
      accept response, which is 0 whatever slot was committed. */
  function OnCommitted<V(==, !new)>(c: Config, p: Proc<V>): Proc<V> {
    if 0 !in p.instances then p
    else
      var i := p.instances[0].(commits := p.instances[0].commits + 1);
      p.(instances := if i.commits == |c.acceptors| then p.instances - {0} else p.instances[0 := i])
  }

  function Handle<V(==, !new)>(c: Config, p: Proc<V>, m: Msg<V>): (Proc<V>, multiset<Msg<V>>) {
    match m
    case Propose(_, me, value) => OnPropose(c, me, p, value)
    case Accept(from, me, ballot, slot, _) => OnAccept(me, p, from, ballot, slot)
    case Accepted(_, me, _, slot) => OnAccepted(c, me, p, slot)
    case Commit(from, me, slot, _, _) => OnCommit(me, p, from, slot)
    case Committed(_, _, _) => (OnCommitted(c, p), multiset{})
  }

  // ---------------------------------------------------------------------
  // The step system
  // ---------------------------------------------------------------------

  /** `sent` and `delivered` record every message; the network holds the difference. `log` is
      the sequence of values the leader gave slots to, `committed` the slots it broadcast. */
  datatype State<V(==, !new)> = State(
    procs: map<Machine, Proc<V>>,
    sent: multiset<Msg<V>>,
    delivered: multiset<Msg<V>>,
    log: seq<V>,
    committed: set<nat>)

  function Init<V(==, !new)>(c: Config): State<V> {
    State(map m | m in c.machines :: Proc(0, map[], 0), multiset{}, multiset{}, [], {})
  }

  function Submit<V(==, !new)>(s: State<V>, at: Machine, value: V): State<V> {
    s.(sent := s.sent + multiset{Propose(at, at, value)})
  }

  predicate InFlight<V(==, !new)>(s: State<V>, m: Msg<V>) {
    s.delivered[m] < s.sent[m]
  }

  /** The accept response that completes a majority. */
  predicate Completes<V(==, !new)>(c: Config, s: State<V>, m: Msg<V>)
    requires m.to in s.procs
  {
    && m.Accepted? && m.slot in s.procs[m.to].instances
    && s.procs[m.to].instances[m.slot].accepts + 1 == Majority(c)
  }

  function Deliver<V(==, !new)>(c: Config, s: State<V>, m: Msg<V>): State<V>
    requires m.to in s.procs
  {
    var (p, out) := Handle(c, s.procs[m.to], m);
    State(s.procs[m.to := p], s.sent + out, s.delivered + multiset{m},
          if m.Propose? && m.to == c.leader then s.log + [m.value] else s.log,
          if Completes(c, s, m) then s.committed + {m.slot} else s.committed)
  }

  /** A client submits a value at some machine, or the network delivers one message. */
  datatype Event<V> = EvSubmit(at: Machine, value: V) | EvDeliver(m: Msg<V>)

  ghost predicate Enabled<V(!new)>(c: Config, s: State<V>, e: Event<V>) {
    match e
    case EvSubmit(at, _) => at in c.machines
    case EvDeliver(m) => m.to in s.procs && InFlight(s, m)
  }

  function Step<V(==, !new)>(c: Config, s: State<V>, e: Event<V>): State<V>
    requires e.EvDeliver? ==> e.m.to in s.procs
  {
    match e
    case EvSubmit(at, value) => Submit(s, at, value)
    case EvDeliver(m) => Deliver(c, s, m)
  }

  // ---------------------------------------------------------------------
  // Invariants
  // ---------------------------------------------------------------------

  /** Acceptors whose accept response for the slot reached the leader. */
  ghost function Acks<V(!new)>(c: Config, delivered: multiset<Msg<V>>, slot: nat): set<Machine> {
    set a | a in c.acceptors && Accepted(a, c.leader, 0, slot) in delivered
  }

  ghost predicate GoodMsg<V(!new)>(c: Config, log: seq<V>, m: Msg<V>) {
    match m
    case Propose(_, to, _) => to in c.machines
    case Accept(from, to, ballot, slot, value) =>
      from == c.leader && to in c.acceptors && ballot == 0 && slot < |log| && value == log[slot]
    case Accepted(from, to, ballot, slot) =>
      from in c.acceptors && to == c.leader && ballot == 0 && slot < |log|
    case Commit(from, to, slot, value, leader) =>
      from == c.leader && to in c.learners && leader == c.leader && slot < |log| && value == log[slot]
    case Committed(_, to, _) => to == c.leader
  }

  ghost predicate MsgsGood<V(!new)>(c: Config, log: seq<V>, sent: multiset<Msg<V>>) {
    forall m :: m in sent ==> GoodMsg(c, log, m)
  }

  /** Each open slot was offered to each acceptor exactly once, and answered once per offer delivered. */
  ghost predicate OffersOnce<V(!new)>(c: Config, log: seq<V>, sent: multiset<Msg<V>>, delivered: multiset<Msg<V>>) {
    forall a, k :: a in c.acceptors && 0 <= k < |log| ==>
      && sent[Accept(c.leader, a, 0, k, log[k])] == 1
      && sent[Accepted(a, c.leader, 0, k)] == delivered[Accept(c.leader, a, 0, k, log[k])]
  }

  /** Each committed slot was broadcast to each learner exactly once, other slots never. */
  ghost predicate BroadcastOnce<V(!new)>(c: Config, log: seq<V>, sent: multiset<Msg<V>>, committed: set<nat>) {
    forall l, k :: l in c.learners && 0 <= k < |log| ==>
      sent[Commit(c.leader, l, k, log[k], c.leader)] == if k in committed then 1 else 0
  }

  /** The leader's accept counters count distinct acceptors, and slots other than 0 stay open. */
  ghost predicate InstancesGood<V(!new)>(c: Config, log: seq<V>, delivered: multiset<Msg<V>>, committed: set<nat>,
      instances: map<nat, Instance<V>>) {
    && (forall k :: k in instances ==>
          && k < |log| && instances[k].value == log[k]
          && instances[k].accepts == |Acks(c, delivered, k)|
          && (k in committed <==> Majority(c) <= instances[k].accepts))
    && (forall k :: 0 < k < |log| ==> k in instances)
  }

  ghost predicate CommittedGood<V(!new)>(c: Config, log: seq<V>, delivered: multiset<Msg<V>>, committed: set<nat>) {
    forall k :: k in committed ==> k < |log| && Majority(c) <= |Acks(c, delivered, k)|
  }

  ghost predicate ProcsGood<V>(c: Config, procs: map<Machine, Proc<V>>, next: nat) {
    && procs.Keys == c.machines && c.leader in procs
    && procs[c.leader].next == next
    && (forall a :: a in procs ==> procs[a].ballot == 0)
  }

  ghost predicate Inv<V(!new)>(c: Config, s: State<V>) {
    && ProcsGood(c, s.procs, |s.log|)
    && s.delivered <= s.sent
    && MsgsGood(c, s.log, s.sent)
    && OffersOnce(c, s.log, s.sent, s.delivered)
    && BroadcastOnce(c, s.log, s.sent, s.committed)
    && InstancesGood(c, s.log, s.delivered, s.committed, s.procs[c.leader].instances)
    && CommittedGood(c, s.log, s.delivered, s.committed)
  }

  lemma InitInv<V(!new)>(c: Config)
    requires ValidConfig(c)
    ensures Inv<V>(c, Init(c))
  {
  }

  // One lemma per invariant and kind of change, so that each proof sees only what it is about.

  lemma MsgsMore<V(!new)>(c: Config, log: seq<V>, sent: multiset<Msg<V>>, out: multiset<Msg<V>>)
    requires MsgsGood(c, log, sent) && MsgsGood(c, log, out)
    ensures MsgsGood(c, log, sent + out)
  {
  }

  lemma MsgsLonger<V(!new)>(c: Config, log: seq<V>, sent: multiset<Msg<V>>, value: V)
    requires MsgsGood(c, log, sent)
    ensures MsgsGood(c, log + [value], sent)
  {
  }

  /** Traffic other than offers and their answers. */
  lemma OffersFrame<V(!new)>(c: Config, log: seq<V>, sent: multiset<Msg<V>>, delivered: multiset<Msg<V>>,
      out: multiset<Msg<V>>, m: Msg<V>)
    requires OffersOnce(c, log, sent, delivered)
    requires !m.Accept? && forall x :: x in out ==> !x.Accept? && !x.Accepted?
    ensures OffersOnce(c, log, sent + out, delivered + multiset{m})
  {
    forall a, k | a in c.acceptors && 0 <= k < |log|
      ensures (sent + out)[Accept(c.leader, a, 0, k, log[k])] == 1
      ensures (sent + out)[Accepted(a, c.leader, 0, k)] == (delivered + multiset{m})[Accept(c.leader, a, 0, k, log[k])]
    {
      assert Accept(c.leader, a, 0, k, log[k]) !in out && Accepted(a, c.leader, 0, k) !in out;
    }
  }

  lemma OffersOpened<V(!new)>(c: Config, log: seq<V>, sent: multiset<Msg<V>>, delivered: multiset<Msg<V>>, value: V)
    requires OffersOnce(c, log, sent, delivered) && MsgsGood(c, log, sent) && delivered <= sent
    ensures OffersOnce(c, log + [value], sent + Offers(c, c.leader, |log|, value), delivered)
  {
    var n, log' := |log|, log + [value];
    var offers := Offers(c, c.leader, n, value);
    forall a, k | a in c.acceptors && 0 <= k < |log'|
      ensures (sent + offers)[Accept(c.leader, a, 0, k, log'[k])] == 1
      ensures (sent + offers)[Accepted(a, c.leader, 0, k)] == delivered[Accept(c.leader, a, 0, k, log'[k])]
    {
      var offer, answer := Accept(c.leader, a, 0, k, log'[k]), Accepted(a, c.leader, 0, k);
      assert k == n ==> !GoodMsg(c, log, offer) && !GoodMsg<V>(c, log, answer);
      assert k == n ==> offer !in delivered;
    }
  }

  lemma OfferAnswered<V(!new)>(c: Config, log: seq<V>, sent: multiset<Msg<V>>, delivered: multiset<Msg<V>>, m: Msg<V>)
    requires OffersOnce(c, log, sent, delivered)
    requires m.Accept? && GoodMsg(c, log, m)
    ensures OffersOnce(c, log, sent + multiset{Accepted(m.to, c.leader, 0, m.slot)}, delivered + multiset{m})
  {
  }

  lemma BroadcastFrame<V(!new)>(c: Config, log: seq<V>, sent: multiset<Msg<V>>, committed: set<nat>,
      out: multiset<Msg<V>>)
    requires BroadcastOnce(c, log, sent, committed)
    requires forall x :: x in out ==> !x.Commit?
    ensures BroadcastOnce(c, log, sent + out, committed)
  {
    forall l, k | l in c.learners && 0 <= k < |log|
      ensures (sent + out)[Commit(c.leader, l, k, log[k], c.leader)] == if k in committed then 1 else 0
    {
      assert Commit(c.leader, l, k, log[k], c.leader) !in out;
    }
  }

  lemma BroadcastOpened<V(!new)>(c: Config, log: seq<V>, sent: multiset<Msg<V>>, committed: set<nat>, value: V)
    requires BroadcastOnce(c, log, sent, committed) && MsgsGood(c, log, sent) && |log| !in committed
    ensures BroadcastOnce(c, log + [value], sent, committed)
  {
    forall l, k | l in c.learners && 0 <= k < |log| + 1
      ensures sent[Commit(c.leader, l, k, (log + [value])[k], c.leader)] == if k in committed then 1 else 0
    {
      assert k == |log| ==> !GoodMsg(c, log, Commit(c.leader, l, k, value, c.leader));
    }
  }

  lemma BroadcastMore<V(!new)>(c: Config, log: seq<V>, sent: multiset<Msg<V>>, committed: set<nat>, slot: nat)
    requires BroadcastOnce(c, log, sent, committed) && slot !in committed && slot < |log|
    ensures BroadcastOnce(c, log, sent + Broadcast(c, c.leader, slot, log[slot]), committed + {slot})
  {
  }

  lemma AcksFrame<V(!new)>(c: Config, delivered: multiset<Msg<V>>, m: Msg<V>, slot: nat)
    requires !m.Accepted? || m.slot != slot
    ensures Acks(c, delivered + multiset{m}, slot) == Acks(c, delivered, slot)
  {
  }

  lemma AcksMore<V(!new)>(c: Config, delivered: multiset<Msg<V>>, a: Machine, slot: nat)
    requires a in c.acceptors
    ensures Acks(c, delivered + multiset{Accepted(a, c.leader, 0, slot)}, slot) == Acks(c, delivered, slot) + {a}
    ensures |Acks(c, delivered, slot)| <= |Acks(c, delivered + multiset{Accepted(a, c.leader, 0, slot)}, slot)|
    ensures Accepted(a, c.leader, 0, slot) !in delivered ==>
              |Acks(c, delivered + multiset{Accepted(a, c.leader, 0, slot)}, slot)| == |Acks(c, delivered, slot)| + 1
  {
    var acks := Acks(c, delivered, slot);
    assert Acks(c, delivered + multiset{Accepted(a, c.leader, 0, slot)}, slot) == acks + {a};
    assert a in acks ==> acks + {a} == acks;
  }

  lemma InstancesFrame<V(!new)>(c: Config, log: seq<V>, delivered: multiset<Msg<V>>, committed: set<nat>,
      instances: map<nat, Instance<V>>, m: Msg<V>)
    requires InstancesGood(c, log, delivered, committed, instances) && CommittedGood(c, log, delivered, committed) &&
      !m.Accepted?
    ensures InstancesGood(c, log, delivered + multiset{m}, committed, instances)
    ensures CommittedGood(c, log, delivered + multiset{m}, committed)
  {
    forall k: nat
      ensures Acks(c, delivered + multiset{m}, k) == Acks(c, delivered, k)
    {
      AcksFrame(c, delivered, m, k);
    }
  }

  /** No acceptor answered for a slot that was never offered. */
  lemma NoAcksYet<V(!new)>(c: Config, log: seq<V>, sent: multiset<Msg<V>>, delivered: multiset<Msg<V>>)
    requires MsgsGood(c, log, sent) && delivered <= sent
    ensures Acks(c, delivered, |log|) == {}
  {
    forall a | a in c.acceptors
      ensures Accepted(a, c.leader, 0, |log|) !in delivered
    {
      var m: Msg<V> := Accepted(a, c.leader, 0, |log|);
      assert !GoodMsg(c, log, m) && delivered[m] <= sent[m];
    }
  }

  lemma SubmitInv<V(!new)>(c: Config, s: State<V>, at: Machine, value: V)
    requires Inv(c, s) && at in c.machines
    ensures Inv(c, Submit(s, at, value))
  {
    hide OffersOnce, BroadcastOnce, InstancesGood, CommittedGood;
    var out: multiset<Msg<V>> := multiset{Propose(at, at, value)};
    assert OffersOnce(c, s.log, s.sent + out, s.delivered) by { OffersSent(c, s.log, s.sent, s.delivered, out); }
    BroadcastFrame(c, s.log, s.sent, s.committed, out);
  }

  lemma OffersSent<V(!new)>(c: Config, log: seq<V>, sent: multiset<Msg<V>>, delivered: multiset<Msg<V>>,
      out: multiset<Msg<V>>)
    requires OffersOnce(c, log, sent, delivered)
    requires forall x :: x in out ==> !x.Accept? && !x.Accepted?
    ensures OffersOnce(c, log, sent + out, delivered)
  {
    forall a, k | a in c.acceptors && 0 <= k < |log|
      ensures (sent + out)[Accept(c.leader, a, 0, k, log[k])] == 1
      ensures (sent + out)[Accepted(a, c.leader, 0, k)] == delivered[Accept(c.leader, a, 0, k, log[k])]
    {
      assert Accept(c.leader, a, 0, k, log[k]) !in out && Accepted(a, c.leader, 0, k) !in out;
    }
  }

  lemma DeliverForward<V(!new)>(c: Config, s: State<V>, m: Msg<V>)
    requires ValidConfig(c) && Inv(c, s) && m.to in s.procs && InFlight(s, m) && m.Propose? && m.to != c.leader
    ensures Inv(c, Deliver(c, s, m))
  {
    hide OffersOnce, BroadcastOnce, InstancesGood, CommittedGood;
    var out := multiset{Propose(m.to, c.leader, m.value)};
    OffersFrame(c, s.log, s.sent, s.delivered, out, m);
    BroadcastFrame(c, s.log, s.sent, s.committed, out);
    InstancesFrame(c, s.log, s.delivered, s.committed, s.procs[c.leader].instances, m);
  }

  lemma InstancesOpened<V(!new)>(c: Config, log: seq<V>, delivered: multiset<Msg<V>>, committed: set<nat>,
      instances: map<nat, Instance<V>>, value: V)
    requires InstancesGood(c, log, delivered, committed, instances) && CommittedGood(c, log, delivered, committed)
    requires Acks(c, delivered, |log|) == {}
    ensures |log| !in instances && |log| !in committed
    ensures InstancesGood(c, log + [value], delivered, committed, instances[|log| := Instance(0, value, 0, 0)])
    ensures CommittedGood(c, log + [value], delivered, committed)
  {
  }

  lemma DeliverOpen<V(!new)>(c: Config, s: State<V>, m: Msg<V>)
    requires ValidConfig(c) && Inv(c, s) && m.to in s.procs && InFlight(s, m) && m.Propose? && m.to == c.leader
    ensures Inv(c, Deliver(c, s, m))
  {
    hide OffersOnce, BroadcastOnce, InstancesGood, CommittedGood;
    var n, log' := |s.log|, s.log + [m.value];
    var offers := Offers(c, c.leader, n, m.value);
    NoAcksYet(c, s.log, s.sent, s.delivered);
    InstancesOpened(c, s.log, s.delivered, s.committed, s.procs[c.leader].instances, m.value);
    var instances' := s.procs[c.leader].instances[n := Instance(0, m.value, 0, 0)];
    InstancesFrame(c, log', s.delivered, s.committed, instances', m);
    MsgsLonger(c, s.log, s.sent, m.value);
    OffersOpened(c, s.log, s.sent, s.delivered, m.value);
    OffersFrame(c, log', s.sent + offers, s.delivered, multiset{}, m);
    assert s.sent + offers + multiset{} == s.sent + offers;
    BroadcastOpened(c, s.log, s.sent, s.committed, m.value);
    BroadcastFrame(c, log', s.sent, s.committed, offers);
  }

  lemma DeliverAccept<V(!new)>(c: Config, s: State<V>, m: Msg<V>)
    requires ValidConfig(c) && Inv(c, s) && m.to in s.procs && InFlight(s, m) && m.Accept?
    ensures Inv(c, Deliver(c, s, m))
  {
    hide OffersOnce, BroadcastOnce, InstancesGood, CommittedGood;
    assert GoodMsg(c, s.log, m);
    var out := multiset{Accepted(m.to, c.leader, 0, m.slot)};
    OfferAnswered(c, s.log, s.sent, s.delivered, m);
    BroadcastFrame(c, s.log, s.sent, s.committed, out);
    InstancesFrame(c, s.log, s.delivered, s.committed, s.procs[c.leader].instances, m);
  }

  lemma DeliverCommit<V(!new)>(c: Config, s: State<V>, m: Msg<V>)
    requires ValidConfig(c) && Inv(c, s) && m.to in s.procs && InFlight(s, m) && m.Commit?
    ensures Inv(c, Deliver(c, s, m))
  {
    hide OffersOnce, BroadcastOnce, InstancesGood, CommittedGood;
    assert GoodMsg(c, s.log, m);
    var out := multiset{Committed(m.to, c.leader, m.slot)};
    OffersFrame(c, s.log, s.sent, s.delivered, out, m);
    BroadcastFrame(c, s.log, s.sent, s.committed, out);
    InstancesFrame(c, s.log, s.delivered, s.committed, s.procs[c.leader].instances, m);
  }

  /** Counting a commit response, or dropping instance 0, keeps what is known of the others. */
  lemma InstancesCounted<V(!new)>(c: Config, log: seq<V>, delivered: multiset<Msg<V>>, committed: set<nat>, p: Proc<V>)
    requires InstancesGood(c, log, delivered, committed, p.instances)
    ensures InstancesGood(c, log, delivered, committed, OnCommitted(c, p).instances)
  {
  }

  lemma DeliverCommitted<V(!new)>(c: Config, s: State<V>, m: Msg<V>)
    requires ValidConfig(c) && Inv(c, s) && m.to in s.procs && InFlight(s, m) && m.Committed?
    ensures Inv(c, Deliver(c, s, m))
  {
    hide OffersOnce, BroadcastOnce, InstancesGood, CommittedGood;
    assert GoodMsg(c, s.log, m);
    OffersFrame(c, s.log, s.sent, s.delivered, multiset{}, m);
    assert s.sent + multiset{} == s.sent;
    InstancesCounted(c, s.log, s.delivered, s.committed, s.procs[c.leader]);
    InstancesFrame(c, s.log, s.delivered, s.committed, OnCommitted(c, s.procs[c.leader]).instances, m);
  }

  /** The accept response of one more acceptor. */
  lemma FirstAnswer<V(!new)>(c: Config, log: seq<V>, sent: multiset<Msg<V>>, delivered: multiset<Msg<V>>, m: Msg<V>)
    requires OffersOnce(c, log, sent, delivered) && delivered <= sent
    requires m.Accepted? && GoodMsg(c, log, m) && delivered[m] < sent[m]
    ensures m !in delivered
  {
    var offer := Accept(c.leader, m.from, 0, m.slot, log[m.slot]);
    assert sent[offer] == 1 && sent[m] == delivered[offer] && delivered[offer] <= sent[offer];
  }

  lemma AcceptsCounted<V(!new)>(c: Config, log: seq<V>, delivered: multiset<Msg<V>>, committed: set<nat>,
      instances: map<nat, Instance<V>>, m: Msg<V>)
    requires InstancesGood(c, log, delivered, committed, instances) && CommittedGood(c, log, delivered, committed)
    requires m.Accepted? && GoodMsg(c, log, m) && m !in delivered
    ensures m.slot !in instances ==> InstancesGood(c, log, delivered + multiset{m}, committed, instances)
    ensures m.slot !in instances ==> CommittedGood(c, log, delivered + multiset{m}, committed)
    ensures m.slot in instances ==> instances[m.slot].value == log[m.slot]
    ensures m.slot in instances ==>
              var i := instances[m.slot].(accepts := instances[m.slot].accepts + 1);
              var committed' := if i.accepts == Majority(c) then committed + {m.slot} else committed;
              && InstancesGood(c, log, delivered + multiset{m}, committed', instances[m.slot := i])
              && CommittedGood(c, log, delivered + multiset{m}, committed')
              && (i.accepts == Majority(c) ==> m.slot !in committed)
  {
    AcksMore(c, delivered, m.from, m.slot);
    forall k: nat | k != m.slot
      ensures Acks(c, delivered + multiset{m}, k) == Acks(c, delivered, k)
    {
      AcksFrame(c, delivered, m, k);
    }
  }

  lemma BroadcastGood<V(!new)>(c: Config, log: seq<V>, slot: nat)
    requires slot < |log|
    ensures MsgsGood(c, log, Broadcast(c, c.leader, slot, log[slot]))
  {
  }

  lemma ProcsCounted<V(!new)>(c: Config, procs: map<Machine, Proc<V>>, next: nat, instances: map<nat, Instance<V>>)
    requires ProcsGood(c, procs, next)
    ensures ProcsGood(c, procs[c.leader := procs[c.leader].(instances := instances)], next)
  {
  }

  lemma DeliverCompleting<V(!new)>(c: Config, s: State<V>, m: Msg<V>)
    requires ValidConfig(c) && Inv(c, s) && m.to in s.procs && InFlight(s, m) && Completes(c, s, m)
    ensures Inv(c, Deliver(c, s, m))
  {
    assert GoodMsg(c, s.log, m);
    assert m.to == c.leader;
    hide OffersOnce, BroadcastOnce, CommittedGood, InstancesGood, MsgsGood, ProcsGood;
    ProcsCounted(c, s.procs, |s.log|, OnAccepted(c, c.leader, s.procs[c.leader], m.slot).0.instances);
    FirstAnswer(c, s.log, s.sent, s.delivered, m);
    AcceptsCounted(c, s.log, s.delivered, s.committed, s.procs[c.leader].instances, m);
    var out := Broadcast(c, c.leader, m.slot, s.log[m.slot]);
    OffersFrame(c, s.log, s.sent, s.delivered, out, m);
    BroadcastMore(c, s.log, s.sent, s.committed, m.slot);
    BroadcastGood(c, s.log, m.slot);
    MsgsMore(c, s.log, s.sent, out);
  }

  lemma DeliverAccepted<V(!new)>(c: Config, s: State<V>, m: Msg<V>)
    requires ValidConfig(c) && Inv(c, s) && m.to in s.procs && InFlight(s, m) && m.Accepted? && !Completes(c, s, m)
    ensures Inv(c, Deliver(c, s, m))
  {
    assert GoodMsg(c, s.log, m);
    assert m.to == c.leader;
    hide OffersOnce, BroadcastOnce, CommittedGood, InstancesGood, MsgsGood, ProcsGood;
    ProcsCounted(c, s.procs, |s.log|, OnAccepted(c, c.leader, s.procs[c.leader], m.slot).0.instances);
    FirstAnswer(c, s.log, s.sent, s.delivered, m);
    AcceptsCounted(c, s.log, s.delivered, s.committed, s.procs[c.leader].instances, m);
    OffersFrame(c, s.log, s.sent, s.delivered, multiset{}, m);
    assert s.sent + multiset{} == s.sent;
  }

  lemma StepInv<V(!new)>(c: Config, s: State<V>, e: Event<V>)
    requires ValidConfig(c) && Inv(c, s) && Enabled(c, s, e)
    ensures Inv(c, Step(c, s, e))
  {
    hide Inv;
    match e
    case EvSubmit(at, value) => SubmitInv(c, s, at, value);
    case EvDeliver(m) =>
      match m
      case Propose(_, to, _) => if to == c.leader { DeliverOpen(c, s, m); } else { DeliverForward(c, s, m); }
      case Accept(_, _, _, _, _) => DeliverAccept(c, s, m);
      case Accepted(_, _, _, _) => if Completes(c, s, m) { DeliverCompleting(c, s, m); }
      else { DeliverAccepted(c, s, m); }
      case Commit(_, _, _, _, _) => DeliverCommit(c, s, m);
      case Committed(_, _, _) => DeliverCommitted(c, s, m);
  }

  // ---------------------------------------------------------------------
  // Safety over every run
  // ---------------------------------------------------------------------

  /** A run: the initial state, and each state an enabled event away from the one before. */
  ghost predicate IsRun<V(!new)>(c: Config, states: seq<State<V>>, events: seq<Event<V>>) {
    && |states| == |events| + 1 && states[0] == Init(c)
    && (forall i ::
      0 <= i < |events| ==> Enabled(c, states[i], events[i]) && states[i + 1] == Step(c, states[i], events[i]))
  }

  lemma {:induction false} RunInv<V(!new)>(c: Config, states: seq<State<V>>, events: seq<Event<V>>, i: nat)
    requires ValidConfig(c) && IsRun(c, states, events) && i < |states|
    ensures Inv(c, states[i])
  {
    hide Inv, Enabled;
    if i == 0 {
      InitInv<V>(c);
    } else {
      RunInv(c, states, events, i - 1);
      StepInv(c, states[i - 1], events[i - 1]);
    }
  }

  /** What the leader decided never changes later in the run. */
  lemma {:induction false} LogGrows<V(!new)>(c: Config, states: seq<State<V>>, events: seq<Event<V>>, i: nat, j: nat)
    requires ValidConfig(c) && IsRun(c, states, events) && i <= j < |states|
    ensures states[i].log <= states[j].log && states[i].committed <= states[j].committed
    decreases j
  {
    if i < j {
      LogGrows(c, states, events, i, j - 1);
      assert states[j] == Step(c, states[j - 1], events[j - 1]);
    }
  }

  /** Agreement: two commits of one slot, reported to any learners at any two moments of a run,
      carry the same value and the same leader. */
  lemma OneValuePerSlot<V(!new)>(c: Config, states: seq<State<V>>, events: seq<Event<V>>, i: nat, j: nat, m1: Msg<V>,
      m2: Msg<V>)
    requires ValidConfig(c) && IsRun(c, states, events) && i < |states| && j < |states|
    requires m1 in states[i].sent && m1.Commit? && m2 in states[j].sent && m2.Commit? && m1.slot == m2.slot
    ensures m1.value == m2.value && m1.leader == m2.leader
  {
    RunInv(c, states, events, i);
    RunInv(c, states, events, j);
    assert GoodMsg(c, states[i].log, m1) && GoodMsg(c, states[j].log, m2);
    if i <= j {
      LogGrows(c, states, events, i, j);
    } else {
      LogGrows(c, states, events, j, i);
    }
  }

  /** A slot is broadcast to a learner at most once, and only after accept responses of a
      majority of distinct acceptors were counted. */
  lemma CommitNeedsMajority<V(!new)>(c: Config, states: seq<State<V>>, events: seq<Event<V>>, i: nat, m: Msg<V>)
    requires ValidConfig(c) && IsRun(c, states, events) && i < |states| && m in states[i].sent && m.Commit?
    ensures states[i].sent[m] == 1
    ensures 2 * |Acks(c, states[i].delivered, m.slot)| > |c.acceptors|
    ensures forall a :: a in Acks(c, states[i].delivered, m.slot) ==>
              a in c.acceptors && Accept(c.leader, a, 0, m.slot, m.value) in states[i].delivered
  {
    RunInv(c, states, events, i);
    var s := states[i];
    assert GoodMsg(c, s.log, m);
    assert m.slot in s.committed;
    forall a | a in Acks(c, s.delivered, m.slot)
      ensures Accept(c.leader, a, 0, m.slot, m.value) in s.delivered
    {
      var answer: Msg<V> := Accepted(a, c.leader, 0, m.slot);
      assert answer in s.delivered && s.delivered[answer] <= s.sent[answer];
    }
  }

  /** Slots are handed out without gaps, one per proposal the leader handles, and neither a
      commit nor anything else moves the leader's next empty slot. */
  lemma SlotsGapFree<V(!new)>(c: Config, states: seq<State<V>>, events: seq<Event<V>>, i: nat)
    requires ValidConfig(c) && IsRun(c, states, events) && i < |events|
    ensures c.leader in states[i].procs && c.leader in states[i + 1].procs
    ensures var opens := events[i].EvDeliver? && events[i].m.Propose? && events[i].m.to == c.leader;
            && states[i].procs[c.leader].next == |states[i].log|
            && states[i + 1].procs[c.leader].next == states[i].procs[c.leader].next + (if opens then 1 else 0)
            && states[i + 1].log == states[i].log + (if opens then [events[i].m.value] else [])
  {
    RunInv(c, states, events, i);
    RunInv(c, states, events, i + 1);
    assert states[i + 1] == Step(c, states[i], events[i]);
    assert states[i].log + [] == states[i].log;
  }

  // ---------------------------------------------------------------------
  // What a machine other than the leader knows
  // ---------------------------------------------------------------------

  /** The next empty slot of a machine lies just above the highest commit it has received. */
  ghost predicate NextAbove<V(!new)>(delivered: multiset<Msg<V>>, a: Machine, next: nat) {
    && (forall m :: m in delivered && m.Commit? && m.to == a ==> m.slot < next)
    && (next > 0 ==> exists m :: m in delivered && m.Commit? && m.to == a && m.slot == next - 1)
  }

  lemma NextStep<V(!new)>(c: Config, s: State<V>, e: Event<V>, a: Machine)
    requires ValidConfig(c) && Enabled(c, s, e) && a in s.procs && a != c.leader
    requires NextAbove(s.delivered, a, s.procs[a].next)
    ensures a in Step(c, s, e).procs && NextAbove(Step(c, s, e).delivered, a, Step(c, s, e).procs[a].next)
  {
    hide Offers, Broadcast;
    if e.EvDeliver? {
      var more, next := s.delivered + multiset{e.m}, s.procs[a].next;
      forall m | m in s.delivered ensures m in more { }
      assert e.m in more;
    }
  }

  lemma {:induction false} NextIsHighest<V(!new)>(c: Config, states: seq<State<V>>, events: seq<Event<V>>, i: nat,
      a: Machine)
    requires ValidConfig(c) && IsRun(c, states, events) && i < |states| && a in c.machines && a != c.leader
    ensures a in states[i].procs && NextAbove(states[i].delivered, a, states[i].procs[a].next)
  {
    hide Enabled, Step, NextAbove;
    if i == 0 {
      assert NextAbove<V>(multiset{}, a, 0) by { NothingYet<V>(a); }
    } else {
      NextIsHighest(c, states, events, i - 1, a);
      NextStep(c, states[i - 1], events[i - 1], a);
    }
  }

  lemma NothingYet<V(!new)>(a: Machine)
    ensures NextAbove<V>(multiset{}, a, 0)
  {
  }

  /** The acceptor after accept requests with these ballots, and which of them it answered. */
  function Promises<V(==, !new)>(me: Machine, p: Proc<V>, from: Machine, ballots: seq<nat>): (Proc<V>, seq<bool>) {
    if ballots == [] then (p, [])
    else
      var n := |ballots| - 1;
      var (q, answered) := Promises(me, p, from, ballots[..n]);
      var (r, out) := OnAccept(me, q, from, ballots[n], n);
      (r, answered + [out != multiset{}])
  }

  /** Whatever ballots come, an acceptor keeps the highest and answers a request exactly if no
      higher one came before it. */
  lemma {:induction false} HighestBallot<V(!new)>(me: Machine, p: Proc<V>, from: Machine, ballots: seq<nat>)
    ensures var (q, answered) := Promises(me, p, from, ballots);
      && q == p.(ballot := q.ballot)
      && p.ballot <= q.ballot && (forall i :: 0 <= i < |ballots| ==> ballots[i] <= q.ballot)
      && (q.ballot == p.ballot || q.ballot in ballots)
      && |answered| == |ballots|
      && forall i :: 0 <= i < |ballots| ==>
           (answered[i] <==> p.ballot <= ballots[i] && forall j :: 0 <= j < i ==> ballots[j] <= ballots[i])
  {
    if ballots != [] {
      var n := |ballots| - 1;
      HighestBallot(me, p, from, ballots[..n]);
      var (q, answered) := Promises(me, p, from, ballots[..n]);
      var answer: Msg<V> := Accepted(me, from, ballots[n], n);
      assert answer in multiset{answer};
      assert forall i :: 0 <= i < n ==> ballots[..n][i] == ballots[i];
      assert q.ballot in ballots[..n] ==> q.ballot in ballots;
    }
  }
}
