/** What a drained network means for the Multi-Paxos of module Paxos. The leader counts every
    commit response on slot 0 (paxos/leader.cpp:81) and drops that instance after as many as
    there are acceptors, so slot 0 is a case of its own. */
module PaxosDrained {
  import opened Prelude
  import opened Ids
  import opened Paxos

  // ---------------------------------------------------------------------
  // Commit responses
  // ---------------------------------------------------------------------

  /** The commit responses that have reached the leader, for whatever slots. */
  ghost function Responses<V(!new)>(delivered: multiset<Msg<V>>): set<Msg<V>> {
    set m | m in delivered && m.Committed?
  }

  ghost predicate ResponsesGood<V(!new)>(c: Config, log: seq<V>, sent: multiset<Msg<V>>) {
    forall m :: m in sent && m.Committed? ==> m.from in c.learners && m.slot < |log|
  }

  /** Every commit that reaches a learner is answered once. */
  ghost predicate CommitsAnswered<V(!new)>(c: Config, log: seq<V>, sent: multiset<Msg<V>>,
      delivered: multiset<Msg<V>>) {
    forall l, k :: l in c.learners && 0 <= k < |log| ==>
      sent[Committed(l, c.leader, k)] == delivered[Commit(c.leader, l, k, log[k], c.leader)]
  }

  /** Instance 0 counts all of them and is open until there are as many as acceptors. */
  ghost predicate CountedOnZero<V(!new)>(c: Config, log: seq<V>, delivered: multiset<Msg<V>>,
      instances: map<nat, Instance<V>>) {
    log != [] ==>
      && (0 in instances <==> |Responses(delivered)| < |c.acceptors|)
      && (0 in instances ==> instances[0].commits == |Responses(delivered)|)
  }

  ghost predicate CommitInv<V(!new)>(c: Config, s: State<V>) {
    && c.leader in s.procs
    && ResponsesGood(c, s.log, s.sent)
    && CommitsAnswered(c, s.log, s.sent, s.delivered)
    && CountedOnZero(c, s.log, s.delivered, s.procs[c.leader].instances)
  }

  lemma InitCommitInv<V(!new)>(c: Config)
    requires ValidConfig(c)
    ensures CommitInv<V>(c, Init(c))
  {
  }

  /** Traffic without commits and their responses. */
  lemma CommitsFrame<V(!new)>(c: Config, log: seq<V>, sent: multiset<Msg<V>>, delivered: multiset<Msg<V>>,
                              out: multiset<Msg<V>>, more: multiset<Msg<V>>)
    requires CommitsAnswered(c, log, sent, delivered) && ResponsesGood(c, log, sent)
    requires (forall m :: m in out ==> !m.Committed?) && forall m :: m in more ==> !m.Commit?
    ensures CommitsAnswered(c, log, sent + out, delivered + more) && ResponsesGood(c, log, sent + out)
  {
    forall l, k | l in c.learners && 0 <= k < |log|
      ensures (sent + out)[Committed(l, c.leader, k)] == (delivered + more)[Commit(c.leader, l, k, log[k], c.leader)]
    {
      assert Committed(l, c.leader, k) !in out && Commit(c.leader, l, k, log[k], c.leader) !in more;
    }
  }

  lemma CommitsOpened<V(!new)>(c: Config, log: seq<V>, sent: multiset<Msg<V>>, delivered: multiset<Msg<V>>, value: V)
    requires CommitsAnswered(c, log, sent, delivered) && ResponsesGood(c, log, sent)
    requires MsgsGood(c, log, sent) && delivered <= sent
    ensures CommitsAnswered(c, log + [value], sent, delivered) && ResponsesGood(c, log + [value], sent)
  {
    forall l, k | l in c.learners && 0 <= k < |log| + 1
      ensures sent[Committed(l, c.leader, k)] == delivered[Commit(c.leader, l, k, (log + [value])[k], c.leader)]
    {
      if k == |log| {
        var commit := Commit(c.leader, l, k, value, c.leader);
        assert !GoodMsg(c, log, commit) && delivered[commit] <= sent[commit];
        assert Committed(l, c.leader, k) !in sent;
      }
    }
  }

  lemma CommitAnswered<V(!new)>(c: Config, log: seq<V>, sent: multiset<Msg<V>>, delivered: multiset<Msg<V>>, m: Msg<V>)
    requires CommitsAnswered(c, log, sent, delivered) && ResponsesGood(c, log, sent) && m.Commit? && GoodMsg(c, log, m)
    ensures CommitsAnswered(c, log, sent + multiset{Committed(m.to, m.from, m.slot)}, delivered + multiset{m})
    ensures ResponsesGood(c, log, sent + multiset{Committed(m.to, m.from, m.slot)})
  {
  }

  lemma ResponsesFrame<V(!new)>(delivered: multiset<Msg<V>>, m: Msg<V>)
    ensures Responses(delivered + multiset{m}) == if m.Committed? then Responses(delivered) + {m}
      else Responses(delivered)
  {
  }

  /** No response comes twice. */
  lemma FirstResponse<V(!new)>(c: Config, s: State<V>, m: Msg<V>)
    requires Inv(c, s) && CommitInv(c, s) && m.Committed? && InFlight(s, m)
    ensures m !in s.delivered && m.to == c.leader
  {
    assert GoodMsg(c, s.log, m);
    var commit := Commit(c.leader, m.from, m.slot, s.log[m.slot], c.leader);
    assert s.sent[m] == s.delivered[commit] <= s.sent[commit] <= 1;
  }

  /** Opening a slot, or counting an accept response, leaves the count on slot 0 alone. */
  lemma CountedFrame<V(!new)>(c: Config, log: seq<V>, delivered: multiset<Msg<V>>, instances: map<nat, Instance<V>>,
                              instances': map<nat, Instance<V>>, m: Msg<V>)
    requires CountedOnZero(c, log, delivered, instances) && !m.Committed?
    requires (0 in instances' <==> 0 in instances) && (0 in instances ==> instances'[0].commits == instances[0].commits)
    ensures CountedOnZero(c, log, delivered + multiset{m}, instances')
  {
    ResponsesFrame(delivered, m);
  }

  lemma CountedOpened<V(!new)>(c: Config, s: State<V>, m: Msg<V>)
    requires ValidConfig(c) && Inv(c, s) && CommitInv(c, s)
    requires m.Propose? && m.to == c.leader && m.to in s.procs
    ensures CountedOnZero(c, s.log + [m.value], s.delivered + multiset{m},
      StartNewInstance(c, c.leader, s.procs[c.leader], m.value).0.instances)
  {
    ResponsesFrame(s.delivered, m);
    var instances := s.procs[c.leader].instances;
    NoResponses(c, s);
    assert s.log == [] ==> 0 !in instances;
    assert c.leader in c.acceptors;
  }

  lemma StepCommitInv<V(!new)>(c: Config, s: State<V>, e: Event<V>)
    requires ValidConfig(c) && Inv(c, s) && CommitInv(c, s) && Enabled(c, s, e)
    ensures CommitInv(c, Step(c, s, e))
  {
    hide CountedOnZero, CommitsAnswered, ResponsesGood, OffersOnce, BroadcastOnce, InstancesGood, CommittedGood;
    match e
    case EvSubmit(at, value) =>
      CommitsFrame(c, s.log, s.sent, s.delivered, multiset{Propose(at, at, value)}, multiset{});
      assert s.delivered + multiset{} == s.delivered;
    case EvDeliver(m) =>
      assert GoodMsg(c, s.log, m);
      DeliverCommitInv(c, s, m);
  }

  lemma DeliverCommitInv<V(!new)>(c: Config, s: State<V>, m: Msg<V>)
    requires ValidConfig(c) && Inv(c, s) && CommitInv(c, s) && m.to in s.procs && InFlight(s, m) && GoodMsg(c, s.log, m)
    ensures CommitInv(c, Deliver(c, s, m))
  {
    hide CountedOnZero, CommitsAnswered, ResponsesGood, OffersOnce, BroadcastOnce, InstancesGood, CommittedGood;
    if m.Commit? {
      CommitAnswered(c, s.log, s.sent, s.delivered, m);
      CountedFrame(c, s.log, s.delivered, s.procs[c.leader].instances, s.procs[c.leader].instances, m);
    } else if m.Committed? {
      CommitsFrame(c, s.log, s.sent, s.delivered, multiset{}, multiset{m});
      assert s.sent + multiset{} == s.sent;
      CountedResponse(c, s, m);
    } else if m.Propose? && m.to == c.leader {
      CommitsOpened(c, s.log, s.sent, s.delivered, m.value);
      CommitsFrame(c, s.log + [m.value], s.sent, s.delivered, Offers(c, m.to, |s.log|, m.value), multiset{m});
      CountedOpened(c, s, m);
    } else {
      DeliverOther(c, s, m);
    }
  }

  lemma DeliverOther<V(!new)>(c: Config, s: State<V>, m: Msg<V>)
    requires CommitInv(c, s) && m.to in s.procs && GoodMsg(c, s.log, m)
    requires m.Accept? || m.Accepted? || (m.Propose? && m.to != c.leader)
    ensures CommitInv(c, Deliver(c, s, m))
  {
    hide CountedOnZero, CommitsAnswered, ResponsesGood;
    CommitsFrame(c, s.log, s.sent, s.delivered, Handle(c, s.procs[m.to], m).1, multiset{m});
    CountedFrame(c, s.log, s.delivered, s.procs[c.leader].instances, Deliver(c, s, m).procs[c.leader].instances, m);
  }

  lemma CountedResponse<V(!new)>(c: Config, s: State<V>, m: Msg<V>)
    requires ValidConfig(c) && Inv(c, s) && CommitInv(c, s) && m.Committed? && InFlight(s, m)
    ensures CountedOnZero(c, s.log, s.delivered + multiset{m}, OnCommitted(c, s.procs[c.leader]).instances)
  {
    hide CommitsAnswered, ResponsesGood, OffersOnce, BroadcastOnce, InstancesGood, CommittedGood, MsgsGood;
    FirstResponse(c, s, m);
    ResponsesFrame(s.delivered, m);
    assert m !in Responses(s.delivered);
    assert |Responses(s.delivered + multiset{m})| == |Responses(s.delivered)| + 1;
  }

  lemma {:induction false} RunCommitInv<V(!new)>(c: Config, states: seq<State<V>>, events: seq<Event<V>>, i: nat)
    requires ValidConfig(c) && IsRun(c, states, events) && i < |states|
    ensures Inv(c, states[i]) && CommitInv(c, states[i])
  {
    hide Inv, CommitInv, Enabled;
    RunInv(c, states, events, i);
    if i == 0 {
      InitCommitInv<V>(c);
    } else {
      RunCommitInv(c, states, events, i - 1);
      StepCommitInv(c, states[i - 1], events[i - 1]);
    }
  }

  // ---------------------------------------------------------------------
  // When slot 0 is lost
  // ---------------------------------------------------------------------

  /** As many commit responses as acceptors have come, and no majority of accept responses for
      slot 0. */
  ghost predicate Starved<V(!new)>(c: Config, s: State<V>) {
    |Responses(s.delivered)| >= |c.acceptors| && 2 * |Acks(c, s.delivered, 0)| <= |c.acceptors|
  }

  ghost predicate Lost<V(!new)>(c: Config, s: State<V>) {
    s.log != [] && c.leader in s.procs && 0 !in s.procs[c.leader].instances && 0 !in s.committed
  }

  lemma NotLostAtFirst<V(!new)>(c: Config)
    requires ValidConfig(c)
    ensures !Lost<V>(c, Init(c)) && !Starved<V>(c, Init(c))
  {
    assert Responses<V>(Init(c).delivered) == {};
  }

  lemma StarvedIsLost<V(!new)>(c: Config, s: State<V>)
    requires ValidConfig(c) && Inv(c, s) && CommitInv(c, s) && Starved(c, s)
    ensures Lost(c, s)
  {
    hide OffersOnce, BroadcastOnce, CommitsAnswered, ResponsesGood;
    assert c.leader in c.acceptors;
    NoResponses(c, s);
  }

  lemma NoResponses<V(!new)>(c: Config, s: State<V>)
    requires s.delivered <= s.sent && ResponsesGood(c, s.log, s.sent)
    ensures s.log == [] ==> Responses(s.delivered) == {}
  {
    if s.log == [] {
      forall x | x in s.delivered ensures !x.Committed? {
        assert s.delivered[x] <= s.sent[x];
      }
    }
  }

  /** A lost slot stays lost, and is lost at the moment it starves. */
  lemma LostStep<V(!new)>(c: Config, s: State<V>, e: Event<V>)
    requires ValidConfig(c) && Inv(c, s) && CommitInv(c, s) && Enabled(c, s, e)
    ensures Lost(c, Step(c, s, e)) <==> Lost(c, s) || Starved(c, Step(c, s, e))
  {
    hide Inv, CommitInv, Lost, Starved;
    StepInv(c, s, e);
    StepCommitInv(c, s, e);
    if Starved(c, Step(c, s, e)) { StarvedIsLost(c, Step(c, s, e)); }
    if Lost(c, s) { StaysLost(c, s, e); }
    if Lost(c, Step(c, s, e)) && !Lost(c, s) { LostByStarving(c, s, e); }
  }

  lemma StaysLost<V(!new)>(c: Config, s: State<V>, e: Event<V>)
    requires Inv(c, s) && Enabled(c, s, e) && Lost(c, s)
    ensures Lost(c, Step(c, s, e))
  {
    hide OffersOnce, BroadcastOnce, InstancesGood, CommittedGood;
    assert e.EvDeliver? ==> GoodMsg(c, s.log, e.m);
  }

  lemma LostByStarving<V(!new)>(c: Config, s: State<V>, e: Event<V>)
    requires ValidConfig(c) && Inv(c, s) && CommitInv(c, s) && Enabled(c, s, e)
    requires Inv(c, Step(c, s, e)) && CommitInv(c, Step(c, s, e)) && Lost(c, Step(c, s, e)) && !Lost(c, s)
    ensures Starved(c, Step(c, s, e))
  {
    hide OffersOnce, BroadcastOnce, CommitsAnswered, ResponsesGood, MsgsGood, CommittedGood;
    assert e.EvDeliver? && e.m.Committed?;
    assert 0 in s.procs[c.leader].instances;
    AcksFrame(c, s.delivered, e.m, 0);
  }

  lemma {:induction false} LostIff<V(!new)>(c: Config, states: seq<State<V>>, events: seq<Event<V>>, i: nat)
    requires ValidConfig(c) && IsRun(c, states, events) && i < |states|
    ensures Lost(c, states[i]) <==> exists j :: 0 <= j <= i && Starved(c, states[j])
  {
    hide Inv, CommitInv, Lost, Starved, Enabled, Step;
    if i == 0 {
      NotLostAtFirst<V>(c);
    } else {
      LostIff(c, states, events, i - 1);
      RunCommitInv(c, states, events, i - 1);
      LostStep(c, states[i - 1], events[i - 1]);
    }
  }

  /** At every moment a slot has been broadcast to a learner, once, exactly if more than half of
      the acceptors' answers for it have reached the leader and, for slot 0, it never starved. */
  lemma BroadcastIffMajority<V(!new)>(c: Config, states: seq<State<V>>, events: seq<Event<V>>, i: nat, k: nat,
      l: Machine)
    requires ValidConfig(c) && IsRun(c, states, events) && i < |states| && k < |states[i].log| && l in c.learners
    ensures states[i].sent[Commit(c.leader, l, k, states[i].log[k], c.leader)] ==
      if 2 * |Acks(c, states[i].delivered, k)| > |c.acceptors| &&
        (k > 0 || forall j :: 0 <= j <= i ==> !Starved(c, states[j])) then 1 else 0
  {
    hide Starved, Enabled, Step;
    RunInv(c, states, events, i);
    LostIff(c, states, events, i);
    BroadcastThen(c, states[i], k, l);
  }

  lemma BroadcastThen<V(!new)>(c: Config, s: State<V>, k: nat, l: Machine)
    requires Inv(c, s) && k < |s.log| && l in c.learners
    ensures s.sent[Commit(c.leader, l, k, s.log[k], c.leader)] ==
      if 2 * |Acks(c, s.delivered, k)| > |c.acceptors| && (k > 0 || !Lost(c, s)) then 1 else 0
  {
    hide OffersOnce, MsgsGood, Acks;
  }

  /** In a drained network every acceptor has answered for every slot. */
  lemma DrainedAcks<V(!new)>(c: Config, s: State<V>, k: nat)
    requires Inv(c, s) && s.sent == s.delivered && k < |s.log|
    ensures Acks(c, s.delivered, k) == c.acceptors
  {
    forall a | a in c.acceptors ensures Accepted(a, c.leader, 0, k) in s.delivered {
      assert s.sent[Accept(c.leader, a, 0, k, s.log[k])] == 1;
      assert s.sent[Accepted(a, c.leader, 0, k)] == 1;
    }
  }

  lemma DrainedCommitted<V(!new)>(c: Config, s: State<V>, k: nat)
    requires ValidConfig(c) && Inv(c, s) && s.sent == s.delivered && k < |s.log|
    ensures k in s.committed <==> k > 0 || !Lost(c, s)
  {
    DrainedAcks(c, s, k);
    hide OffersOnce, BroadcastOnce, MsgsGood, Acks;
  }

  /** When the network has drained, every slot but slot 0 has reached every learner exactly once.
      Slot 0 has, exactly if it never starved, and otherwise has reached nobody. */
  lemma DrainedMeansLearned<V(!new)>(c: Config, states: seq<State<V>>, events: seq<Event<V>>, i: nat, k: nat,
      l: Machine)
    requires ValidConfig(c) && IsRun(c, states, events) && i < |states| && states[i].sent == states[i].delivered
    requires k < |states[i].log| && l in c.learners
    ensures states[i].delivered[Commit(c.leader, l, k, states[i].log[k], c.leader)] ==
      if k > 0 || forall j :: 0 <= j <= i ==> !Starved(c, states[j]) then 1 else 0
  {
    hide Starved, Lost, Enabled, Step;
    RunInv(c, states, events, i);
    DrainedCommitted(c, states[i], k);
    LostIff(c, states, events, i);
  }

  // ---------------------------------------------------------------------
  // Links that keep the order of their messages lose nothing
  // ---------------------------------------------------------------------

  /** Whenever a message is delivered, all that its link was given before it has been. (At
      moment j the link had not yet been given the copy that event i delivers.) */
  ghost predicate KeepsOrder<V(!new)>(states: seq<State<V>>, events: seq<Event<V>>)
    requires |states| == |events| + 1
  {
    forall i, j, x: Msg<V> :: 0 <= j <= i < |events| && events[i].EvDeliver? && SameLink(events[i].m, x) ==>
      states[j].sent[events[i].m] <= states[i].delivered[events[i].m] ==> states[j].sent[x] <= states[i].delivered[x]
  }

  ghost predicate SameLink<V>(m: Msg<V>, x: Msg<V>) {
    m.from == x.from && m.to == x.to
  }

  lemma {:induction false} MomentOfLength<V(!new)>(c: Config, states: seq<State<V>>, events: seq<Event<V>>, i: nat,
      k: nat)
    requires ValidConfig(c) && IsRun(c, states, events) && i < |states| && k <= |states[i].log|
    ensures exists u: nat :: u <= i && |states[u].log| == k
  {
    if |states[i].log| > k {
      assert states[i] == Step(c, states[i - 1], events[i - 1]);
      MomentOfLength(c, states, events, i - 1, k);
    }
  }

  lemma {:induction false} FirstDelivery<V(!new)>(c: Config, states: seq<State<V>>, events: seq<Event<V>>, i: nat,
      m: Msg<V>)
    requires ValidConfig(c) && IsRun(c, states, events) && i < |states| && m in states[i].delivered
    ensures exists u: nat :: u < i && m !in states[u].delivered && events[u] == EvDeliver(m)
  {
    assert i > 0;
    assert states[i] == Step(c, states[i - 1], events[i - 1]);
    if m in states[i - 1].delivered { FirstDelivery(c, states, events, i - 1, m); }
  }

  function Offer<V>(c: Config, a: Machine, log: seq<V>, k: nat): Msg<V>
    requires k < |log|
  {
    Accept(c.leader, a, 0, k, log[k])
  }

  lemma OfferCounts<V(!new)>(c: Config, s: State<V>, a: Machine, k: nat)
    requires Inv(c, s) && a in c.acceptors && k < |s.log|
    ensures s.sent[Offer(c, a, s.log, k)] == 1 &&
      s.sent[Accepted(a, c.leader, 0, k)] == s.delivered[Offer(c, a, s.log, k)]
  {
  }

  lemma {:induction false} OffersInOrder<V(!new)>(c: Config, states: seq<State<V>>, events: seq<Event<V>>, i: nat,
      a: Machine, j: nat, k: nat)
    requires ValidConfig(c) && IsRun(c, states, events) && KeepsOrder(states, events) && i < |states|
    requires a in c.acceptors && j < k < |states[i].log| && Offer(c, a, states[i].log, k) in states[i].delivered
    ensures Offer(c, a, states[i].log, j) in states[i].delivered
  {
    hide Inv, Enabled, Step, KeepsOrder;
    var log := states[i].log;
    var m, x := Offer(c, a, log, k), Offer(c, a, log, j);
    FirstDelivery(c, states, events, i, m);
    var t: nat :| t < i && m !in states[t].delivered && events[t] == EvDeliver(m);
    SlotOpen(c, states, events, t, m);
    LogGrows(c, states, events, t, i);
    MomentOfLength(c, states, events, t, k);
    var u: nat :| u <= t && |states[u].log| == k;
    LogGrows(c, states, events, u, i);
    RunInv(c, states, events, u);
    OfferCounts(c, states[u], a, j);
    NotOffered(c, states[u], m);
    OrderedOnce(states, events, t, u, x);
    DeliveredGrows(c, states, events, t, i, x);
  }

  lemma SlotOpen<V(!new)>(c: Config, states: seq<State<V>>, events: seq<Event<V>>, t: nat, m: Msg<V>)
    requires ValidConfig(c) && IsRun(c, states, events) && t < |events| && events[t] == EvDeliver(m) && m.Accept?
    ensures m.slot < |states[t].log|
  {
    RunInv(c, states, events, t);
    assert Enabled(c, states[t], events[t]);
    assert GoodMsg(c, states[t].log, m);
  }

  lemma NotOffered<V(!new)>(c: Config, s: State<V>, m: Msg<V>)
    requires Inv(c, s) && m.Accept? && m.slot == |s.log|
    ensures m !in s.sent
  {
    assert !GoodMsg(c, s.log, m);
  }

  lemma OrderedOnce<V(!new)>(states: seq<State<V>>, events: seq<Event<V>>, i: nat, j: nat, x: Msg<V>)
    requires |states| == |events| + 1 && KeepsOrder(states, events) && j <= i < |events|
    requires events[i].EvDeliver? && SameLink(events[i].m, x) && events[i].m !in states[j].sent && x in states[j].sent
    ensures x in states[i].delivered
  {
    assert states[j].sent[x] <= states[i].delivered[x];
  }

  lemma {:induction false} DeliveredGrows<V(!new)>(c: Config, states: seq<State<V>>, events: seq<Event<V>>, i: nat,
      j: nat, x: Msg<V>)
    requires ValidConfig(c) && IsRun(c, states, events) && i <= j < |states| && x in states[i].delivered
    ensures x in states[j].delivered
    decreases j
  {
    if i < j {
      DeliveredGrows(c, states, events, i, j - 1, x);
      assert states[j] == Step(c, states[j - 1], events[j - 1]);
    }
  }

  lemma {:induction false} AnswersInOrder<V(!new)>(c: Config, states: seq<State<V>>, events: seq<Event<V>>, i: nat,
      a: Machine, j: nat, k: nat)
    requires ValidConfig(c) && IsRun(c, states, events) && KeepsOrder(states, events) && i < |states|
    requires a in c.acceptors && j < k && Accepted(a, c.leader, 0, k) in states[i].delivered
    ensures Accepted(a, c.leader, 0, j) in states[i].delivered
  {
    hide Inv, Step, KeepsOrder;
    var m: Msg<V>, x: Msg<V> := Accepted(a, c.leader, 0, k), Accepted(a, c.leader, 0, j);
    FirstDelivery(c, states, events, i, m);
    var t: nat :| t < i && m !in states[t].delivered && events[t] == EvDeliver(m);
    assert Enabled(c, states[t], events[t]);
    AnsweredOffer(c, states, events, t, a, k);
    var offer := Offer(c, a, states[t].log, k);
    FirstDelivery(c, states, events, t, offer);
    var u: nat :| u < t && offer !in states[u].delivered && events[u] == EvDeliver(offer);
    SlotOpen(c, states, events, u, offer);
    LogGrows(c, states, events, u, t);
    OfferDeliveredAt(c, states, events, u, a, j, k);
    OrderedOnce(states, events, t, u, x);
    DeliveredGrows(c, states, events, t, i, x);
  }

  lemma AnsweredOffer<V(!new)>(c: Config, states: seq<State<V>>, events: seq<Event<V>>, t: nat, a: Machine, k: nat)
    requires ValidConfig(c) && IsRun(c, states, events) && t < |states| && Accepted(a, c.leader, 0, k) in states[t].sent
    ensures k < |states[t].log| && Offer(c, a, states[t].log, k) in states[t].delivered
  {
    RunInv(c, states, events, t);
    assert GoodMsg(c, states[t].log, Accepted(a, c.leader, 0, k));
  }

  /** When the offer of a slot first comes in, those of the slots before have been answered. */
  lemma OfferDeliveredAt<V(!new)>(c: Config, states: seq<State<V>>, events: seq<Event<V>>, u: nat, a: Machine,
      j: nat, k: nat)
    requires ValidConfig(c) && IsRun(c, states, events) && KeepsOrder(states, events) && u < |events|
    requires a in c.acceptors && j < k < |states[u].log| && Offer(c, a, states[u].log, k) !in states[u].delivered
    requires events[u] == EvDeliver(Offer(c, a, states[u].log, k))
    ensures Accepted(a, c.leader, 0, j) in states[u].sent && Accepted(a, c.leader, 0, k) !in states[u].sent
  {
    hide Inv, KeepsOrder;
    assert states[u + 1] == Step(c, states[u], events[u]);
    OffersInOrder(c, states, events, u + 1, a, j, k);
    RunInv(c, states, events, u);
    OfferCounts(c, states[u], a, j);
    OfferCounts(c, states[u], a, k);
  }

  lemma RespondedSlot<V(!new)>(c: Config, s: State<V>, m: Msg<V>)
    requires Inv(c, s) && CommitInv(c, s) && m in Responses(s.delivered)
    ensures m.slot in s.committed && Majority(c) <= |Acks(c, s.delivered, m.slot)|
  {
    assert s.delivered[m] <= s.sent[m];
    assert GoodMsg(c, s.log, m);
    var commit := Commit(c.leader, m.from, m.slot, s.log[m.slot], c.leader);
    assert s.sent[m] == s.delivered[commit] <= s.sent[commit];
  }

  /** With such links slot 0 never starves. */
  lemma OrderedNeverStarves<V(!new)>(c: Config, states: seq<State<V>>, events: seq<Event<V>>, i: nat)
    requires ValidConfig(c) && IsRun(c, states, events) && KeepsOrder(states, events) && i < |states|
    ensures !Starved(c, states[i])
  {
    hide Inv, CommitInv, IsRun, KeepsOrder;
    var s := states[i];
    assert c.leader in c.acceptors;
    if Responses(s.delivered) != {} {
      var m :| m in Responses(s.delivered);
      RunCommitInv(c, states, events, i);
      RespondedSlot(c, s, m);
      forall a | a in Acks(c, s.delivered, m.slot) ensures a in Acks(c, s.delivered, 0) {
        if m.slot > 0 { AnswersInOrder(c, states, events, i, a, 0, m.slot); }
      }
      SubsetSize(Acks(c, s.delivered, m.slot), Acks(c, s.delivered, 0));
    }
  }

  // ---------------------------------------------------------------------
  // A run that loses slot 0
  // ---------------------------------------------------------------------

  ghost function Offered<V(!new)>(c: Config, k: nat, v: V): set<Msg<V>> {
    set a | a in c.acceptors :: Accept(c.leader, a, 0, k, v)
  }

  ghost function Answered<V(!new)>(c: Config, k: nat): set<Msg<V>> {
    set a | a in c.acceptors :: Accepted(a, c.leader, 0, k)
  }

  ghost function Announced<V(!new)>(c: Config, k: nat, v: V): set<Msg<V>> {
    set l | l in c.learners :: Commit(c.leader, l, k, v, c.leader)
  }

  ghost function Confirmed<V(!new)>(c: Config, k: nat): set<Msg<V>> {
    set l | l in c.learners :: Committed(l, c.leader, k)
  }

  lemma OneMore<V(!new)>(c: Config, states: seq<State<V>>, events: seq<Event<V>>, e: Event<V>)
    requires IsRun(c, states, events) && Enabled(c, states[|events|], e)
    ensures |states| == |events| + 1 && IsRun(c, states + [Step(c, states[|events|], e)], events + [e])
  {
    hide Enabled, Step;
  }

  lemma DeliverOne<V(!new)>(c: Config, s: State<V>, m: Msg<V>)
    requires m.to in s.procs && !m.Propose?
    ensures var s' := Deliver(c, s, m);
      && s'.procs.Keys == s.procs.Keys && s'.delivered == s.delivered + multiset{m} && s'.log == s.log &&
        s.sent <= s'.sent
      && forall x: Msg<V> :: x.Propose? ==> s'.sent[x] == s.sent[x]
  {
  }

  /** Delivers a set of messages that are in flight, in some order. */
  lemma {:induction false} DeliverAll<V(!new)>(c: Config, states: seq<State<V>>, events: seq<Event<V>>,
      now: set<Msg<V>>)
      returns (states': seq<State<V>>, events': seq<Event<V>>)
    requires ValidConfig(c) && IsRun(c, states, events)
    requires Flying(states[|events|], now)
    ensures IsRun(c, states', events') && states <= states'
    ensures After(states[|events|], now, states'[|events'|]) && NoNewSubmits(events, events')
    decreases |now|
  {
    if now == {} {
      states', events' := states, events;
    } else {
      hide IsRun, Deliver, After, Flying;
      var m :| m in now;
      var s := states[|events|];
      var t := Step(c, s, EvDeliver(m));
      FlyOn(c, s, now, m);
      OneMore(c, states, events, EvDeliver(m));
      states', events' := DeliverAll(c, states + [t], events + [EvDeliver(m)], now - {m});
      AfterOne(c, s, now, m, states'[|events'|]);
    }
  }

  ghost predicate Flying<V(!new)>(s: State<V>, now: set<Msg<V>>) {
    forall m :: m in now ==> m.to in s.procs && InFlight(s, m) && !m.Propose?
  }

  lemma FlyOn<V(!new)>(c: Config, s: State<V>, now: set<Msg<V>>, m: Msg<V>)
    requires Flying(s, now) && m in now
    ensures m.to in s.procs && InFlight(s, m) && !m.Propose? && Flying(Deliver(c, s, m), now - {m})
  {
    hide Deliver;
    DeliverOne(c, s, m);
  }

  lemma AfterOne<V(!new)>(c: Config, s: State<V>, now: set<Msg<V>>, m: Msg<V>, s': State<V>)
    requires m.to in s.procs && !m.Propose? && m in now && After(Deliver(c, s, m), now - {m}, s')
    ensures After(s, now, s')
  {
    hide Deliver;
    DeliverOne(c, s, m);
    assert now == (now - {m}) + {m};
    assert s.delivered + multiset{m} + multiset(now - {m}) == s.delivered + multiset(now);
  }

  ghost predicate NoNewSubmits<V(!new)>(events: seq<Event<V>>, events': seq<Event<V>>) {
    forall e :: e in events' && e.EvSubmit? ==> e in events
  }

  /** All values were submitted by the leader. */
  ghost predicate OnlySubmits<V(!new)>(c: Config, events: seq<Event<V>>, v: V, w: V) {
    forall e :: e in events && e.EvSubmit? ==> e.at == c.leader && (e.value == v || e.value == w)
  }

  ghost predicate After<V(!new)>(s: State<V>, now: set<Msg<V>>, s': State<V>) {
    && s'.delivered == s.delivered + multiset(now) && s'.log == s.log
    && forall x: Msg<V> :: x.Propose? ==> s'.sent[x] == s.sent[x]
  }

  lemma ProposeStep<V(!new)>(c: Config, s: State<V>, v: V)
    requires c.leader in s.procs && s.delivered <= s.sent
    ensures var m := Propose(c.leader, c.leader, v); var s' := Deliver(c, Submit(s, c.leader, v), m);
      && InFlight(Submit(s, c.leader, v), m)
      && s'.log == s.log + [v] && s'.delivered == s.delivered + multiset{m}
      && forall x: Msg<V> :: x.Propose? ==> s'.sent[x] == s.sent[x] + multiset{m}[x]
  {
  }

  /** The leader takes a proposal of its own. */
  lemma ProposeOne<V(!new)>(c: Config, states: seq<State<V>>, events: seq<Event<V>>, v: V)
      returns (states': seq<State<V>>, events': seq<Event<V>>)
    requires ValidConfig(c) && IsRun(c, states, events) && NoProposal(states[|events|])
    ensures IsRun(c, states', events') && states'[|events'|].log == states[|events|].log + [v]
    ensures NoProposal(states'[|events'|])
    ensures forall e :: e in events' && e.EvSubmit? ==> e in events || e == EvSubmit(c.leader, v)
    ensures (forall x :: x in states[|events|].delivered ==> x.Propose?) ==> forall x ::
      x in states'[|events'|].delivered ==> x.Propose?
  {
    hide Deliver;
    var s, m := states[|events|], Propose(c.leader, c.leader, v);
    RunInv(c, states, events, |events|);
    ProposeStep(c, s, v);
    OneMore(c, states, events, EvSubmit(c.leader, v));
    states', events' := states + [Submit(s, c.leader, v)], events + [EvSubmit(c.leader, v)];
    OneMore(c, states', events', EvDeliver(m));
    states', events' := states' + [Deliver(c, Submit(s, c.leader, v), m)], events' + [EvDeliver(m)];
  }

  ghost predicate NoProposal<V(!new)>(s: State<V>) {
    forall x: Msg<V> :: x.Propose? ==> s.sent[x] == s.delivered[x]
  }

  lemma TwoProposals<V(!new)>(c: Config, v: V, w: V) returns (states: seq<State<V>>, events: seq<Event<V>>)
    requires ValidConfig(c)
    ensures IsRun(c, states, events) && OnlySubmits(c, events, v, w)
    ensures var s := states[|events|]; s.log == [v, w] && NoProposal(s) && forall x :: x in s.delivered ==> x.Propose?
  {
    states, events := [Init(c)], [];
    assert NoProposal(Init<V>(c));
    states, events := ProposeOne(c, states, events, v);
    states, events := ProposeOne(c, states, events, w);
  }

  /** The leader has opened two slots, and these are the messages delivered since. */
  ghost predicate Stage<V(!new)>(s: State<V>, log: seq<V>, got: set<Msg<V>>) {
    s.log == log && NoProposal(s) && forall x: Msg<V> :: !x.Propose? ==> s.delivered[x] == if x in got then 1 else 0
  }

  ghost predicate Sent<V(!new)>(s: State<V>, now: set<Msg<V>>) {
    forall m :: m in now ==> m.to in s.procs && m in s.sent && !m.Propose?
  }

  lemma Advance<V(!new)>(c: Config, states: seq<State<V>>, events: seq<Event<V>>, log: seq<V>, got: set<Msg<V>>,
      now: set<Msg<V>>)
      returns (states': seq<State<V>>, events': seq<Event<V>>)
    requires ValidConfig(c) && IsRun(c, states, events)
    requires Stage(states[|events|], log, got) && Sent(states[|events|], now) && now !! got
    ensures IsRun(c, states', events') && states <= states' && Stage(states'[|events'|], log, got + now)
    ensures NoNewSubmits(events, events')
    ensures Inv(c, states'[|events'|]) && CommitInv(c, states'[|events'|])
  {
    hide Enabled, Step, Inv, CommitInv;
    states', events' := DeliverAll(c, states, events, now);
    RunCommitInv(c, states', events', |events'|);
  }

  lemma OffersSent<V(!new)>(c: Config, s: State<V>, k: nat)
    requires ValidConfig(c) && Inv(c, s) && k < |s.log|
    ensures Sent(s, Offered(c, k, s.log[k]))
  {
    forall a | a in c.acceptors ensures Accept(c.leader, a, 0, k, s.log[k]) in s.sent { OfferCounts(c, s, a, k); }
  }

  lemma AnswersSent<V(!new)>(c: Config, s: State<V>, got: set<Msg<V>>, k: nat)
    requires ValidConfig(c) && Inv(c, s) && k < |s.log| && Stage(s, s.log, got) && Offered(c, k, s.log[k]) <= got
    ensures Sent(s, Answered(c, k))
  {
    hide MsgsGood, OffersOnce, BroadcastOnce, InstancesGood, CommittedGood;
    forall a | a in c.acceptors ensures Accepted(a, c.leader, 0, k) in s.sent {
      OfferCounts(c, s, a, k);
      assert Accept(c.leader, a, 0, k, s.log[k]) in got;
    }
  }

  lemma AnnouncedSent<V(!new)>(c: Config, s: State<V>, got: set<Msg<V>>, k: nat)
    requires ValidConfig(c) && Inv(c, s) && 0 < k < |s.log| && Stage(s, s.log, got) && Answered(c, k) <= got
    ensures Sent(s, Announced(c, k, s.log[k]))
  {
    forall a | a in c.acceptors ensures a in Acks(c, s.delivered, k) {
      var m: Msg<V> := Accepted(a, c.leader, 0, k);
      assert m in Answered<V>(c, k) && s.delivered[m] == 1;
    }
    assert Acks(c, s.delivered, k) == c.acceptors;
    assert k in s.committed;
    forall l | l in c.learners ensures Commit(c.leader, l, k, s.log[k], c.leader) in s.sent {
      assert s.sent[Commit(c.leader, l, k, s.log[k], c.leader)] == 1;
    }
  }

  lemma ConfirmedSent<V(!new)>(c: Config, s: State<V>, got: set<Msg<V>>, k: nat)
    requires ValidConfig(c) && Inv(c, s) && CommitInv(c, s) && k < |s.log| && Stage(s, s.log, got) &&
      Announced(c, k, s.log[k]) <= got
    ensures Sent(s, Confirmed(c, k))
  {
    forall l | l in c.learners ensures Committed(l, c.leader, k) in s.sent {
      var m := Commit(c.leader, l, k, s.log[k], c.leader);
      assert m in Announced(c, k, s.log[k]) && s.delivered[m] == 1;
      assert s.sent[Committed(l, c.leader, k)] == s.delivered[m];
    }
  }

  ghost function SlotOne<V(!new)>(c: Config, w: V): set<Msg<V>> {
    Offered(c, 1, w) + Answered(c, 1) + Announced(c, 1, w) + Confirmed(c, 1)
  }

  lemma SlotOneIs<V(!new)>(c: Config, w: V, x: Msg<V>)
    ensures x in SlotOne(c, w) ==> !x.Propose? && x.slot == 1
    ensures x.Committed? ==> (x in SlotOne(c, w) <==> x in Confirmed(c, 1))
    ensures x in Announced(c, 1, w) ==> x in SlotOne(c, w)
  {
  }

  lemma ZeroApart<V(!new)>(c: Config, v: V, w: V)
    ensures SlotOne(c, w) !! Offered(c, 0, v) && SlotOne(c, w) + Offered(c, 0, v) !! Answered(c, 0)
  {
    hide SlotOne;
    forall x | x in SlotOne(c, w) ensures !x.Propose? && x.slot == 1 { SlotOneIs(c, w, x); }
  }

  /** Slot 1 goes all the way before an offer of slot 0 arrives. */
  lemma SlotOneFirst<V(!new)>(c: Config, v: V, w: V) returns (states: seq<State<V>>, events: seq<Event<V>>)
    requires ValidConfig(c)
    ensures IsRun(c, states, events) && Inv(c, states[|events|]) && OnlySubmits(c, events, v, w)
    ensures Stage(states[|events|], [v, w], SlotOne(c, w))
  {
    hide Enabled, Step, Inv, CommitInv, Sent;
    states, events := TwoProposals(c, v, w);
    RunInv(c, states, events, |events|);
    var got: set<Msg<V>> := {};
    OffersSent(c, states[|events|], 1);
    states, events := Advance(c, states, events, [v, w], got, Offered(c, 1, w));
    got := Offered(c, 1, w);
    AnswersSent(c, states[|events|], got, 1);
    states, events := Advance(c, states, events, [v, w], got, Answered(c, 1));
    got := got + Answered(c, 1);
    AnnouncedSent(c, states[|events|], got, 1);
    states, events := Advance(c, states, events, [v, w], got, Announced(c, 1, w));
    got := got + Announced(c, 1, w);
    ConfirmedSent(c, states[|events|], got, 1);
    states, events := Advance(c, states, events, [v, w], got, Confirmed(c, 1));
  }

  lemma {:induction false} ConfirmedSize<V(!new)>(c: Config, k: nat)
    ensures |Confirmed<V>(c, k)| == |c.learners|
    decreases |c.learners|
  {
    if c.learners != {} {
      var l :| l in c.learners;
      var d := c.(learners := c.learners - {l});
      ConfirmedSize<V>(d, k);
      assert Confirmed<V>(c, k) == Confirmed<V>(d, k) + {Committed(l, c.leader, k)};
    }
  }

  lemma ConfirmedOnly<V(!new)>(c: Config, m: Msg<V>)
    ensures m in Confirmed(c, 1) ==> m.Committed?
  {
  }

  /** Nothing is known of slot 0, and the responses for slot 1 are enough to drop it. */
  lemma SlotZeroStarves<V(!new)>(c: Config, s: State<V>, v: V, w: V)
    requires ValidConfig(c) && |c.acceptors| <= |c.learners|
    requires Stage(s, [v, w], SlotOne(c, w))
    ensures Starved(c, s)
  {
    hide SlotOne, Confirmed;
    forall m: Msg<V> ensures m in Responses(s.delivered) <==> m in Confirmed(c, 1) {
      ConfirmedOnly(c, m);
      SlotOneIs(c, w, m);
    }
    assert Responses(s.delivered) == Confirmed(c, 1);
    ConfirmedSize<V>(c, 1);
    forall a | a in c.acceptors ensures Accepted(a, c.leader, 0, 0) !in s.delivered {
      SlotOneIs(c, w, Accepted(a, c.leader, 0, 0));
    }
    assert Acks(c, s.delivered, 0) == {};
  }

  /** Apart from proposals a message is sent once, and commits only of committed slots. */
  lemma SentOnce<V(!new)>(c: Config, s: State<V>, x: Msg<V>)
    requires Inv(c, s) && CommitInv(c, s) && x in s.sent && !x.Propose?
    ensures s.sent[x] == 1 && x.slot < |s.log|
    ensures x.Accept? ==> x in Offered(c, x.slot, s.log[x.slot])
    ensures x.Accepted? ==> x in Answered(c, x.slot)
    ensures x.Commit? ==> x in Announced(c, x.slot, s.log[x.slot]) && x.slot in s.committed
    ensures x.Committed? ==> x in Confirmed(c, x.slot) && x.slot in s.committed
  {
    assert GoodMsg(c, s.log, x) && s.delivered <= s.sent;
    hide Inv, CommitInv;
    if x.Accept? {
      OfferCounts(c, s, x.to, x.slot);
    } else if x.Accepted? {
      var offer := Offer(c, x.from, s.log, x.slot);
      OfferCounts(c, s, x.from, x.slot);
      assert s.delivered[offer] <= s.sent[offer];
    } else if x.Commit? {
      CommitCount(c, s, x.to, x.slot);
    } else {
      ResponseCount(c, s, x);
    }
  }

  lemma CommitCount<V(!new)>(c: Config, s: State<V>, l: Machine, k: nat)
    requires Inv(c, s) && l in c.learners && k < |s.log|
    ensures s.sent[Commit(c.leader, l, k, s.log[k], c.leader)] == if k in s.committed then 1 else 0
  {
    hide InstancesGood, CommittedGood, ProcsGood, OffersOnce, MsgsGood;
  }

  lemma ResponseCount<V(!new)>(c: Config, s: State<V>, x: Msg<V>)
    requires Inv(c, s) && CommitInv(c, s) && x in s.sent && x.Committed?
    ensures s.sent[x] == 1 && x.slot < |s.log| && x.from in c.learners && x.to == c.leader && x.slot in s.committed
  {
    hide InstancesGood, CommittedGood, CountedOnZero, ProcsGood, OffersOnce, BroadcastOnce;
    assert GoodMsg(c, s.log, x);
    var m := Commit(c.leader, x.from, x.slot, s.log[x.slot], c.leader);
    CommitCount(c, s, x.from, x.slot);
    assert s.sent[x] == s.delivered[m] <= s.sent[m];
  }

  lemma AllDelivered<V(!new)>(c: Config, s: State<V>, v: V, w: V, x: Msg<V>)
    requires Inv(c, s) && CommitInv(c, s) && Lost(c, s)
    requires Stage(s, [v, w], SlotOne(c, w) + Offered(c, 0, v) + Answered(c, 0))
    ensures s.sent[x] == s.delivered[x]
  {
    assert s.delivered[x] <= s.sent[x];
    assert 0 !in s.committed;
    hide Inv, CommitInv, Lost, Offered, Answered, Announced, Confirmed;
    if x in s.sent && !x.Propose? {
      SentOnce(c, s, x);
      assert x.slot == 0 || x.slot == 1;
    }
  }

  /** However many members there are, a run can end with nothing in flight, a slot 0 that was
      opened and never announced to anybody, and slot 1 known to all. */
  lemma SlotZeroCanBeLost<V(!new)>(c: Config, v: V, w: V) returns (states: seq<State<V>>, events: seq<Event<V>>)
    requires ValidConfig(c) && |c.acceptors| <= |c.learners|
    ensures IsRun(c, states, events) && OnlySubmits(c, events, v, w)
    ensures var s := states[|events|];
      && s.log == [v, w] && s.sent == s.delivered && Lost(c, s)
      && (forall l, x :: Commit(c.leader, l, 0, x, c.leader) !in s.sent)
      && forall l :: l in c.learners ==> Commit(c.leader, l, 1, w, c.leader) in s.delivered
  {
    hide Enabled, Step, Inv, CommitInv, Sent, Starved, Lost, SlotOne, Offered, Answered;
    states, events := SlotOneFirst(c, v, w);
    var t := |events|;
    var got: set<Msg<V>> := SlotOne(c, w);
    ZeroApart(c, v, w);
    SlotZeroStarves(c, states[t], v, w);
    OffersSent(c, states[t], 0);
    states, events := Advance(c, states, events, [v, w], got, Offered(c, 0, v));
    got := got + Offered(c, 0, v);
    AnswersSent(c, states[|events|], got, 0);
    states, events := Advance(c, states, events, [v, w], got, Answered(c, 0));
    LostIff(c, states, events, |events|);
    var s := states[|events|];
    forall x ensures s.sent[x] == s.delivered[x] { AllDelivered(c, s, v, w, x); }
    NeverAnnounced(c, s);
    forall l | l in c.learners ensures Commit(c.leader, l, 1, w, c.leader) in s.delivered {
      SlotOneIs(c, w, Commit(c.leader, l, 1, w, c.leader));
    }
  }

  lemma NeverAnnounced<V(!new)>(c: Config, s: State<V>)
    requires Inv(c, s) && CommitInv(c, s) && Lost(c, s)
    ensures forall l, x :: Commit(c.leader, l, 0, x, c.leader) !in s.sent
  {
    assert 0 !in s.committed;
    hide Inv, CommitInv, Lost;
    forall l, x ensures Commit(c.leader, l, 0, x, c.leader) !in s.sent {
      if Commit(c.leader, l, 0, x, c.leader) in s.sent { SentOnce(c, s, Commit(c.leader, l, 0, x, c.leader)); }
    }
  }
}
