/** Paxos group membership (module/consensus.cpp) and the Leader and Acceptor objects
    (paxos/leader.cpp, paxos/acceptor.cpp) proved to compute the handlers of module Paxos. */
module PaxosObjects {
  import opened Prelude
  import opened Ids
  import opened Paxos

  ghost predicate Distinct<T>(s: seq<T>) {
    forall i, j :: 0 <= i < j < |s| ==> s[i] != s[j]
  }

  /** All machines of the leader's replica learn directly; of every other replica, partition 0 does. */
  ghost predicate IsLearner(region: nat, replicas: nat, partitions: nat, m: Machine) {
    && m.region == region && m.replica < replicas && m.partition < partitions
    && (m.replica == 0 || m.partition == 0)
  }

  method GetMembers(region: nat, replicas: nat, partitions: nat, sync: bool)
    returns (acceptors: seq<Machine>, learners: seq<Machine>)
    requires 0 < replicas && 0 < partitions
    ensures Distinct(acceptors) && Distinct(learners)
    ensures |acceptors| % 2 == 1 && acceptors[0] == Machine(region, 0, 0)
    ensures var n := if sync then replicas else partitions; n - 1 <= |acceptors| <= n
    ensures forall i ::
      0 <= i < |acceptors| ==> acceptors[i] == if sync then Machine(region, i, 0) else Machine(region, 0, i)
    ensures forall m :: m in learners <==> IsLearner(region, replicas, partitions, m)
  {
    acceptors, learners := [], [];
    for part := 0 to partitions
      invariant |learners| == part
      invariant forall i :: 0 <= i < part ==> learners[i] == Machine(region, 0, i)
    {
      learners := learners + [Machine(region, 0, part)];
    }
    for rep := 0 to replicas
      invariant |learners| == partitions + if rep == 0 then 0 else rep - 1
      invariant forall i :: 0 <= i < partitions ==> learners[i] == Machine(region, 0, i)
      invariant forall i :: partitions <= i < |learners| ==> learners[i] == Machine(region, i - partitions + 1, 0)
    {
      if rep != 0 {
        learners := learners + [Machine(region, rep, 0)];
      }
    }
    forall m | IsLearner(region, replicas, partitions, m)
      ensures m in learners
    {
      assert m == learners[if m.replica == 0 then m.partition else partitions + m.replica - 1];
    }
    if sync {
      var cutoff := (replicas - 1) / 2 * 2 + 1;
      for rep := 0 to cutoff
        invariant |acceptors| == rep
        invariant forall i :: 0 <= i < rep ==> acceptors[i] == Machine(region, i, 0)
      {
        acceptors := acceptors + [Machine(region, rep, 0)];
      }
    } else {
      var cutoff := (partitions - 1) / 2 * 2 + 1;
      for part := 0 to cutoff
        invariant |acceptors| == part
        invariant forall i :: 0 <= i < part ==> acceptors[i] == Machine(region, 0, i)
      {
        acceptors := acceptors + [Machine(region, 0, part)];
      }
    }
  }

  /** The members as an object sees them, and the group they describe. */
  datatype Members = Members(acceptors: seq<Machine>, learners: seq<Machine>)

  ghost predicate ValidMembers(ms: Members) {
    ms.acceptors != [] && Distinct(ms.acceptors) && Distinct(ms.learners)
  }

  ghost predicate Describes(ms: Members, c: Config) {
    && c.acceptors == Elements(ms.acceptors) && c.learners == Elements(ms.learners)
    && ms.acceptors != [] && c.leader == ms.acceptors[0]
  }

  /** Send one accept request to each acceptor. */
  method OfferAll<V(==, !new)>(acceptors: seq<Machine>, me: Machine, slot: nat, value: V)
      returns (out: multiset<Msg<V>>)
    requires Distinct(acceptors)
    ensures forall m ::
      out[m] == if m.Accept? && m.to in acceptors && m == Accept(me, m.to, 0, slot, value) then 1 else 0
  {
    out := multiset{};
    for i := 0 to |acceptors|
      invariant forall m ::
        out[m] == if m.Accept? && m.to in acceptors[..i] && m == Accept(me, m.to, 0, slot, value) then 1 else 0
    {
      assert acceptors[i] !in acceptors[..i] && acceptors[..i + 1] == acceptors[..i] + [acceptors[i]];
      out := out + multiset{Accept(me, acceptors[i], 0, slot, value)};
    }
    assert acceptors[..|acceptors|] == acceptors;
  }

  /** Send one commit request to each learner. */
  method BroadcastAll<V(==, !new)>(learners: seq<Machine>, me: Machine, slot: nat, value: V)
      returns (out: multiset<Msg<V>>)
    requires Distinct(learners)
    ensures forall m ::
      out[m] == if m.Commit? && m.to in learners && m == Commit(me, m.to, slot, value, me) then 1 else 0
  {
    out := multiset{};
    for i := 0 to |learners|
      invariant forall m ::
        out[m] == if m.Commit? && m.to in learners[..i] && m == Commit(me, m.to, slot, value, me) then 1 else 0
    {
      assert learners[i] !in learners[..i] && learners[..i + 1] == learners[..i] + [learners[i]];
      out := out + multiset{Commit(me, learners[i], slot, value, me)};
    }
    assert learners[..|learners|] == learners;
  }

  class Leader<V(==, !new)> {
    const members: Members
    const me: Machine
    const isElected: bool
    const electedLeader: Machine
    var next: nat
    var instances: map<nat, Instance<V>>

    ghost predicate Valid() {
      && ValidMembers(members) && electedLeader == members.acceptors[0]
      && isElected == (me == electedLeader)
    }

    /** Only the first acceptor counts itself as elected; everyone else forwards to it. */
    constructor (members: Members, me: Machine)
      requires ValidMembers(members)
      ensures Valid() && this.members == members && this.me == me && next == 0 && instances == map[]
    {
      this.members, this.me := members, me;
      var position := 0;
      while position < |members.acceptors| && members.acceptors[position] != me
        invariant 0 <= position <= |members.acceptors|
        invariant forall i :: 0 <= i < position ==> members.acceptors[i] != me
      {
        position := position + 1;
      }
      isElected := position < |members.acceptors| && position == 0;
      electedLeader := members.acceptors[0];
      next, instances := 0, map[];
    }

    method StartNewInstance(ghost c: Config, value: V) returns (out: multiset<Msg<V>>)
      requires Valid() && isElected && Describes(members, c)
      modifies this
      ensures forall ballot ::
        (Proc(next, instances, ballot), out) == Paxos.StartNewInstance(c, me, old(Proc(next, instances, ballot)), value)
    {
      var slot := next;
      if slot !in instances {
        instances := instances[slot := Instance(0, value, 0, 0)];
      }
      next := next + 1;
      out := OfferAll(members.acceptors, me, slot, value);
      assert out == Offers(c, me, slot, value);
    }

    method HandlePropose(ghost c: Config, value: V) returns (out: multiset<Msg<V>>)
      requires Valid() && Describes(members, c)
      modifies this
      ensures forall ballot ::
        (Proc(next, instances, ballot), out) == OnPropose(c, me, old(Proc(next, instances, ballot)), value)
    {
      if isElected {
        out := StartNewInstance(c, value);
      } else {
        out := multiset{Propose(me, electedLeader, value)};
      }
    }

    /** ProcessCommitRequest; OnCommit of the user is called with the slot, the value and the leader. */
    method ProcessCommitRequest(slot: nat)
      modifies this`next
      ensures next == if slot >= old(next) then slot + 1 else old(next)
    {
      if slot >= next {
        next := slot + 1;
      }
    }

    method HandleAccepted(ghost c: Config, slot: nat) returns (out: multiset<Msg<V>>)
      requires Valid() && Describes(members, c)
      modifies this
      ensures forall ballot ::
        (Proc(next, instances, ballot), out) == OnAccepted(c, me, old(Proc(next, instances, ballot)), slot)
    {
      out := multiset{};
      if slot !in instances {
        return;
      }
      var instance := instances[slot].(accepts := instances[slot].accepts + 1);
      instances := instances[slot := instance];
      AllDifferent(members.acceptors);
      if instance.accepts == |members.acceptors| / 2 + 1 {
        out := BroadcastAll(members.learners, me, slot, instance.value);
        assert out == Broadcast(c, me, slot, instance.value);
      }
    }

    /** The slot read here is that of the accept response, which is absent: 0. */
    method HandleCommitted(ghost c: Config)
      requires Valid() && Describes(members, c)
      modifies this
      ensures forall ballot :: Proc(next, instances, ballot) == OnCommitted(c, old(Proc(next, instances, ballot)))
    {
      var slot := 0;
      if slot !in instances {
        return;
      }
      var instance := instances[slot].(commits := instances[slot].commits + 1);
      instances := instances[slot := instance];
      AllDifferent(members.acceptors);
      if instance.commits == |members.acceptors| {
        instances := instances - {slot};
      }
    }
  }

  class Acceptor {
    var ballot: nat

    constructor ()
      ensures ballot == 0
    {
      ballot := 0;
    }

    method ProcessAcceptRequest<V(==, !new)>(me: Machine, from: Machine, b: nat, slot: nat)
        returns (out: multiset<Msg<V>>)
      modifies this
      ensures forall next, instances: map<nat, Instance<V>> ::
                (Proc(next, instances, ballot), out) == OnAccept(me, Proc(next, instances, old(ballot)), from, b, slot)
    {
      if b < ballot {
        return multiset{};
      }
      ballot := b;
      out := multiset{Accepted(me, from, ballot, slot)};
    }
  }

  /** One machine's Paxos module: every request goes to the leader object first, then to the
      acceptor object; responses go to the leader object. */
  class SimulatedMultiPaxos<V(==, !new)> {
    const leader: Leader<V>
    const acceptor: Acceptor

    ghost function View(): Proc<V>
      reads leader, acceptor
    {
      Proc(leader.next, leader.instances, acceptor.ballot)
    }

    constructor (members: Members, me: Machine)
      requires ValidMembers(members)
      ensures View() == Proc(0, map[], 0) && fresh(leader) && fresh(acceptor)
      ensures leader.Valid() && leader.members == members && leader.me == me
    {
      leader := new Leader<V>(members, me);
      acceptor := new Acceptor();
    }

    /** `report` is the slot of the OnCommit call, if any; its value and leader are those of the message. */
    method OnReceived(ghost c: Config, m: Msg<V>) returns (out: multiset<Msg<V>>, report: bool)
      requires leader.Valid() && Describes(leader.members, c) && m.to == leader.me
      modifies leader, acceptor
      ensures (View(), out) == Handle(c, old(View()), m)
      ensures report == m.Commit?
    {
      out, report := multiset{}, false;
      match m
      case Propose(_, _, value) =>
        out := leader.HandlePropose(c, value);
      case Accept(from, me, ballot, slot, _) =>
        out := acceptor.ProcessAcceptRequest(me, from, ballot, slot);
      case Commit(from, me, slot, _, _) =>
        leader.ProcessCommitRequest(slot);
        report := true;
        out := multiset{Committed(me, from, slot)};
      case Accepted(_, _, _, slot) =>
        out := leader.HandleAccepted(c, slot);
      case Committed(_, _, _) =>
        leader.HandleCommitted(c);
    }
  }
}
