/** The LogManager object of module/log_manager.cpp for one home region, proved to compute the
    handlers of module LogSystem. */
module LogManagers {
  import opened Prelude
  import opened Ids
  import opened LogSystem
  import LocalLogs
  import BatchLogs

  /** The orders for the regions below n. */
  ghost function OrdersUpTo(c: Cluster, me: Machine, slot: nat, id: BatchId, n: nat): set<Msg>
    requires ValidCluster(c) && n <= |c.replicas|
  {
    if n == 0 then {}
    else OrdersUpTo(c, me, slot, id, n - 1) + if n - 1 == c.home then {}
    else {RemoteOrder(me, Entry(c, n - 1), slot, id, NeedAck(c, n - 1))}
  }

  lemma NoOrders(c: Cluster, me: Machine, slot: nat, id: BatchId)
    requires ValidCluster(c)
    ensures OrdersUpTo(c, me, slot, id, 0) == {}
  {
  }

  lemma OneMoreOrder(c: Cluster, me: Machine, slot: nat, id: BatchId, n: nat)
    requires ValidCluster(c) && n < |c.replicas|
    ensures OrdersUpTo(c, me, slot, id, n + 1) ==
      OrdersUpTo(c, me, slot, id, n) + if n == c.home then {}
      else {RemoteOrder(me, Entry(c, n), slot, id, NeedAck(c, n))}
  {
  }

  lemma {:induction false} OrdersUpToAre(c: Cluster, me: Machine, slot: nat, id: BatchId, n: nat, x: Msg)
    requires ValidCluster(c) && n <= |c.replicas|
    ensures x in OrdersUpTo(c, me, slot, id, n) <==>
      exists r: nat :: r < n && r != c.home && x == RemoteOrder(me, Entry(c, r), slot, id, NeedAck(c, r))
  {
    if n > 0 {
      hide Entry, NeedAck;
      OrdersUpToAre(c, me, slot, id, n - 1, x);
    }
  }

  lemma AllOrders(c: Cluster, me: Machine, slot: nat, id: BatchId)
    requires ValidCluster(c)
    ensures OrderAbroad(c, me, slot, id) == multiset(OrdersUpTo(c, me, slot, id, |c.replicas|))
  {
    hide Entry, NeedAck, OrdersUpTo;
    var all := set r | 0 <= r < |c.replicas| && r != c.home :: RemoteOrder(me, Entry(c, r), slot, id, NeedAck(c, r));
    forall x ensures x in all <==> x in OrdersUpTo(c, me, slot, id, |c.replicas|) {
      OrdersUpToAre(c, me, slot, id, |c.replicas|, x);
    }
    assert all == OrdersUpTo(c, me, slot, id, |c.replicas|);
  }

  lemma DisjointSum(a: set<Msg>, b: set<Msg>)
    requires a !! b
    ensures multiset(a) + multiset(b) == multiset(a + b)
  {
  }

  /** Moving entries of the local log releases nothing. */
  lemma {:induction false} DrainLocalKeepsOut(c: Cluster, me: Machine, n: Node)
    requires c.home < |c.replicas| && 0 < c.partitions
    ensures DrainLocal(c, me, n).0.log.out == n.log.out
    decreases |n.local.log.ready|
  {
    if n.local.log.ready != [] {
      hide OrderAbroad, BatchLogs.AddSlot;
      var e := n.local.log.ready[0];
      DrainLocalKeepsOut(c, me, Node(LocalLogs.Step(n.local, LocalLogs.OpNext),
                                     BatchLogs.Step(n.log, BatchLogs.OpAddSlot(e.slot, e.id, c.factor - 1))));
    }
  }

  lemma ProcessKeepsOut(c: Cluster, n: Node, m: Msg)
    requires IsMachine(c, m.to)
    ensures Process(c, n, m).0.log.out == n.log.out
  {
    hide Relay, OtherPartitions, BatchLogs.AddSlot, BatchLogs.AddBatch, BatchLogs.AckReplication;
  }

  class LogManager {
    const c: Cluster
    const me: Machine
    const otherPartitions: set<Machine>
    const otherReplicas: set<Machine>
    const needAck: seq<bool>
    var localLog: LocalLogs.State<Machine>
    var homeLog: BatchLogs.State<()>
    /** The two logs together with the history of their inputs and outputs. */
    ghost var node: Node

    ghost predicate Valid()
      reads this
    {
      && ValidCluster(c) && IsMachine(c, me)
      && otherPartitions == OtherPartitions(c, me) && otherReplicas == OtherReplicas(c, me)
      && |needAck| == |c.replicas| && (forall r :: 0 <= r < |needAck| ==> needAck[r] == (r in Asked(c)))
      && node.local.log == localLog && node.log.log == homeLog
    }

    constructor (c: Cluster, me: Machine)
      requires ValidCluster(c) && IsMachine(c, me)
      ensures Valid() && this.c == c && this.me == me && node == EmptyNode()
      ensures forall r ::
        0 <= r < |c.replicas| == |needAck| ==> needAck[r] == (r in c.order[..Min(|c.order|, c.factor - 1)])
    {
      this.c, this.me := c, me;
      var partitions: set<Machine> := {};
      for p := 0 to c.partitions
        invariant partitions == set q | 0 <= q < p && q != me.partition :: Machine(me.region, me.replica, q)
      {
        if p != me.partition {
          partitions := partitions + {Machine(me.region, me.replica, p)};
        }
      }
      otherPartitions := partitions;
      var replicas: set<Machine> := {};
      for rep := 0 to c.replicas[me.region]
        invariant replicas == set q | 0 <= q < rep && q != me.replica :: Machine(me.region, q, me.partition)
      {
        if rep != me.replica {
          replicas := replicas + {Machine(me.region, rep, me.partition)};
        }
      }
      otherReplicas := replicas;
      var need := seq(|c.replicas|, i => false);
      var asked := Min(|c.order|, c.factor - 1);
      for r := 0 to asked
        invariant |need| == |c.replicas|
        invariant forall q :: 0 <= q < |need| ==> need[q] == (q in c.order[..r])
      {
        need := need[c.order[r] := true];
        assert c.order[..r + 1] == c.order[..r] + [c.order[r]];
      }
      needAck := need;
      localLog, homeLog := LocalLogs.Empty(), BatchLogs.Empty();
      node := EmptyNode();
    }

    /** Copies of a message to the machines a relay concerns. */
    method Targets(from: Machine) returns (dest: set<Machine>)
      requires Valid()
      ensures dest == Relay(c, me, from)
    {
      var firstTimeRegion := from.region != me.region;
      var firstTimeReplica := firstTimeRegion || from.replica != me.replica;
      dest := {};
      if firstTimeRegion {
        dest := dest + otherReplicas;
      }
      if firstTimeReplica {
        dest := dest + otherPartitions;
      }
    }

    method ProcessBatchReplicationAck(m: Msg) returns (out: multiset<Msg>)
      requires Valid() && m.Ack? && m.to == me
      modifies this
      ensures Valid() && (node, out) == OnAck(c, old(node), m)
    {
      var dest := Targets(m.from);
      out := multiset(set d | d in dest :: Ack(me, d, m.id));
      homeLog := BatchLogs.AckReplication(homeLog, m.id);
      node := OnAck(c, node, m).0;
    }

    method ProcessForwardBatchData(m: Msg) returns (out: multiset<Msg>)
      requires Valid() && m.Data? && m.to == me
      modifies this
      ensures Valid() && (node, out) == OnData(c, old(node), m)
    {
      var dest := Targets(m.from);
      out := multiset(set d | d in dest :: Data(me, d, m.gen, m.pos, m.id, d.replica != me.replica));
      if me.region == c.home {
        var added := LocalLogs.AddBatchId(localLog, m.gen, m.pos, m.id);
        if added.Some? {
          localLog := added.value;
        }
      }
      homeLog := BatchLogs.AddBatch(homeLog, m.id, ());
      node := OnData(c, node, m).0;
    }

    method ProcessForwardBatchOrder(m: Msg) returns (out: multiset<Msg>)
      requires Valid() && (m.LocalOrder? || m.RemoteOrder?) && m.to == me
      modifies this
      ensures Valid() && (node, out) == Process(c, old(node), m)
    {
      match m
      case LocalOrder(from, _, slot, gen, leader) =>
        var added := LocalLogs.AddSlot(localLog, slot, LocalLogs.Choice(gen, leader));
        if added.Some? {
          localLog := added.value;
        }
        out := multiset{};
        if leader.replica != me.replica && from.partition == me.partition {
          out := multiset(set d | d in otherPartitions :: LocalOrder(me, d, slot, gen, leader));
        }
        node := OnLocalOrder(c, node, m).0;
      case RemoteOrder(from, _, slot, id, wantsAck) =>
        var dest := Targets(from);
        out := multiset(set d | d in dest :: RemoteOrder(me, d, slot, id, wantsAck));
        assert out + multiset{} == out;
        if from.region != me.region && wantsAck {
          out := out + multiset{Ack(me, from, id)};
        }
        var added := BatchLogs.AddSlot(homeLog, slot, id, 0);
        if added.Some? {
          homeLog := added.value;
        }
        node := OnRemoteOrder(c, node, m).0;
    }

    /** The leader's part of AdvanceLog: one order for every other region, with an ack asked of some. */
    method ReplicateOrder(slot: nat, id: BatchId) returns (out: multiset<Msg>)
      requires Valid()
      ensures out == OrderAbroad(c, me, slot, id)
    {
      hide OrdersUpTo, Entry, NeedAck, Asked;
      var plain: set<Msg>, asking: set<Msg> := {}, {};
      NoOrders(c, me, slot, id);
      for reg := 0 to |c.replicas|
        invariant plain + asking == OrdersUpTo(c, me, slot, id, reg)
        invariant forall x :: x in plain ==> x.RemoteOrder? && !x.needAck
        invariant forall x :: x in asking ==> x.RemoteOrder? && x.needAck
      {
        OneMoreOrder(c, me, slot, id, reg);
        if reg != c.home {
          var recipient := RecipientIn(reg);
          MarkedAreAsked(c, reg);
          if needAck[reg] {
            asking := asking + {RemoteOrder(me, recipient, slot, id, true)};
          } else {
            plain := plain + {RemoteOrder(me, recipient, slot, id, false)};
          }
        }
      }
      out := multiset(plain) + multiset(asking);
      AllOrders(c, me, slot, id);
      assert plain !! asking;
      DisjointSum(plain, asking);
    }

    method RecipientIn(reg: nat) returns (recipient: Machine)
      requires Valid() && reg < |c.replicas|
      ensures recipient == Entry(c, reg)
    {
      var part := (reg + |c.replicas| - c.home) % |c.replicas| % c.partitions;
      recipient := Machine(reg, 0, part);
    }

    /** One round of the first loop of AdvanceLog. */
    method AdvanceOne() returns (orders: multiset<Msg>)
      requires Valid() && localLog.ready != []
      modifies this
      ensures Valid() && localLog == LocalLogs.NextBatch(old(localLog))
      ensures var e := old(localLog.ready[0]);
              && node == Node(LocalLogs.Step(old(node).local, LocalLogs.OpNext),
                              BatchLogs.Step(old(node).log, BatchLogs.OpAddSlot(e.slot, e.id, c.factor - 1)))
              && orders == if me == e.leader then OrderAbroad(c, me, e.slot, e.id) else multiset{}
    {
      hide OrderAbroad, BatchLogs.AddSlot, LocalLogs.NextBatch;
      var e := localLog.ready[0];
      orders := multiset{};
      if me == e.leader {
        orders := ReplicateOrder(e.slot, e.id);
      }
      localLog := LocalLogs.NextBatch(localLog);
      var added := BatchLogs.AddSlot(homeLog, e.slot, e.id, c.factor - 1);
      if added.Some? {
        homeLog := added.value;
      }
      node := Node(LocalLogs.Step(node.local, LocalLogs.OpNext),
                   BatchLogs.Step(node.log, BatchLogs.OpAddSlot(e.slot, e.id, c.factor - 1)));
    }

    /** First loop of AdvanceLog. */
    method AdvanceLocalLog() returns (out: multiset<Msg>)
      requires Valid()
      modifies this
      ensures Valid() && (node, out) == DrainLocal(c, me, old(node))
    {
      hide OrderAbroad, BatchLogs.Step, LocalLogs.Step;
      out := multiset{};
      assert multiset{} + DrainLocal(c, me, node).1 == DrainLocal(c, me, node).1;
      while localLog.ready != []
        invariant Valid()
        invariant DrainLocal(c, me, old(node)).0 == DrainLocal(c, me, node).0
        invariant DrainLocal(c, me, old(node)).1 == out + DrainLocal(c, me, node).1
        decreases |localLog.ready|
      {
        ghost var before := node;
        var orders := AdvanceOne();
        assert DrainLocal(c, me, before).1 == orders + DrainLocal(c, me, node).1;
        out := out + orders;
      }
      assert out + multiset{} == out;
    }

    /** Second loop of AdvanceLog: emit every ready batch. A ready batch without data, which the
        original would dereference, ends the loop. */
    method EmitReady() returns (emitted: seq<BatchId>)
      requires Valid()
      modifies this
      ensures Valid() && node == old(node).(log := BatchLogs.Drain(old(node).log))
      ensures |node.log.out| == |old(node).log.out| + |emitted|
      ensures forall i :: 0 <= i < |emitted| ==> emitted[i] == node.log.out[|old(node).log.out| + i].1
    {
      emitted := [];
      while homeLog.ready != [] && homeLog.ready[0].1 in homeLog.batches
        invariant Valid() && node.local == old(node).local
        invariant BatchLogs.Drain(node.log) == BatchLogs.Drain(old(node).log)
        invariant |node.log.out| == |old(node).log.out| + |emitted|
        invariant forall i :: 0 <= i < |emitted| ==> emitted[i] == node.log.out[|old(node).log.out| + i].1
        decreases |homeLog.ready|
      {
        var id := homeLog.ready[0].1;
        homeLog := BatchLogs.NextBatch(homeLog);
        node := node.(log := BatchLogs.Step(node.log, BatchLogs.OpNext));
        emitted := emitted + [id];
      }
    }

    /** OnInternalRequestReceived: the batches emitted are those the log released since the call. */
    method OnReceived(m: Msg) returns (out: multiset<Msg>, emitted: seq<BatchId>)
      requires Valid() && m.to == me
      modifies this
      ensures Valid() && (node, out) == Handle(c, old(node), m)
      ensures |node.log.out| == |old(node).log.out| + |emitted|
      ensures forall i :: 0 <= i < |emitted| ==> emitted[i] == node.log.out[|old(node).log.out| + i].1
    {
      hide DrainLocal, BatchLogs.Drain, OnAck, OnData, OnLocalOrder, OnRemoteOrder;
      var out1, out2;
      ProcessKeepsOut(c, node, m);
      match m {
        case Ack(_, _, _) => out1 := ProcessBatchReplicationAck(m);
        case Data(_, _, _, _, _, _) => out1 := ProcessForwardBatchData(m);
        case _ => out1 := ProcessForwardBatchOrder(m);
      }
      DrainLocalKeepsOut(c, me, node);
      out2 := AdvanceLocalLog();
      emitted := EmitReady();
      out := out1 + out2;
    }
  }
}
