/** The ordered log of one home region, end to end: batches are made by the sequencers of the
    home region, their order is agreed by the region's Paxos group, and the log managers of all
    machines of all regions (module/log_manager.cpp) relay data, orders and acks to each other
    and release the batches. The network delivers every message once, in any order. */
module LogSystem {
  import opened Prelude
  import opened Ids
  import Paxos
  import LocalLogs
  import BatchLogs

  type BatchId = nat

  // ---------------------------------------------------------------------
  // Configuration
  // ---------------------------------------------------------------------

  /** `home` is the region whose log is followed, `order` its replication order, `rrr` the
      round-robin option of the sequencer, and `acceptors` the voters of its Paxos group. */
  datatype Cluster = Cluster(
    replicas: seq<nat>,
    partitions: nat,
    home: nat,
    factor: nat,
    order: seq<nat>,
    rrr: bool,
    acceptors: set<Machine>)

  predicate IsMachine(c: Cluster, m: Machine) {
    m.region < |c.replicas| && m.replica < c.replicas[m.region] && m.partition < c.partitions
  }

  predicate AtHome(c: Cluster, m: Machine) {
    IsMachine(c, m) && m.region == c.home
  }

  ghost predicate ValidCluster(c: Cluster) {
    && |c.replicas| <= 0x100 && c.home < |c.replicas|
    && 0 < c.partitions <= 0x1_0000
    && (forall r :: 0 <= r < |c.replicas| ==> 0 < c.replicas[r] <= 0x100)
    && 0 < c.factor
    && (forall i :: 0 <= i < |c.order| ==> c.order[i] < |c.replicas| && c.order[i] != c.home)
    && (forall a :: a in c.acceptors ==> AtHome(c, a)) && LeaderOf(c) in c.acceptors
  }

  function LeaderOf(c: Cluster): Machine {
    Machine(c.home, 0, 0)
  }

  function RegionMachines(c: Cluster, r: nat): set<Machine>
    requires r < |c.replicas|
  {
    set rep, p | 0 <= rep < c.replicas[r] && 0 <= p < c.partitions :: Machine(r, rep, p)
  }

  function AllMachines(c: Cluster): set<Machine> {
    set r, rep, p | 0 <= r < |c.replicas| && 0 <= rep < c.replicas[r] && 0 <= p < c.partitions :: Machine(r, rep, p)
  }

  predicate IsLearner(c: Cluster, m: Machine) {
    AtHome(c, m) && (m.replica == 0 || m.partition == 0)
  }

  function Group(c: Cluster): Paxos.Config
    requires c.home < |c.replicas|
  {
    Paxos.Config(RegionMachines(c, c.home), c.acceptors,
                 (set m | m in RegionMachines(c, c.home) && IsLearner(c, m)), LeaderOf(c))
  }

  /** The regions marked in need_ack_from_region_. */
  predicate NeedAck(c: Cluster, r: nat) {
    exists i :: 0 <= i < |c.order| && i < c.factor - 1 && c.order[i] == r
  }

  /** The regions whose acks a batch waits for: the first factor - 1 of the replication order. */
  ghost function Asked(c: Cluster): set<nat>
    requires 0 < c.factor
  {
    Elements(c.order[..Min(|c.order|, c.factor - 1)])
  }

  lemma MarkedAreAsked(c: Cluster, r: nat)
    requires 0 < c.factor
    ensures NeedAck(c, r) <==> r in Asked(c)
  {
    var asked := c.order[..Min(|c.order|, c.factor - 1)];
    if r in Asked(c) {
      var i :| 0 <= i < |asked| && asked[i] == r;
      assert c.order[i] == r;
    }
    if NeedAck(c, r) {
      var i :| 0 <= i < |c.order| && i < c.factor - 1 && c.order[i] == r;
      assert asked[i] == r;
    }
  }

  /** The replication order names factor - 1 regions first, and none of them twice. */
  ghost predicate EnoughRegions(c: Cluster) {
    c.factor - 1 <= |c.order| && forall i, j :: 0 <= i < j < c.factor - 1 ==> c.order[i] != c.order[j]
  }

  /** As many regions are asked as acks are waited for exactly if the order names enough. */
  lemma EnoughAsked(c: Cluster)
    requires 0 < c.factor
    ensures |Asked(c)| <= c.factor - 1
    ensures |Asked(c)| == c.factor - 1 <==> EnoughRegions(c)
  {
    var asked := c.order[..Min(|c.order|, c.factor - 1)];
    FewElements(asked);
    AllDifferent(asked);
    if c.factor - 1 <= |c.order| {
      assert forall i :: 0 <= i < c.factor - 1 ==> asked[i] == c.order[i];
    }
  }

  /** The partition of another region that the leader sends orders to. */
  function EntryPartition(c: Cluster, r: nat): nat
    requires c.home < |c.replicas| && 0 < c.partitions
  {
    (r + |c.replicas| - c.home) % |c.replicas| % c.partitions
  }

  function Entry(c: Cluster, r: nat): Machine
    requires c.home < |c.replicas| && 0 < c.partitions
  {
    Machine(r, 0, EntryPartition(c, r))
  }

  /** The partition that batch data from generator g enters another replica or region at. */
  function DataPartition(c: Cluster, g: Machine, pos: nat, m: Machine): nat
    requires ValidCluster(c)
  {
    if c.rrr then pos % c.partitions
    else if m.region != c.home then EntryPartition(c, m.region)
    else (m.replica + c.replicas[c.home] - g.replica) % c.replicas[c.home] % c.partitions
  }

  lemma ModBelowTwice(x: nat, n: nat)
    requires x < 2 * n
    ensures x % n == if x < n then x else x - n
  {
    if x >= n {
      assert x % n == (x - n) % n by { assert x == (x - n) + n; }
    }
  }

  lemma ModAround(h: nat, d: nat, n: nat)
    requires h < n && d < n
    ensures ((h + d) % n + n - h) % n == d
  {
    ModBelowTwice(h + d, n);
    ModBelowTwice((h + d) % n + n - h, n);
  }

  lemma NotAround(h: nat, d: nat, n: nat)
    requires h < n && 0 < d < n
    ensures (h + d) % n != h
  {
    ModAround(h, d, n);
    assert (h + n - h) % n == 0;
  }

  /** The other regions, in their order after the home, are entered at one partition after the
      other. */
  lemma RegionsTakeTurns(c: Cluster, d: nat)
    requires ValidCluster(c) && 0 < d < |c.replicas|
    ensures var r := (c.home + d) % |c.replicas|;
      r != c.home && Entry(c, r) == Machine(r, 0, d % c.partitions)
  {
    ModAround(c.home, d, |c.replicas|);
    NotAround(c.home, d, |c.replicas|);
  }

  /** And so are they by the data of batches, and the other replicas of the home region, in their
      order after the generator's; with the option set the batches of a generator take turns. */
  lemma DataTakesTurns(c: Cluster, g: Machine, pos: nat, d: nat)
    requires ValidCluster(c) && AtHome(c, g) && 0 < d
    ensures c.rrr ==> forall m :: DataPartition(c, g, pos, m) == pos % c.partitions
    ensures !c.rrr && d < |c.replicas| ==>
      DataPartition(c, g, pos, Machine((c.home + d) % |c.replicas|, 0, 0)) == d % c.partitions
    ensures !c.rrr && d < c.replicas[c.home] ==>
      DataPartition(c, g, pos, Machine(c.home, (g.replica + d) % c.replicas[c.home], 0)) == d % c.partitions
  {
    if d < |c.replicas| { RegionsTakeTurns(c, d); }
    if d < c.replicas[c.home] { ModAround(g.replica, d, c.replicas[c.home]); }
  }

  /** Batcher: the batch with counter pos + 1 is sent at generator position pos. */
  function IdOf(g: Machine, pos: nat): BatchId {
    Tagged(g, pos + 1)
  }

  // ---------------------------------------------------------------------
  // Messages on the log channel of the home region
  // ---------------------------------------------------------------------

  /** `full` data messages carry the batch parts of all partitions, others only the receiver's. */
  datatype Msg =
    | Data(from: Machine, to: Machine, gen: Machine, pos: nat, id: BatchId, full: bool)
    | LocalOrder(from: Machine, to: Machine, slot: nat, gen: Machine, leader: Machine)
    | RemoteOrder(from: Machine, to: Machine, slot: nat, id: BatchId, needAck: bool)
    | Ack(from: Machine, to: Machine, id: BatchId)

  /** A log manager: its local log (used in the home region only) and its log for the home
      region, each with the history of what it was given and what it gave out. */
  datatype Node = Node(local: LocalLogs.Trace<Machine>, log: BatchLogs.Trace<()>)

  // ---------------------------------------------------------------------
  // Handlers
  // ---------------------------------------------------------------------

  function OtherReplicas(c: Cluster, me: Machine): set<Machine>
    requires IsMachine(c, me)
  {
    set rep | 0 <= rep < c.replicas[me.region] && rep != me.replica :: Machine(me.region, rep, me.partition)
  }

  function OtherPartitions(c: Cluster, me: Machine): set<Machine> {
    set p | 0 <= p < c.partitions && p != me.partition :: Machine(me.region, me.replica, p)
  }

  /** Where a message that just arrived is passed on to: to the other replicas the first time
      it reaches the region, to the other partitions the first time it reaches the replica. */
  function Relay(c: Cluster, me: Machine, from: Machine): set<Machine>
    requires IsMachine(c, me)
  {
    (if from.region != me.region then OtherReplicas(c, me) else {}) +
    (if from.region != me.region || from.replica != me.replica then OtherPartitions(c, me) else {})
  }

  /** The replication of one local log entry to the other regions, done by the leader. */
  function OrderAbroad(c: Cluster, me: Machine, slot: nat, id: BatchId): multiset<Msg>
    requires c.home < |c.replicas| && 0 < c.partitions
  {
    multiset(set r | 0 <= r < |c.replicas| && r != c.home :: RemoteOrder(me, Entry(c, r), slot, id, NeedAck(c, r)))
  }

  /** First half of AdvanceLog: move the ready entries of the local log to the home log. */
  function DrainLocal(c: Cluster, me: Machine, n: Node): (Node, multiset<Msg>)
    requires c.home < |c.replicas| && 0 < c.partitions
    decreases |n.local.log.ready|
  {
    if n.local.log.ready == [] then (n, multiset{})
    else
      var e := n.local.log.ready[0];
      var n1 := Node(LocalLogs.Step(n.local, LocalLogs.OpNext),
                     BatchLogs.Step(n.log, BatchLogs.OpAddSlot(e.slot, e.id, c.factor - 1)));
      var (n2, out) := DrainLocal(c, me, n1);
      (n2, (if me == e.leader then OrderAbroad(c, me, e.slot, e.id) else multiset{}) + out)
  }

  /** AdvanceLog: then emit every ready batch. */
  function Advance(c: Cluster, me: Machine, n: Node): (Node, multiset<Msg>)
    requires c.home < |c.replicas| && 0 < c.partitions
  {
    var (n1, out) := DrainLocal(c, me, n);
    (n1.(log := BatchLogs.Drain(n1.log)), out)
  }

  function OnData(c: Cluster, n: Node, m: Msg): (Node, multiset<Msg>)
    requires m.Data? && IsMachine(c, m.to)
  {
    var local' := if m.to.region == c.home then LocalLogs.Step(n.local, LocalLogs.OpBatchId(m.gen, m.pos, m.id))
      else n.local;
    (Node(local', BatchLogs.Step(n.log, BatchLogs.OpAddBatch(m.id, ()))),
     multiset(set d | d in Relay(c, m.to, m.from) :: Data(m.to, d, m.gen, m.pos, m.id, d.replica != m.to.replica)))
  }

  function OnLocalOrder(c: Cluster, n: Node, m: Msg): (Node, multiset<Msg>)
    requires m.LocalOrder? && IsMachine(c, m.to)
  {
    (n.(local := LocalLogs.Step(n.local, LocalLogs.OpSlot(m.slot, LocalLogs.Choice(m.gen, m.leader)))),
     if m.leader.replica != m.to.replica && m.from.partition == m.to.partition
     then multiset(set d | d in OtherPartitions(c, m.to) :: LocalOrder(m.to, d, m.slot, m.gen, m.leader))
     else multiset{})
  }

  function OnRemoteOrder(c: Cluster, n: Node, m: Msg): (Node, multiset<Msg>)
    requires m.RemoteOrder? && IsMachine(c, m.to)
  {
    (n.(log := BatchLogs.Step(n.log, BatchLogs.OpAddSlot(m.slot, m.id, 0))),
     multiset(set d | d in Relay(c, m.to, m.from) :: RemoteOrder(m.to, d, m.slot, m.id, m.needAck)) +
     if m.from.region != m.to.region && m.needAck then multiset{Ack(m.to, m.from, m.id)} else multiset{})
  }

  function OnAck(c: Cluster, n: Node, m: Msg): (Node, multiset<Msg>)
    requires m.Ack? && IsMachine(c, m.to)
  {
    (n.(log := BatchLogs.Step(n.log, BatchLogs.OpAck(m.id))),
     multiset(set d | d in Relay(c, m.to, m.from) :: Ack(m.to, d, m.id)))
  }

  function Process(c: Cluster, n: Node, m: Msg): (Node, multiset<Msg>)
    requires IsMachine(c, m.to)
  {
    match m
    case Data(_, _, _, _, _, _) => OnData(c, n, m)
    case LocalOrder(_, _, _, _, _) => OnLocalOrder(c, n, m)
    case RemoteOrder(_, _, _, _, _) => OnRemoteOrder(c, n, m)
    case Ack(_, _, _) => OnAck(c, n, m)
  }

  /** OnInternalRequestReceived: process the message, then advance the logs. */
  function Handle(c: Cluster, n: Node, m: Msg): (Node, multiset<Msg>)
    requires IsMachine(c, m.to) && c.home < |c.replicas| && 0 < c.partitions
  {
    var (n1, out1) := Process(c, n, m);
    var (n2, out2) := Advance(c, m.to, n1);
    (n2, out1 + out2)
  }

  // ---------------------------------------------------------------------
  // The step system
  // ---------------------------------------------------------------------

  /** `made` counts the batches each generator sent. */
  datatype State = State(
    px: Paxos.State<Machine>,
    made: map<Machine, nat>,
    nodes: map<Machine, Node>,
    sent: multiset<Msg>,
    delivered: multiset<Msg>)

  function EmptyNode(): Node {
    Node(LocalLogs.Exec([]), BatchLogs.Exec([]))
  }

  function Init(c: Cluster): State
    requires c.home < |c.replicas|
  {
    State(Paxos.Init(Group(c)), map m | m in RegionMachines(c, c.home) :: 0,
          map m | m in AllMachines(c) :: EmptyNode(), multiset{}, multiset{})
  }

  datatype Event =
    | Make(gen: Machine)
    | PaxosDelivery(p: Paxos.Msg<Machine>)
    | LogDelivery(m: Msg)

  /** Batcher::SendBatches for one batch: a direct message to every machine of the generator's
      own replica, a full one to the entry of every other replica of the region and to the entry
      in replica 0 of every other region. */
  function DataAbroad(c: Cluster, g: Machine, pos: nat): multiset<Msg>
    requires ValidCluster(c) && AtHome(c, g)
  {
    multiset(set p | 0 <= p < c.partitions ::
               Data(g, Machine(c.home, g.replica, p), g, pos, IdOf(g, pos), false)) +
    multiset(set rep | 0 <= rep < c.replicas[c.home] && rep != g.replica ::
               Data(g, Machine(c.home, rep, DataPartition(c, g, pos, Machine(c.home, rep, 0))), g, pos, IdOf(g, pos),
                 true)) +
    multiset(set r | 0 <= r < |c.replicas| && r != c.home ::
               Data(g, Machine(r, 0, DataPartition(c, g, pos, Machine(r, 0, 0))), g, pos, IdOf(g, pos), true))
  }

  ghost predicate Enabled(c: Cluster, s: State, e: Event)
    requires c.home < |c.replicas|
  {
    match e
    case Make(g) => AtHome(c, g) && g in s.made
    case PaxosDelivery(p) => Paxos.Enabled(Group(c), s.px, Paxos.EvDeliver(p))
    case LogDelivery(m) => IsMachine(c, m.to) && m.to in s.nodes && s.delivered[m] < s.sent[m]
  }

  ghost function Step(c: Cluster, s: State, e: Event): State
    requires ValidCluster(c) && Enabled(c, s, e)
  {
    match e
    case Make(g) =>
      s.(px := Paxos.Submit(s.px, g, g), made := s.made[g := s.made[g] + 1],
         sent := s.sent + DataAbroad(c, g, s.made[g]))
    case PaxosDelivery(p) =>
      s.(px := Paxos.Deliver(Group(c), s.px, p),
         sent := s.sent + if p.Commit? then multiset{LocalOrder(p.to, p.to, p.slot, p.value, p.leader)} else multiset{})
    case LogDelivery(m) =>
      var (n, out) := Handle(c, s.nodes[m.to], m);
      s.(nodes := s.nodes[m.to := n], sent := s.sent + out, delivered := s.delivered + multiset{m})
  }
}
