/** Machine, transaction and batch identifiers of common/types.h. The shifts and ors of the
    original act on disjoint bit fields and are written as multiplications and sums. */
module Ids {

  /** A machine by its place in the cluster; the fields must fit RegionId, ReplicaId and PartitionId. */
  datatype Machine = Machine(region: nat, replica: nat, partition: nat)

  predicate Packable(m: Machine) {
    m.region < 0x100 && m.replica < 0x100 && m.partition < 0x1_0000
  }

  /** MakeMachineId */
  function Pack(m: Machine): (id: nat)
    ensures Packable(m) ==> id < 0x1_0000_0000
  {
    (m.region * 0x100 + m.replica) * 0x1_0000 + m.partition
  }

  /** UnpackMachineId */
  function Unpack(id: nat): (m: Machine)
    requires id < 0x1_0000_0000
    ensures Packable(m)
  {
    Machine(id / 0x100_0000 % 0x100, id / 0x1_0000 % 0x100, id % 0x1_0000)
  }

  /** Packing and unpacking machine ids are inverse to each other. */
  lemma MachineIdRoundTrip(m: Machine, id: nat)
    requires Packable(m) && id < 0x1_0000_0000
    ensures Unpack(Pack(m)) == m
    ensures Pack(Unpack(id)) == id
  {
    var high := m.region * 0x100 + m.replica;
    assert Pack(m) / 0x1_0000 == high && Pack(m) % 0x1_0000 == m.partition;
    assert Pack(m) / 0x100_0000 == m.region;
    assert id / 0x100_0000 == id / 0x1_0000 / 0x100;
  }

  /** TXN_ID and the batch ids of Batcher and MultiHomeOrderer: a per-machine counter above the machine id. */
  function Tagged(m: Machine, counter: nat): nat {
    counter * 0x1_0000_0000 + Pack(m)
  }

  /** Ids made by different machines, or by one machine at different counters, differ. */
  lemma TaggedInjective(m1: Machine, c1: nat, m2: Machine, c2: nat)
    requires Packable(m1) && Packable(m2) && Tagged(m1, c1) == Tagged(m2, c2)
    ensures m1 == m2 && c1 == c2
  {
    MachineIdRoundTrip(m1, Pack(m1));
    MachineIdRoundTrip(m2, Pack(m2));
    assert Tagged(m1, c1) / 0x1_0000_0000 == c1 && Tagged(m2, c2) / 0x1_0000_0000 == c2;
  }
}
