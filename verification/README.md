# Detock, modelled and proved in Dafny

Detock is a geo-replicated deterministic database: every region masters some of the data,
transactions are put into one order per home region (and one more for transactions of several
homes), and every replica executes the same order. This project models the parts that this rests
on and proves what they promise, over every input, every call sequence or every run.

* **The ordered log.** A stable-leader Multi-Paxos (`Paxos`, `PaxosDrained`, `PaxosObjects`) agrees
  on whose batch is next. `LocalLog` and `BatchLog`, both over `AsyncLog`, turn that into an order of batches and
  release them. `LogSystem` is the whole multi-region system of log managers with its relay trees
  and acks: machines that handle one message at a time, and a network that delivers every message
  once, in any order. `LogSystemProofs`, `LogSystemSafety` and `LogSystemRuns` prove its invariant
  and the end-to-end agreement, `LogSystemDrained` that everything made is emitted, and
  `LogSystemLost` what stops that; `LogManager` is the object itself. `MultiHome` and
  `MultiHomeDrained` do the same for the global order of multi-home transactions.
* **Index and latch.** `HashMap` is the segmented hash map with its linked nodes and in-place
  rehash, proved to be a plain map. `Latch` is the reader-writer latch as a step system of threads,
  condition variables and spurious wakeups.
* **Routing.** `Forwarder` is the batched master lookup among the partitions of a replica,
  `ForwarderMasters` which master each forwarded key carries, `TxnSplit` and `TxnSplitMethods` split and merge transactions, `Worker` gathers the keys of a
  piece, `Server` collects the pieces and answers.
* **TPC-C.** `TpccCodec` and `TpccRows` are keys and rows as bytes, `TpccAdapter` the storage
  adapters, `TpccTables` and `TpccOperations` the table operations, `TpccTxns` the five transactions and key
  generation, `TpccPlaces` the places of the database that each of them touches, `TpccRuns`,
  `TpccEffects`, `TpccOrders`, `TpccColumns`, `TpccStock` and `TpccAccounts` what they do to a database,
  `TpccCommits` when they commit, `TpccExample` an order that goes wrong, `TpccObjects`,
  `TpccProcedures` and `TpccExecution` the objects that run them.
* **Smaller parts.** `Layout` is the key arithmetic that sharders, initializers, key lists and the
  loader share, `Quorum` the Janus quorum trackers, `Ids` the packed identifiers.

Code that changes state is modelled as classes and loops. Each method is proved to do what a
function on values says, and the properties are proved about these functions.

Where a promise does not hold as the code stands, the exact condition is proved instead:

* The latch can lose a wakeup when the number of readers reaches MAX_READERS; it does so for some
  schedule exactly if MAX_READERS is not 1 and there are more than MAX_READERS + 1 threads
  (`Latch.NoLostWakeupIff`).
* The forwarder drops a transaction without keys; it forwards every other one exactly once
  (`Forwarders.DrainedForwardsAll`, `Forwarders.EmptyDropped`).
* A key list made for too few records contains one key, which lies beyond them unless the first key
  of the list does not (`Layout.ListBelowIff`); zipf draws ignore the length of the list
  (`Layout.ZipfHotBelowIff`).
* Two slow quorums of an even number of replicas can be disjoint (`Quorums.QuorumsMeetIffOdd`).
* The check of column types compares names only. A row that passes it reads back as it was written
  exactly if the widths match too (`TpccRows.ReadsBackIff`); the history row that a payment stores
  lacks its text (`TpccRuns.HistoryRowShort`).
* Every update of a row starts again from the stored row, so of several lines of a new order for one
  stock row only the last is taken from it. An order of the workload is taken from the stock in full
  exactly if no two of its lines are for one item of one warehouse (`TpccStocks.AllTakenIff`; for
  other quantities `TpccStocks.RowTakenIff`).
* A delivery dates and charges the lines numbered 1 to 10, while the workload numbers them 0 to 9:
  all lines of an order are delivered exactly if all are numbered 1 to 10 (`TpccOrders.AllDatedIff`).
  `TpccExamples.WorkloadOrderFails` is an order of the workload's kind for which both go wrong,
  `TpccExamples.TwoLinesFail` one with different quantities.
* The Paxos leader counts a commit response on slot 0 whatever slot it is for (paxos/leader.cpp:81),
  and drops that instance after as many as there are acceptors. Slot 0 is then never announced if its
  majority is not in: this happens exactly if at some moment that many responses have come and the
  majority has not (`PaxosDrained.LostIff`), it does happen for some order of delivery
  (`PaxosDrained.SlotZeroCanBeLost`), and it does not if links keep the order of their messages
  (`PaxosDrained.OrderedNeverStarves`). Without slot 0 no machine ever emits anything
  (`LogSystemLost.StallsForever`), and the whole system has such runs (`LogSystemLost.SystemCanStall`).
* A batch waits for replication_factor - 1 acks, and the regions asked are the first replication_factor - 1
  of the replication order. The home region emits everything if that many are there and differ
  (`LogSystemDrained.DrainedEmitsAll`), and otherwise nothing, ever (`LogSystemLost.TooFewAsked`).

Where code and comments differ the model follows the code: erasing from the hash map never lowers
the size that triggers the next rehash, so that size only bounds the number of entries; a select
from a grouped table decodes whatever is stored, also when the row is missing, so that a new order
commits without its items.

## Model

| member | source | states |
|---|---|---|
| `Ids.MachineIdRoundTrip` | common/types.h:26-46 | Packing region, replica and partition into a machine id and unpacking it are inverse to each other, in both directions. |
| `Ids.TaggedInjective` | common/types.h:35-37 | Transaction and batch ids (a counter above a machine id) of different machines, or of one machine at different counters, differ. |
| `AsyncLogs.AsyncLog.Insert` | common/async_log.h:22-32 | The item enters the log at its position; at a position already passed it is dropped, and a filled position is refused; in both cases nothing changes. |
| `AsyncLogs.AsyncLog.Next` | common/async_log.h:38-48 | Returns the next position with its item, drops the item and moves on by one. |
| `BatchLogs.ReleasesLongestPrefix` | common/batch_log.cpp:14-64 | After any sequence of AddBatch, AddSlot, AckReplication and NextBatch calls, emitted plus ready is exactly the longest prefix of slots whose batch data are present and whose acks are in, in slot order, with the emitted data those that were added. |
| `BatchLogs.Confluent` | common/batch_log.cpp:14-64 | Two call sequences that make the same calls, in whatever order, release the same batches. |
| `BatchLogs.ReadyHasData` | common/batch_log.cpp:34-50 | Every ready batch has its data, so NextBatch always finds the batch it is about to return. |
| `BatchLogs.AddBatchInv` | common/batch_log.cpp:14-18 | Adding data keeps emitted plus ready the longest complete prefix of the history with those data. |
| `BatchLogs.AddSlotInv` | common/batch_log.cpp:25-30 | Ordering a batch keeps it too, whether acks came before or come after the slot. |
| `BatchLogs.AckInv` | common/batch_log.cpp:20-23 | An ack keeps it too, for a batch with or without a slot. |
| `BatchLogs.NextInv` | common/batch_log.cpp:34-50 | Taking the next batch moves it from ready to emitted and forgets its data. |
| `BatchLogs.SeenByCalls` | common/batch_log.cpp:14-30 | The recorded history holds exactly what the calls said: slots, data and as many acks as were given. |
| `BatchLogs.LongestUnique` | common/batch_log.cpp:52-64 | The longest complete prefix is unique, so the log's answer is determined by the history. |
| `MutableBatchLog.BatchLog.AddBatch` | common/batch_log.cpp:14-18 | The object's new state is the specified one: data stored, then everything that became ready moved out. |
| `MutableBatchLog.BatchLog.AddSlot` | common/batch_log.cpp:25-30 | The new state is the specified one: the counter raised by the acks needed, the slot inserted or refused, then everything ready moved out. |
| `MutableBatchLog.BatchLog.AckReplication` | common/batch_log.cpp:20-23 | The new state is the specified one: the counter lowered, then everything ready moved out. |
| `MutableBatchLog.BatchLog.NextBatch` | common/batch_log.cpp:34-50 | Returns the first ready slot with its batch and removes both. |
| `MutableBatchLog.BatchLog.UpdateReadyBatches` | common/batch_log.cpp:52-64 | The loop reaches the fixed point: no further batch can be released. |
| `LocalLogs.MergesLongestPrefix` | module/log_manager.cpp:29-64 | For every arrival order of slots and batch ids the k-th output is slot k with the n-th batch of the queue the slot names, n being the number of earlier slots naming it, and emitted plus ready is the longest prefix for which these are known. |
| `LocalLogs.AddSlotInv` | module/log_manager.cpp:34-37 | A slot keeps the log a deterministic merge of what it has seen. |
| `LocalLogs.AddBatchIdInv` | module/log_manager.cpp:29-32 | A batch id keeps it so. |
| `LocalLogs.NextInv` | module/log_manager.cpp:41-48 | Taking an entry keeps it so. |
| `MutableLocalLog.LocalLog.AddBatchId` | module/log_manager.cpp:29-32 | The object's new state is the specified one, or the position is refused. |
| `MutableLocalLog.LocalLog.AddSlot` | module/log_manager.cpp:34-37 | The object's new state is the specified one, or the slot is refused. |
| `MutableLocalLog.LocalLog.NextBatch` | module/log_manager.cpp:41-48 | Returns and removes the first ready entry. |
| `MutableLocalLog.LocalLog.UpdateReadyBatches` | module/log_manager.cpp:50-64 | The loop reaches the fixed point: no further slot can be merged. |
| `Paxos.OneValuePerSlot` | paxos/leader.cpp:62-105 | Any two commits of a slot, at any two moments of a run and to any learners, carry the same value and leader. |
| `Paxos.CommitNeedsMajority` | paxos/leader.cpp:62-92 | A commit is sent to a learner at most once, and only after accepts of a majority of distinct acceptors, each of which was offered that slot with that value, were counted. |
| `PaxosDrained.BroadcastIffMajority` | paxos/leader.cpp:62-92 | At every moment of every run a slot has been broadcast to a learner, once, exactly if the answers of more than half of the acceptors for it have reached the leader and, for slot 0, at no moment as many commit responses as acceptors had come before that. |
| `Paxos.NextIsHighest` | paxos/leader.cpp:51-60 | In every run the next empty slot of a machine other than the leader is one above the highest slot whose commit it has received, and 0 before the first. |
| `Paxos.HighestBallot` | paxos/acceptor.cpp:26-36 | Whatever ballots come in whatever order, an acceptor keeps the highest and answers a request exactly if no higher ballot came before it. |
| `Paxos.SlotsGapFree` | paxos/leader.cpp:51-60 | The leader's slots are 0, 1, 2, ... with one per proposal handled, and commits never move its next empty slot. |
| `PaxosDrained.DrainedMeansLearned` | paxos/leader.cpp:62-92 | Once nothing is in flight every slot but slot 0 has reached every learner exactly once; slot 0 has, exactly if at no moment as many commit responses as acceptors had come while a majority of accept responses for it had not, and otherwise it has reached nobody. |
| `PaxosDrained.LostIff` | paxos/leader.cpp:80-91 | Over every run: slot 0 is dropped before its majority exactly if there was such a moment. |
| `PaxosDrained.SlotZeroCanBeLost` | paxos/leader.cpp:80-91 | For every group with no more acceptors than learners there is a run that ends with nothing in flight, slot 0 opened and never announced, and slot 1 known to all. |
| `PaxosDrained.OrderedNeverStarves` | paxos/leader.cpp:62-92 | If every link delivers its messages in the order they were sent, slot 0 is never lost. |
| `PaxosDrained.StepCommitInv` | paxos/leader.cpp:80-91 | Every step keeps that instance 0 counts all commit responses and is open until there are as many as acceptors. |
| `Paxos.LogGrows` | paxos/leader.cpp:94-105 | What the leader decided never changes later in a run. |
| `Paxos.StepInv` | paxos/leader.cpp:32-105 | Every step, proposal or delivery in any order, keeps the protocol's invariant. |
| `PaxosObjects.GetMembers` | module/consensus.cpp:15-51 | Acceptors and learners are listed without repeats: the learners are all machines of replica 0 and partition 0 of every other replica; the acceptors are an odd number of partitions of replica 0, or with synchronous local replication of replicas, starting with the leader. |
| `PaxosObjects.Leader.StartNewInstance` | paxos/leader.cpp:94-105 | Opens the next slot and offers it to every acceptor, as the protocol step does. |
| `PaxosObjects.Leader.HandlePropose` | paxos/leader.cpp:32-49 | The leader opens an instance; any other machine passes the proposal on to the leader. |
| `PaxosObjects.Leader.HandleAccepted` | paxos/leader.cpp:62-79 | Counts an accept, and on reaching the majority broadcasts the commit to every learner. |
| `PaxosObjects.Leader.HandleCommitted` | paxos/leader.cpp:80-92 | Counts a commit response on slot 0 whatever slot it names, as the code does. |
| `PaxosObjects.Acceptor.ProcessAcceptRequest` | paxos/acceptor.cpp:26-36 | Answers an accept request unless its ballot is old, and keeps the higher ballot. |
| `PaxosObjects.SimulatedMultiPaxos.OnReceived` | paxos/simulated_multi_paxos.cpp:15-21 | One received message changes the object and sends messages exactly as the protocol step does. |
| `LogSystemRuns.EmittedLogsAgree` | module/log_manager.cpp:193-319 | End to end: what any two machines, of any regions, replicas and partitions, have emitted for a home region at any two moments of any run, one is a prefix of the other. |
| `LogSystemRuns.EmitsAgreedPrefix` | module/log_manager.cpp:253-319 | Every machine's output is a prefix of the batches that the agreed slots name. |
| `LogSystemRuns.SentAtMostOnce` | module/log_manager.cpp:113-298 | In every reachable state a slot order, a local order or a batch has been sent to a machine at most once, and a region's ack for a batch to the leader at most once. |
| `LogSystemRuns.AcksAtMostOnce` | module/log_manager.cpp:113-133 | In every reachable state no home machine has counted more acks for a batch than regions whose ack reached the leader, which are at most replication_factor - 1, and each counts what its sender passed on. |
| `LogSystemDrained.DrainedReachesAll` | module/log_manager.cpp:193-298 | Once nothing is in flight every batch has reached every machine of every region exactly once, every slot every home machine and, as an order, every other machine exactly once, unless slot 0 was lost; then slot 0 has reached nobody and no order was sent. |
| `LogSystemDrained.DrainedAcks` | module/log_manager.cpp:86-133 | Once the network has drained every home machine has counted, for every slot the leader ordered, exactly one ack of each of the first replication_factor - 1 regions of the replication order, and none for other slots. |
| `LogSystemDrained.DrainedEmitsAll` | module/log_manager.cpp:253-319 | Once nothing is in flight every machine has emitted one batch per slot, exactly if slot 0 was not lost and, in the home region, the replication order names replication_factor - 1 regions first, none of them twice; otherwise nothing. |
| `LogSystemDrained.EveryBatchEmitted` | module/log_manager.cpp:193-319 | Then every batch that any generator has made stands in the output of every such machine exactly once. |
| `LogSystemDrained.AllOrdered` | paxos/leader.cpp:94-105 | A generator never has more slots than batches made, and as many once nothing is in flight. |
| `LogSystemDrained.LostIff` | paxos/leader.cpp:80-91 | In every run of the whole system slot 0 is lost exactly if it starved at some moment. |
| `LogSystemLost.SystemCanStall` | paxos/leader.cpp:80-91 | For every cluster with no more acceptors than learners there is a run of the whole system that opens two slots and loses slot 0. |
| `LogSystemLost.StallsForever` | module/log_manager.cpp:253-319 | Once slot 0 is lost, no machine of any region ever emits anything, however the run goes on. |
| `LogSystemLost.TooFewAsked` | module/log_manager.cpp:86-91 | If the replication order is shorter than replication_factor - 1, or repeats a region among its first replication_factor - 1, no home machine emits anything in any run. |
| `LogSystem.EnoughAsked` | module/log_manager.cpp:86-91 | The distinct regions asked for acks are as many as a batch waits for exactly if the replication order is long enough and its first replication_factor - 1 entries differ. |
| `LogSystem.MarkedAreAsked` | module/log_manager.cpp:86-91 | A region is marked as asked exactly if it is among the first replication_factor - 1 of the replication order. |
| `LogSystem.RegionsTakeTurns` | module/log_manager.cpp:281-285 | The d-th region after the home region gets its orders at partition d modulo the number of partitions. |
| `LogSystem.DataTakesTurns` | module/sequencer_components/batcher.cpp:190-212 | So it gets batch data, and so does the d-th replica after the generator's; with the round-robin option the position of the batch decides instead. |
| `LogSystemLost.NobodyAskedIsValid` | module/log_manager.cpp:86-91 | A cluster of two regions with replication factor 2 and an empty replication order is such a one. |
| `LogSystemRuns.EmittedWasReplicated` | module/log_manager.cpp:86-133 | A home machine has emitted a batch only after exactly replication_factor - 1 distinct other regions had received its order and acked it. |
| `LogSystemRuns.NeverFails` | module/log_manager.cpp:193-251 | No run hits a failure branch: no log position is filled twice, and batch data carry all partitions exactly when they enter a replica. |
| `LogSystemRuns.StepInv` | module/log_manager.cpp:113-319 | Every step of the multi-region system keeps the invariant. |
| `LogSystemSafety.AtMostOnce` | module/log_manager.cpp:113-298 | A message of a relay tree is sent at most once, by induction on the depth of its receiver. |
| `LogSystemSafety.AckedByBounded` | module/log_manager.cpp:86-91 | No more regions ack a slot than were asked to. |
| `LogSystemProofs.RelayIsChildren` | module/log_manager.cpp:113-133 | The machines a receiver relays to are exactly those whose message comes from it. |
| `LogSystemProofs.LocalRelayIsChildren` | module/log_manager.cpp:200-215 | The same for orders within the home region. |
| `LogSystemProofs.MergedIsTarget` | module/log_manager.cpp:50-64 | What the local log merges for a slot is the batch the agreed order gives that slot. |
| `LogSystemProofs.TargetInjective` | module/log_manager.cpp:50-64 | Different slots get different batches. |
| `LogManagers.LogManager.constructor` | module/log_manager.cpp:66-92 | A new log manager holds empty logs and the relay lists of its place in the cluster, and marks for acks exactly the first replication_factor - 1 regions of the replication order. |
| `LogManagers.LogManager.ProcessBatchReplicationAck` | module/log_manager.cpp:113-133 | Handles an ack and relays it exactly as the specified step does. |
| `LogManagers.LogManager.ProcessForwardBatchData` | module/log_manager.cpp:135-191 | Handles batch data and relays them exactly as the specified step does. |
| `LogManagers.LogManager.ProcessForwardBatchOrder` | module/log_manager.cpp:193-251 | Handles a local or remote order, with its relay and ack, exactly as the specified step does. |
| `LogManagers.LogManager.AdvanceLocalLog` | module/log_manager.cpp:253-298 | Drains the local log into the home log and replicates each order abroad. |
| `LogManagers.LogManager.EmitReady` | module/log_manager.cpp:300-319 | Emits every ready batch in order. |
| `LogManagers.LogManager.OnReceived` | module/log_manager.cpp:94-111 | One received message changes the object and sends as the specified step does, and the batches emitted are, in order, all that the log released since the call. |
| `MultiHome.StreamIsProjection` | module/multi_home_orderer.cpp:64-105 | What a region's orderer has sent to its sequencer is a prefix of the global sequence, as it is then or at any later moment, projected onto the transactions that involve the region. |
| `MultiHome.ProjectCounts` | module/multi_home_orderer.cpp:107-129 | The projection onto a region holds each transaction that lists the region as often as the sequence does, and no other. |
| `MultiHome.StreamHasNoGaps` | module/multi_home_orderer.cpp:64-105 | A region's stream holds only transactions that list the region, and before each of them every earlier transaction of the global sequence that lists it. |
| `MultiHome.GlobalGrows` | module/multi_home_orderer.cpp:64-105 | There is one global sequence in a run: at a later moment it continues the earlier one. |
| `MultiHomeDrained.DrainedStreams` | module/multi_home_orderer.cpp:64-152 | Once nothing is in flight every region's sequencer has its projection of all multi-home transactions ever sent in a batch, in the one global order, with every one that lists the region, exactly if slot 0 of the global Paxos was not lost; otherwise nothing. |
| `MultiHomeDrained.AddedIsStreamed` | module/multi_home_orderer.cpp:64-152 | Once nothing is in flight and no batch is being filled, a region's sequencer has been given each transaction that was ever added and lists the region exactly once, and no other transaction, unless slot 0 was lost. |
| `MultiHome.RegionsAgree` | module/multi_home_orderer.cpp:88-105 | Two regions never disagree on the order of two transactions that both have seen, at whatever two moments their streams are compared. |
| `MultiHome.GlobalNoRepeats` | module/multi_home_orderer.cpp:107-152 | The global sequence holds no transaction twice. |
| `MultiHome.SlotsDistinct` | module/consensus.cpp:66-75 | No multi-home batch gets two slots. |
| `MultiHome.StepInv` | module/multi_home_orderer.cpp:64-152 | Every step keeps the invariant of the multi-home ordering. |
| `MultiHomeOrderers.MultiHomeOrderer.NewBatch` | module/multi_home_orderer.cpp:26-37 | Starts an empty batch under the next id. |
| `MultiHomeOrderers.MultiHomeOrderer.AddToBatch` | module/multi_home_orderer.cpp:107-129 | Appends the transaction to the part of each region it lists and changes no other part; reports the first of a batch. |
| `MultiHomeOrderers.MultiHomeOrderer.SendBatch` | module/multi_home_orderer.cpp:131-152 | Proposes the id of the batch and sends every region its part, which is the projection of the whole batch onto it. |
| `HashMap.DoublingSplits` | common/concurrent_hash_map.h:171 | Doubling the bucket count sends a key of bucket b to b or to b plus the old count. |
| `HashMap.SameSegmentAndBucket` | common/concurrent_hash_map.h:171-274 | Two hashes share a segment and a bucket exactly when their low bits agree. |
| `HashMap.Segment.constructor` | common/concurrent_hash_map.h:48-51 | A new segment is empty, with as many buckets as asked for. |
| `HashMap.Segment.Get` | common/concurrent_hash_map.h:53-75 | Returns the key's value, or nothing if the map does not hold it. |
| `HashMap.Segment.InsertOrUpdate` | common/concurrent_hash_map.h:90-138 | The map has the key with the new value and is otherwise unchanged; the result says whether the key was there; the size grows by one for a new key, and the buckets double exactly if it then reaches the load limit. |
| `HashMap.Segment.Erase` | common/concurrent_hash_map.h:140-167 | The map has lost the key and nothing else; the result says whether it was there; the size that triggers the next rehash is unchanged. |
| `HashMap.Segment.Rehash` | common/concurrent_hash_map.h:174-197 | Twice the buckets, the same nodes and entries, every node once in the chain of its bucket, and null roots left in the old table. |
| `HashMap.Segment.MoveChain` | common/concurrent_hash_map.h:178-193 | The nodes of one chain are relinked, each once, into the chains of their new buckets. |
| `HashMap.PlacedPush` | common/concurrent_hash_map.h:121-127 | A node pushed at the head of its bucket keeps every node once in its own bucket. |
| `HashMap.PlacedRemove` | common/concurrent_hash_map.h:152-158 | So does taking a node out of its chain. |
| `HashMap.PlacedReplace` | common/concurrent_hash_map.h:101-115 | So does a node that takes the place of another with its key. |
| `HashMap.ConcurrentHashMap.EnsureSegment` | common/concurrent_hash_map.h:276-287 | The segment exists afterwards and the map's entries are unchanged. |
| `HashMap.ConcurrentHashMap.Get` | common/concurrent_hash_map.h:255-258 | A lookup in the two-level map is a lookup in the plain map. |
| `HashMap.ConcurrentHashMap.InsertOrUpdate` | common/concurrent_hash_map.h:260-263 | An insertion or update is one of the plain map, return value included. |
| `HashMap.ConcurrentHashMap.Erase` | common/concurrent_hash_map.h:265-268 | An erasure is one of the plain map, return value included. |
| `Latch.MutualExclusion` | common/rwlatch.h:45-91 | For any number of threads and any schedule a writer shares the latch with no writer and no reader, and at most MAX_READERS read. |
| `Latch.SleepersWaitForSomeone` | common/rwlatch.h:45-91 | With at most MAX_READERS threads, one asleep un-notified on reader_ means a writer has entered, one asleep on writer_ means somebody reads. |
| `Latch.NoLostWakeupIff` | common/rwlatch.h:68-91 | No schedule puts all busy threads to sleep exactly if MAX_READERS is 1 or there are at most MAX_READERS + 1 threads. |
| `Latch.LostWakeup` | common/rwlatch.h:79-91 | A run that ends with a reader asleep on an idle latch, for every larger number of threads. |
| `Latch.StepInv` | common/rwlatch.h:45-91 | Every step keeps the exclusion invariant. |
| `Latch.StepCovered` | common/rwlatch.h:45-91 | With few enough threads every step keeps sleepers on reader_ covered by an entered or full latch. |
| `LatchObjects.ReaderWriterLatch.WLock` | common/rwlatch.h:45-54 | One critical section of WLock changes counter, flag and the thread's place as the step does. |
| `LatchObjects.ReaderWriterLatch.WUnlock` | common/rwlatch.h:59-63 | Clears the flag; everybody on reader_ is then woken. |
| `LatchObjects.ReaderWriterLatch.RLock` | common/rwlatch.h:68-74 | One critical section of RLock, as the step does it. |
| `LatchObjects.ReaderWriterLatch.RUnlock` | common/rwlatch.h:79-91 | Lowers the counter and says exactly which condition variable to notify. |
| `Forwarders.NoOrphan` | module/forwarder.cpp:87-251 | In every reachable state an unresolved key of a pending transaction sits with the id in a batch whose callback is scheduled, in a request to the key's owner, or in the owner's response. |
| `Forwarders.ForwardedOnce` | module/forwarder.cpp:87-251 | A transaction is forwarded at most once, with its own keys, each with the master it came with or one its owner answered, and is then pending nowhere. |
| `ForwarderMasters.ForwardedMasters` | module/forwarder.cpp:87-251 | A transaction is forwarded with the keys it came with. With one region each master is region 0; otherwise a key stored where the transaction came in has exactly the master found there at that moment, another key the master it came with, or else one its owner held when it served a request after that. |
| `Forwarders.DrainedForwardsAll` | module/forwarder.cpp:87-251 | Once callbacks and network have drained nothing is pending, and a transaction has been forwarded exactly if it has keys. |
| `Forwarders.EmptyDropped` | module/forwarder.cpp:129-140 | A run that submits a transaction without keys: everything has drained and it was forwarded to nobody. |
| `Forwarders.UpdateAllMeaning` | module/forwarder.cpp:217-251 | A response touches exactly the pending transactions it names, and forwards, once each, exactly those it completes. |
| `Forwarders.KindOf` | common/proto_utils.cpp:52-91 | The type is unknown exactly if keys or masters are missing; single-home means one master, multi-home two different ones. |
| `Forwarders.StepInv` | module/forwarder.cpp:87-251 | Every step of the replica's forwarders keeps the invariant. |
| `ForwarderObjects.SetTransactionType` | common/proto_utils.cpp:52-91 | The two loops compute that type, and the home: the one master, or -1. |
| `ForwarderObjects.InvolvedPartitions` | common/proto_utils.cpp:189-211 | Flags exactly the partitions that own a key. |
| `ForwarderObjects.Forwarder.ProcessForwardTxn` | module/forwarder.cpp:87-154 | The object changes and forwards as the specified step does. |
| `ForwarderObjects.Forwarder.SendLookupMasterRequestBatch` | module/forwarder.cpp:156-172 | Sends and clears every batch that names a transaction, and uses up the callback. |
| `ForwarderObjects.Forwarder.ProcessLookUpMasterRequest` | module/forwarder.cpp:174-202 | Answers every requested key that belongs here. |
| `ForwarderObjects.Forwarder.UpdateMasterInfo` | module/forwarder.cpp:217-251 | The object changes and forwards as the specified step does. |
| `TxnSplit.SurvivesIff` | common/proto_utils.cpp:93-158 | A lock-only copy survives in a partition exactly if its home masters a key there. |
| `TxnSplit.SurvivorsAgree` | common/proto_utils.cpp:93-158 | The homes whose copies survive in a partition are exactly the sorted regions recorded in each surviving copy, and these differ from the transaction in home, keys and regions only, with the same keys. |
| `TxnSplit.SomeSurvivesIff` | common/proto_utils.cpp:113-211 | Some copy survives in a partition exactly if the partition is involved. |
| `TxnSplit.EntryInOnePiece` | common/proto_utils.cpp:126-139 | Every entry goes to the piece of its partition, as often as it occurs, and to no other. |
| `TxnSplit.InPartConcat` | common/proto_utils.cpp:126-139 | A piece keeps the order of its entries: the piece of a list is the piece of its first part followed by that of the rest. |
| `TxnSplit.MergeStatus` | common/proto_utils.cpp:226-229 | A merge is aborted exactly if some piece is, for the reason of the last aborted one. |
| `TxnSplit.AbortedKeys` | common/proto_utils.cpp:226-240 | From an aborted piece on, a merge takes no more keys. |
| `TxnSplit.MergeIdentity` | module/server.cpp:30-48 | A merge is its first piece but for keys, status, regions and partitions, and lists the partitions in the order in which their pieces came. |
| `TxnSplit.MergeKeys` | common/proto_utils.cpp:229-240 | Pieces may share keys: of each key the merge holds exactly the entries of the first piece to arrive with that key, and none if no piece has it. |
| `TxnSplit.MergeOnce` | common/proto_utils.cpp:229-240 | Of pieces without repeated keys the merge holds a key once if some piece has it, and not otherwise. |
| `TxnSplit.MergeRegions` | common/proto_utils.cpp:245-248 | Merged from several partitions, the regions are the sorted union without repeats. |
| `TxnSplit.SplitMerge` | common/proto_utils.cpp:113-249 | Whatever reads the pieces had exchanged and whatever keys they deleted, merging them in any order gives back the transaction's regions and, unless a piece was aborted, each key as often as it had it, except exactly the keys that every piece with the key deleted. |
| `Workers.ReadLocalStorage` | module/scheduler_components/worker.cpp:172-218 | Every stored key up to the first stale one has its stored value, every other key what it came with; aborts exactly if a stored master differs from the transaction's or a remaster names a missing key, for the reason of the first such key. |
| `Workers.Worker.OnRemoteRead` | module/scheduler_components/worker.cpp:56-109 | Appends the keys another partition sent, or takes over its abort; an aborted transaction takes no more; execution starts with the last one awaited. |
| `Workers.FinishedPiece` | module/scheduler_components/worker.cpp:237-316 | What a worker has gathered, executed by a program that sets values and deletes keys, is a piece of the transaction as the merge results assume. |
| `TxnSplit.SplitMergeSame` | module/scheduler_components/worker.cpp:76-90 | Partitions that delete the same keys answer with the key list less these. |
| `TxnSplit.PieceKeys` | module/scheduler_components/worker.cpp:76-90 | A finished piece holds the keys of its own partition and of those whose reads it was sent, as often as the transaction has them, less those it deleted. |
| `TxnSplitMethods.GeneratePartitionedTxn` | common/proto_utils.cpp:113-158 | The loops compute the partition's piece, or nothing if it has no keys or none mastered at its home. |
| `TxnSplitMethods.EraseForeignKeys` | common/proto_utils.cpp:126-139 | Erasing in place leaves the keys of the partition in order, with the masters flagged. |
| `TxnSplitMethods.PopulateInvolvedRegions` | common/proto_utils.cpp:160-187 | Single-home: the one master; multi-home: the sorted masters without repeats, appended to what was there. |
| `TxnSplitMethods.PopulateInvolvedPartitions` | common/proto_utils.cpp:189-211 | Appends the sorted partitions that own a key, and those that own a written key. |
| `TxnSplitMethods.MergeTransaction` | common/proto_utils.cpp:213-249 | Refuses different ids or types; otherwise merges status, keys and regions as specified. |
| `Servers.AnswersOnce` | module/server.cpp:219-239 | However the pieces of all transactions interleave, nothing fails and a pending transaction is answered exactly once, when the announced number of pieces is in, with their merge; later pieces are ignored. |
| `Servers.SplitIsAnswered` | module/server.cpp:30-48 | A transaction split over its partitions, which exchange reads and may delete keys, is answered once, on its last piece, with its regions and, unless a piece was aborted, exactly the keys that some piece kept. |
| `ServerObjects.AddSubTxn` | module/server.cpp:30-48 | Adds a piece to the record and reports the last one. |
| `ServerObjects.Server.ProcessFinishedSubtxn` | module/server.cpp:219-239 | The server changes and answers as the specified step does; a mismatched piece changes nothing. |
| `ServerObjects.Server.NextTxnId` | module/server.cpp:321-324 | Ids are the machine's id tagged with a counter that grows by one. |
| `TpccCodec.MakeKey` | execution/tpcc/table.h:211-262 | A storage key can be read back: it determines table, primary key and, in an ungrouped table, the column, across all nine schemas. |
| `TpccCodec.KeysInjective` | execution/tpcc/table.h:211-262 | Two storage keys are equal exactly if table, primary key and column are. |
| `TpccCodec.FirstColumnLeads` | execution/tpcc/table.h:223-226 | The first four bytes of every storage key hold the first primary key column, which decides the partition. |
| `TpccCodec.DecodeEncode` | execution/tpcc/scalar.h:79-93 | An integer that fits its width is read back from its bytes. |
| `TpccCodec.EncodeDecode` | execution/tpcc/scalar.h:79-93 | And every byte string of that width is the encoding of the integer read from it. |
| `TpccCodec.LittleEndian` | execution/tpcc/scalar.h:79-93 | Byte i of a stored integer is its i-th digit to the base 256. |
| `TpccCodec.FitsIff` | execution/tpcc/types.h:38-41 | The integers that fit w bytes are those from -256^w/2 to 256^w/2 - 1. |
| `TpccCodec.ScalarRoundTrip` | execution/tpcc/scalar.h:79-93 | A scalar of its column's type and width is read back from its bytes. |
| `TpccCodec.WrapCarry` | execution/tpcc/scalar.h:22-33 | Storing an integer changes it by a multiple of the range of its width only. |
| `TpccRows.RowRoundTrip` | execution/tpcc/table.h:38-69 | Decoding an encoded row at a column's offset returns that column, for values of the columns' widths. |
| `TpccRows.UpdateIsReencode` | execution/tpcc/table.h:109-137 | An in-place update of non-key columns equals re-encoding the row with just those columns replaced. |
| `TpccColumns.SetColumn` | execution/tpcc/table.h:109-137 | Updating a column of any stored row that reaches up to it sets the column and no other. |
| `TpccRows.NarrowTextShortens` | execution/tpcc/table.h:265-270 | A text of a narrower type passes the name check and leaves the row short by the missing width. |
| `TpccRows.InitializeColumnOffsets` | execution/tpcc/table.h:280-296 | Offsets are 0 for primary key columns and the running sum of the widths for the others, which are listed. |
| `TpccEffects.SelectStored` | execution/tpcc/table.h:38-69 | Selecting from a stored row gives back the columns it was made of. |
| `TpccAdapterObjects.TxnStorageAdapter.constructor` | execution/tpcc/storage_adapter.cpp:29-37 | The key index is the exact inverse of the key list exactly if no key occurs twice. |
| `TpccAdapterObjects.TxnStorageAdapter.Read` | execution/tpcc/storage_adapter.cpp:39-46 | Returns the stored value of a listed key. |
| `TpccAdapterObjects.TxnStorageAdapter.Insert` | execution/tpcc/storage_adapter.cpp:48-60 | Sets the new value of a key listed for writing and of no other. |
| `TpccAdapterObjects.TxnStorageAdapter.Update` | execution/tpcc/storage_adapter.cpp:62-75 | Sets the new value from the stored one, if there is one, for a key listed for writing. |
| `TpccAdapterObjects.TxnStorageAdapter.Delete` | execution/tpcc/storage_adapter.cpp:77-91 | The key leaves list and index, every other entry keeps its values, and the index is again the exact inverse of the shifted list. |
| `TpccAdapterObjects.CellsRemove` | execution/tpcc/storage_adapter.cpp:83-89 | Shifting the list and correcting the index on the way removes one entry from the inverse pair and nothing else. |
| `TpccAdapterObjects.TxnKeyGenStorageAdapter.Read` | execution/tpcc/storage_adapter.cpp:95-120 | Declares a key for reading unless it is declared already. |
| `TpccAdapterObjects.TxnKeyGenStorageAdapter.Write` | execution/tpcc/storage_adapter.cpp:100-127 | Declares a key for writing, also if it was declared for reading. |
| `TpccAdapterObjects.TxnKeyGenStorageAdapter.Finalize` | execution/tpcc/storage_adapter.cpp:129-137 | Lists every declared key once, with its type, in some order. |
| `TpccAdapters.Declared` | execution/tpcc/storage_adapter.cpp:95-127 | What a sequence of calls declares: every key asked for, for writing if it was ever asked for in writing. |
| `TpccTxns.KeyGenerationSound` | execution/tpcc/storage_adapter.cpp:29-137 | For each of the five transactions and whatever the key list holds, every adapter call uses a key that key generation declared, and every insert, update or delete one declared for writing. |
| `TpccTxns.ExecutedCalls` | execution/tpcc/transaction.h:14-23 | The keys a transaction asks for do not depend on the database: it stops after reading or goes through all its writes. |
| `TpccTxns.DeclaredKeysAre` | workload/tpcc.cpp:271-274 | Key generation declares exactly the keys of reading and writing. |
| `TpccPlaces.DeclaredPlaces` | workload/tpcc.cpp:271-274 | For each of the five transactions, the declared keys are exactly those of the listed places, by table, primary key and column, among them order lines 1 to 10 of the order for deliveries and order status, and lines 0 to 9 of the 20 orders before for stock level; declared for writing exactly if written. |
| `TpccTables.SelectCalled` | execution/tpcc/table.h:30-106 | A selection asks for the same keys of any adapter and changes no cell. |
| `TpccTables.UpdateCalled` | execution/tpcc/table.h:109-137 | An update asks for the same keys of any adapter, in writing, and changes no other cell. |
| `TpccTables.InsertCalled` | execution/tpcc/table.h:139-178 | So do inserts into and deletes from grouped tables. |
| `TpccOperations.SelectAll` | execution/tpcc/table.h:30-106 | Without a column list a selection of a listed row returns all columns in their order, those of the primary key from the key. |
| `TpccOperations.InsertMeaning` | execution/tpcc/table.h:139-165 | Inserted into a table stored column by column, every column that is listed for writing gets the bytes of its value. |
| `TpccOperations.InsertKeeps` | execution/tpcc/table.h:139-165 | Such an insert changes no other cell. |
| `TpccOperations.InsertSucceedsIff` | execution/tpcc/table.h:139-165 | It succeeds exactly if every column is listed for writing. |
| `TpccOperations.DeleteMeaning` | execution/tpcc/table.h:167-178 | From such a table a delete removes the listed columns of the row, and no other key. |
| `TpccOperations.DeleteSucceedsIff` | execution/tpcc/table.h:167-178 | A delete succeeds exactly if every column is listed. |
| `TpccExecutions.GenerateKeys` | workload/tpcc.cpp:271-274 | The generated key list holds each declared key once, with its type. |
| `TpccTableObjects.TpccTable.Select` | execution/tpcc/table.h:30-106 | Reads the columns through the adapter as specified, from one row or key by key. |
| `TpccTableObjects.TpccTable.Update` | execution/tpcc/table.h:109-137 | Updates the columns through the adapter as specified. |
| `TpccTableObjects.TpccTable.Insert` | execution/tpcc/table.h:139-165 | Inserts the row through the adapter as specified. |
| `TpccTableObjects.TpccTable.Delete` | execution/tpcc/table.h:167-178 | Deletes the row through the adapter as specified. |
| `TpccProcedures.PaymentProcedure.Execute` | execution/tpcc/payment.cpp:19-99 | Read, Compute and Write with its fields do what the specified payment does. |
| `TpccProcedures.NewOrderProcedure.Execute` | execution/tpcc/new_order.cpp:31-134 | Read, Compute and Write with its loops do what the specified new order does. |
| `TpccProcedures.NewOrderProcedure.Compute` | execution/tpcc/new_order.cpp:85-101 | The loop computes amount and stock of every line and whether all are local. |
| `TpccProcedures.DeliverProcedure.Execute` | execution/tpcc/deliver.cpp:17-54 | Read, Compute and Write with its loops do what the specified delivery does. |
| `TpccProcedures.OrderStatusProcedure.Execute` | execution/tpcc/order_status.cpp:14-27 | Reads what the specified order status reads. |
| `TpccProcedures.StockLevelProcedure.Execute` | execution/tpcc/stock_level.cpp:17-32 | Reads what the specified stock level reads. |
| `TpccRuns.RunConserves` | execution/tpcc/payment.cpp:69-99 | Over every run of transactions, committed or aborted, W_YTD minus the sum of the districts' D_YTD never changes modulo 2^64, and not at all where no sum overflows; the rows of the ungrouped tables stay whole. |
| `TpccRuns.StepConserves` | execution/tpcc/payment.cpp:69-99 | The same for one transaction of any kind. |
| `TpccAccounts.AccountStep` | execution/tpcc/payment.cpp:69-99 | Every transaction, committed or aborted, changes BALANCE plus YTD_PAYMENT of a customer by the total it delivers to them: modulo 2^64 always, and exactly where the sums stay in range. |
| `TpccAccounts.AccountRun` | execution/tpcc/deliver.cpp:17-54 | Over every run of transactions BALANCE plus YTD_PAYMENT of a customer grows by the totals of the deliveries to them. |
| `TpccColumns.PaymentEffect` | execution/tpcc/payment.cpp:69-99 | A committed payment adds its amount to W_YTD, D_YTD and YTD_PAYMENT, takes it from BALANCE, counts itself, keeps the data and leaves a history row with the customer's district and warehouse, the date and the amount in their columns. |
| `TpccRuns.StaysWhole` | execution/execution.cpp:5-21 | Every transaction leaves each warehouse, district and customer row absent or with all columns at full width. |
| `TpccRuns.RunFrame` | execution/execution.cpp:5-21 | A key that a transaction does not write keeps its value. |
| `TpccPlaces.PlaceFrame` | execution/execution.cpp:5-21 | A transaction, committed or not, changes nothing but the listed places that it writes, in any of the nine tables. |
| `TpccRuns.HistoryRowShort` | execution/tpcc/payment.cpp:96 | What a committed payment stores as its history row passes the check of type names and is 24 bytes shorter than the columns of the table. |
| `TpccRows.ReadsBackIff` | execution/tpcc/table.h:143-155 | A row whose values match the names of the column types reads back as it was written exactly if they match the widths too. |
| `TpccColumns.NewOrderEffect` | execution/tpcc/new_order.cpp:31-134 | A committed new order advances the district's order number; the columns of the order are the customer, the date, no carrier, the number of lines and whether all are local; those of each order line its item, supplier, quantity, amount at the stored price, no date and 24 bytes of district text; the quantity of each stock row is set from the stored row and the last line that names it, its other columns stay. |
| `TpccColumns.DeliverEffect` | execution/tpcc/deliver.cpp:17-54 | A delivery always commits: the new order is gone, the carrier is set on the order and the date on its lines 1 to 10 where these are stored, no other column of them changes, and the customer owes the sum of the amounts of those lines more and has one delivery more. |
| `TpccOrders.DeliveryTouchesIff` | execution/tpcc/deliver.cpp:20-50 | A delivery asks for a line of its order exactly if the line's number is 1 to 10. |
| `TpccColumns.OrderThenDelivery` | execution/tpcc/deliver.cpp:43-54 | After a committed order and its delivery every line of the order has the columns the order gave it, and the date of delivery if its number is 1 to 10, and none otherwise. |
| `TpccOrders.AllDatedIff` | execution/tpcc/deliver.cpp:43-54 | The delivery dates all lines of an order exactly if all are numbered 1 to 10, also where numbers repeat. |
| `TpccOrders.WorkloadLineMissed` | workload/tpcc.cpp:241-252 | Of an order numbered as the workload does, 0 to 9, line 0 stays without a date and the others get it. |
| `TpccOrders.OrderCharged` | execution/tpcc/deliver.cpp:17-41 | The customer is charged the wrapped sum of the amounts of exactly the lines numbered 1 to 10. |
| `TpccStocks.StockAfter` | execution/tpcc/new_order.cpp:121-125 | A stock row named by several lines ends as if its last line alone had been ordered. |
| `TpccStocks.RowTakenIff` | execution/tpcc/new_order.cpp:86-125 | A stock row ends with every line that names it taken from it, one after the other, if it is named once, and does not if the pieces ordered before the last line are no multiple of 91; so while these are fewer than 91, exactly if it is named once. |
| `TpccStocks.AllTakenIff` | workload/tpcc.cpp:237-252 | An order of the workload, with quantities of 1 to 10, is taken from the stock in full exactly if no two of its lines are for the same item of the same warehouse. |
| `TpccExamples.WorkloadOrderFails` | workload/tpcc.cpp:241-252 | A database and an order of ten lines for one item that commits: its delivery misses line 0, and 99 of 100 pieces are left, where taking every line leaves 90. |
| `TpccExamples.TwoLinesFail` | execution/tpcc/new_order.cpp:121-125 | An order of one piece of an item and two more that commits: 98 of 100 pieces are left, where 97 should be. |
| `TpccCommits.NewOrderCommitsIff` | execution/tpcc/new_order.cpp:31-134 | A new order commits exactly if its warehouse, district and customer exist and a stock row for each line; items need not. |
| `TpccCommits.PaymentCommitsIff` | execution/tpcc/payment.cpp:23-99 | A payment commits exactly if its warehouse, district and customer exist. |
| `TpccExecutions.TPCCExecution.ApplyWrites` | execution/execution.cpp:5-21 | Writes the new value of every local write key and deletes the deleted keys. |
| `TpccExecutions.TPCCExecution.RunProcedure` | execution/tpcc.cpp:28-148 | Picks the procedure and runs it as specified. |
| `TpccExecutions.TPCCExecution.Execute` | execution/tpcc.cpp:15-151 | Runs the transaction on its key list; storage is unchanged on abort and otherwise has this partition's writes applied. |
| `TpccExecutions.PartitionsApplyAll` | execution/execution.cpp:5-21 | The partitions, each applying its own keys, together apply all writes. |
| `TpccExecutions.ExecutionsAreRun` | execution/tpcc.cpp:15-151 | Executing on the declared keys in all partitions changes the database as a whole exactly as the specified run does. |
| `Layout.ListKeyPlace` | workload/workload.h:236-257 | Key P*(d*R+m)+p has partition p, home m and place d. |
| `Layout.ListKeyInjective` | workload/workload.h:236-257 | It determines p, m and d. |
| `Layout.EveryKeyListed` | common/sharder.cpp:67 | Every key is of that form, for its own partition and home. |
| `Layout.SecondLayout` | common/sharder.cpp:87-89 | In the second layout regions and partitions change places. |
| `Layout.ListBelowIff` | workload/workload.h:204-211 | All keys of a list are below num_records exactly if its first one is. |
| `Layout.ListBeyond` | workload/workload.h:204-211 | One record in two partitions: the list of the second holds a key beyond it. |
| `Layout.NonDegenerateBelow` | workload/workload.h:204-211 | A list that is not degenerate has all its keys below num_records. |
| `Layout.ListMissesAtMostOne` | workload/workload.h:204-211 | A list misses at most one record of its partition and home. |
| `Layout.ZipfHotBelowIff` | workload/workload.h:228-233 | Zipf draws stay below num_records exactly if the last hot key does. |
| `Layout.ZipfHotBeyond` | workload/workload.h:228-233 | Eleven hot keys over ten records: a draw beyond the records. |
| `Layout.FromKeyMeaning` | storage/init.cpp:135-139 | A thread's first key is the first of the partition at or after its start. |
| `Layout.GenerateRange` | storage/init.cpp:123-131 | One thread writes every P-th key of its range once. |
| `Layout.GenerateSimpleData` | storage/init.cpp:123-142 | The threads together write each key below num_records of the partition exactly once, and no other. |
| `Layout.GenerateSimpleData2` | storage/init.cpp:173-190 | The same for the second layout. |
| `Quorums.AfterReplies` | module/janus/coordinator.h:59-83 | The state after any sequence of replies: fast while the first n agree; otherwise stopped at the first count that reaches both the first disagreement and (n+1)/2; dependencies the exact union of the counted replies. |
| `Quorums.FastIff` | module/janus/coordinator.h:59-83 | Finished fast exactly if n replies are in and the first n agree. |
| `Quorums.SlowMeaning` | module/janus/coordinator.h:59-83 | Finished slow: the counted replies disagree, are (n+1)/2 or more, no shorter prefix is both, and the dependencies are their union. |
| `Quorums.StaysDone` | module/janus/coordinator.h:59-83 | Once done, later replies change nothing. |
| `Quorums.QuorumsMeetIffOdd` | module/janus/coordinator.h:79-83 | Any two slow quorums share a replica exactly if the number of replicas is odd. |
| `QuorumObjects.QuorumDeps.Add` | module/janus/coordinator.h:63-76 | Counts a reply as specified. |

## Left out

- Sockets, serialization, threads, logging, metrics: the network is a multiset of messages, each delivered once, in any order.
- Slot numbers, positions, batch counters and hash sizes are unbounded; the 32-bit and 64-bit wrap-around of these counters is not modelled. Stored TPC-C integers do wrap.
- Batches and their contents in the log system are identified by generator and position; how the batcher forms them, and its delayed sending, is not modelled.
- Each home region's log is followed by itself; the log managers' traffic for different home regions does not interact.
- Proposals that are lost before they reach the leader; liveness of Paxos beyond what holds once the network has drained; leader changes, which the code does not have.
- LocalLogs.MergesLongestPrefix: positions of one queue are given once each, as the batcher numbers them; a second insertion at a position is refused.
- MultiHomeOrderers.MultiHomeOrderer.AddToBatch: the callback that sends a batch after a while is reported, not timed.
- HashMap.ConcurrentHashMap.EnsureSegment: two threads that race to create a segment; operations are atomic because each holds its segment's latch. GetUnsafe, which does not, is not modelled.
- Hash values are arbitrary numbers and the load factor is the exact product of the 32-bit constant with a power of two.
- Destruction of tables and nodes; `HashMap.Segment.Rehash` states that the old table holds no node when it is dropped.
- LatchObjects.ReaderWriterLatch.WUnlock: waking the sleepers is part of the step, not of the method.
- Forwarders.ForwardedOnce: where a forwarded transaction is sent to; keys the sharder cannot parse; latency probes.
- Forwarders.NoOrphan: the answer of a lookup is any master its owner gives at that time.
- Remaster transactions keep only the flag that exempts them from the redundancy test in `GeneratePartitionedTxn`; the variants behind preprocessor flags are not modelled.
- TxnSplit.SplitMerge: event lists and log positions that a merge concatenates; a deletion from a key list with repeated names, which the adapter refuses by stopping the process, is taken to remove them all.
- Servers.AnswersOnce: rate limiting, statistics requests and the validation of incoming requests; a record whose first piece announces no partition never completes, where the unsigned counter of the code would wrap.
- ServerObjects.AddSubTxn: the records of partly finished transactions are values of the server's map, not objects of their own.
- TpccRuns.RunConserves: signed overflow of a sum, undefined in C++, is taken to wrap around.
- TpccColumns.PaymentEffect: a row of which only some columns have values, which makes the code read past the end of a result, is excluded by starting from whole rows, which every transaction keeps.
- TpccProcedures.OrderStatusProcedure.Execute: which columns of a stored row are selected, since the code uses none of them.
- TpccColumns.NewOrderEffect: the tax, discount and credit columns, which are read and not used.
- Reading past the end of a stored value, undefined in C++, yields zero bytes; replacing bytes beyond the end of a row, which throws, leaves it alone.
- TpccExecutions.TPCCExecution.Execute: parsing of arguments, unknown procedure names and abort messages.
- Record metadata, and the loader of the TPC-C tables.
- Layout.ListKeyPlace: keys are numbers, not their decimal strings; random draws are arbitrary values in range.
- The TPC-C and MovR sharders and initializers beyond the place of the first key column; the MovR and key-value executions.
- The lock managers, the deadlock resolver, the scheduler, and the workers beyond reading and gathering keys.
- Janus coordinators and acceptors beyond their quorum trackers.
- Rate limiter, rolling window, poller, string helpers, and everything outside the C++ code.
