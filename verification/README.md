# Verification of the channels and the logger built on them

This project models the sequence-numbered ring-buffer channels of the library and what is built from them, and
proves how they behave over every run.

* **Channels.** One writer shares an array of buckets with one reader ("one2one") or with every reader
  ("one2each"); events are copied (Pod) or read in place through guards that own them (Object). Each channel is a
  machine whose actions are the single atomic accesses of the threads: the writer's load, construction and stores,
  a reader's load, its copy, and the steps of a guard's destructor. Sequence numbers and counters are w-bit words
  that wrap; the bucket of a number and the published number are bit masks, exactly as stored. A run is *any*
  sequence of actions, an action whose thread is elsewhere does nothing, so a lemma about `Run` is a lemma about
  every interleaving, for every width, capacity and number of readers. `Broadcast` is the independent
  specification: an unbounded log with no ring, no masks and no counters.
* **Classes.** `One2OneObjects`, `One2EachObjects` and `SlabObjects` have the library's own classes, with mutable
  fields and arrays; each method is tied to the machine's steps by its contract and by glue lemmas beside it
  (`WriteCallIsThreeSteps`, `WriteCallIsFourSteps`, `ReleaseCallIsTwoSteps`, which only unfold definitions, and
  `ReleaseCallIsFourSteps`).
* **Logger.** `SlabQueue` composes the queue with the slab pool that has no free list and with the boxes that own
  the slabs, again step by step. `Dispatcher` composes any number of these with the one thread that calls dispatch: it
  probes queue after queue, and the clients' steps may fall anywhere inside a scan. Its scheduling is studied as a
  round-robin over ledgers (`RoundRobin`). `Adapter` is the simpler view for calls that do not overlap, with a list per
  client; `AdapterRefinement` shows that each of its operations is an uninterrupted run of the atomic machine.
* **Companions.** `Capacity` (rounding of the queue size), `Template` (`{}` patterns), `CpuList` (the cpu-list
  parser), `Engine` (configuration checks and the assignment of tasks to cores).

## Boundaries that the proofs found exact

The model follows the code; where a promise has a limit, the limit is an if-and-only-if over all configurations.

* Capacity: with 2^(w-1) buckets a run re-reads an event, so the cap 2^(w-2) is needed (one2each, and one2one
  objects). A one2one pod reader would be safe with one more doubling (`CapacityBoundIsExact`).
* Readers: the initial counter of a one2each object event is `readers + 1` narrowed to the counter type. It wraps to
  EMPTY, and the writer laps every reader, exactly for 8-bit counters with 255 readers, a combination the factory
  accepts (`ReadersBoundIsExact`, `OnlyByteCountersWrap`).
* Slab pool: the queue rounds its size up and the pool does not. The active slab is always free iff the pool is
  larger than the queue (`PoolBoundIsExact`), which for a requested size n holds iff n is a power of two in range or
  is clamped (`RequestedPoolIsSafe`). The logger's 4096 is such a power (`LoggerPoolIsSafe`, an instance).
* Cpu list: `i <= to_result` never ends iff the range rises and its upper end is the largest unsigned value
  (`RunRange`, `RoundTrip`).

## Model

| member | source | states |
|---|---|---|
| `Word.MaskIsMod` | channel/include/channel/private/one2each_seqnum_stream_queue_impl.h:73-79 | masking a number with 2^k - 1, bit by bit, is taking it modulo 2^k |
| `Word.PublishedOf` | channel/include/channel/private/one2each_seqnum_bucket.h:18-21 | however often a w-bit counter wrapped, the number it publishes is the true count modulo 2^(w-1), and it is never the dummy number |
| `Word.IndexOf` | channel/include/channel/private/one2each_seqnum_stream_queue_impl.h:78-79 | bucket indices stay consistent when the counter wraps: the bucket is the true count modulo the capacity |
| `Word.IncDec` | channel/include/channel/private/one2each_seqnum_stream_queue_impl.h:54-61 | taking an id back after a refusal restores the id counter, even when the increment wrapped |
| `Broadcast.LegalWindow` | channel/include/channel/private/one2each_seqnum_stream_queue_impl.h:66-87 | in every history the specification allows, no reader is more than a capacity behind and every event older than that is given back by all |
| `One2EachSafety.SeesEmpty` | channel/include/channel/private/one2each_seqnum_stream_queue_impl.h:70-71 | the writer reads EMPTY exactly when the event a lap ago does not exist or is completely released by every reader, and then no object is left in the bucket |
| `One2EachSafety.HolderCounts` | channel/include/channel/one2each_seqnum_stream_object_queue.h:59-72 | while a reader still owes its release, the counter is the number of readers owing one plus the mark, nobody is ending the event, and the next fetch_sub does not wrap |
| `One2EachSafety.StaleNumber` | channel/include/channel/one2each_seqnum_stream_object_queue.h:104-108 | the number left in a bucket from the lap before never equals the number a reader expects there |
| `One2EachSafety.LoadMatches` | channel/include/channel/one2each_seqnum_stream_object_queue.h:104-118 | a reader's load matches iff the reader has not yet taken everything written, in any state of any other thread |
| `One2EachSafety.StepInv` | channel/include/channel/private/one2each_seqnum_stream_queue_impl.h:66-87 | every atomic step of writer, readers and guard destructors keeps the invariant on buckets, counters, guards and private numbers |
| `One2EachSafety.RunInv` | channel/include/channel/one2each_seqnum_stream_object_queue.h:59-118 | the invariant holds after every sequence of atomic steps, with any number of readers and any counter width |
| `One2EachTheorems.RunRefines` | channel/include/channel/private/one2each_seqnum_stream_queue_impl.h:66-87 | every run of the wrapping ring protocol is a legal history of the unbounded log, with the same log and the same released sets per reader |
| `One2EachTheorems.ReceivedIsPrefix` | channel/include/channel/one2each_seqnum_stream_pod_queue.h:42-58 | what each reader receives is a prefix of the written log: no loss, duplicate, reordering or value of another lap |
| `One2EachTheorems.NoTornAccess` | channel/include/channel/one2each_seqnum_stream_pod_queue.h:46-51 | from the load that matched until the reader's own release, whatever other threads do, its bucket holds the event published under its number and the writer is not in it |
| `One2EachTheorems.LastReleaseIsUnique` | channel/include/channel/one2each_seqnum_stream_object_queue.h:63-70 | a guard sees the release value iff every other reader has released the event, and those are then completely done with it |
| `One2EachTheorems.FullIffOldestOwed` | channel/include/channel/private/one2each_seqnum_stream_queue_impl.h:70-86 | when no guard destructor is under way, try_write is refused iff the event a lap ago exists and some reader still owes its release |
| `One2EachTheorems.EmptyIffAllTaken` | channel/include/channel/one2each_seqnum_stream_object_queue.h:104-118 | try_read fails iff that reader has taken everything written |
| `One2EachTheorems.BlockedWriterHasCause` | channel/include/channel/private/one2each_seqnum_stream_queue_impl.h:70-86 | whenever the writer is blocked, some reader has not finished the event a lap ago, and this reader can load, is inside its own pod read, or has an unreleased guard on exactly that event: the channel is never stuck |
| `One2EachTheorems.NeverOverLive` | channel/include/channel/private/one2each_seqnum_stream_queue_impl.h:74-74 | an event is never constructed over a live one, and the destroying guard always finds its own event alive |
| `One2EachTheorems.DestructionBalance` | channel/include/channel/one2each_seqnum_stream_object_queue.h:59-72 | over every run, each constructed event is alive in one bucket or was destroyed once |
| `One2EachTheorems.QuietMarks` | channel/include/channel/private/one2each_seqnum_bucket.h:49-57 | with every guard dropped, a bucket's counter says occupied iff the bucket holds an object |
| `One2EachTheorems.OccupiedOnce` | channel/include/channel/private/one2each_seqnum_bucket.h:49-57 | the destructions of a teardown name each occupied bucket once and no other bucket, in rising order |
| `One2EachTheorems.TeardownCompletes` | channel/include/channel/private/one2each_seqnum_bucket.h:49-57 | after any run with every guard dropped, exactly the occupied buckets hold an object, so what teardown destroys is exactly what no guard destroyed; each of them ends empty with the dummy number, and a bucket a guard emptied keeps its number |
| `One2EachLimits.StaleReread` | channel/include/channel/private/channel_helper.h:24-35 | with 2^(w-1) buckets there is a run in which the reader, after event 0 and the rest of the lap, is handed bucket 0 with event 0 in it again |
| `One2EachLimits.CapacityBoundIsExact` | channel/include/channel/private/channel_helper.h:24-35 | no run lets a reader take more than was written iff the capacity is at most 2^(w-2) |
| `One2EachLimits.ReadersBoundIsExact` | channel/include/channel/one2each_seqnum_stream_object_queue.h:161-166 | no run lets the writer lap a reader iff the initial counter fits its w bits |
| `One2EachLimits.OnlyByteCountersWrap` | channel/include/channel/private/one2each_seqnum_bucket.h:20-23 | among the widths and reader counts the factory accepts, the initial counter wraps iff w is 8, the events are objects and there are 255 readers |
| `One2EachObjects.RingBuffer.Teardown` | channel/include/channel/private/ring_buffer_factory.h:21-27 | destroys, in order, the events of exactly the occupied buckets, each of which must hold one; a bucket whose counter reads EMPTY keeps its number and its cell |
| `One2EachObjects.Producer.CreateReader` | channel/include/channel/private/one2each_seqnum_stream_queue_impl.h:51-64 | a reader gets the next id and starts at number 0; id 255 is refused and the id counter restored |
| `One2EachObjects.Producer.TryWrite` | channel/include/channel/private/one2each_seqnum_stream_queue_impl.h:66-87 | changes ring and writer exactly by the machine's writer steps; succeeds iff the counter reads EMPTY |
| `One2EachObjects.ChannelReader.TryRead` | channel/include/channel/one2each_seqnum_stream_object_queue.h:104-118 | changes only the reader's own fields, by the machine's load, and returns a guard iff the load matched |
| `One2EachObjects.ChannelReader.TryReadPod` | channel/include/channel/one2each_seqnum_stream_pod_queue.h:42-58 | returns the value of the matched bucket and gives back exactly this reader's share of the counter |
| `One2EachObjects.ChannelGuard.Move` | channel/include/channel/one2each_seqnum_stream_object_queue.h:48-53 | responsibility moves to the new guard; the old one owes nothing |
| `One2EachObjects.ChannelGuard.Drop` | channel/include/channel/one2each_seqnum_stream_object_queue.h:59-72 | performs the machine's release, destroy and clear steps; a moved-from guard changes nothing |
| `One2EachObjects.Make` | channel/include/channel/channel_factory.h:47-97 | both overloads: succeeds iff 1 to 255 readers are asked for, and a refusal hands out neither writer nor reader; ids are 0, 1, 2, ..., none the dummy id, and ring, writer and readers are in the machine's initial state |
| `One2EachObjects.ReleaseCallIsFourSteps` | channel/include/channel/one2each_seqnum_stream_object_queue.h:59-72 | the effect a guard's destructor promises is the machine's steps of that guard, and no other guard changes |
| `One2EachObjects.QuietWrite` | channel/include/channel/private/one2each_seqnum_stream_queue_impl.h:66-87 | an uninterrupted write on a channel without calls in progress appends iff no reader is a whole capacity behind |
| `One2EachObjects.QuietRead` | channel/include/channel/one2each_seqnum_stream_pod_queue.h:42-58 | an uninterrupted read hands the reader exactly its next event and leaves the channel quiet; it changes nothing iff the reader has everything |
| `One2OneSafety.SeesEmpty` | channel/include/channel/private/one2one_seqnum_stream_queue_impl.h:70-72 | the writer reads the dummy number exactly when the event a lap ago does not exist or is released, and then no object is left in the bucket |
| `One2OneSafety.StaleNumber` | channel/include/channel/one2one_seqnum_stream_object_queue.h:95-99 | the number of a still guarded event never equals the number the reader expects in that bucket a lap later |
| `One2OneSafety.LoadMatches` | channel/include/channel/one2one_seqnum_stream_object_queue.h:95-109 | the reader's load matches iff it has not taken everything written |
| `One2OneSafety.GuardInWindow` | channel/include/channel/one2one_seqnum_stream_object_queue.h:45-63 | with guards released in any order, a live guard's event lies within one capacity of the writer, in the bucket of its own number |
| `One2OneSafety.StepInv` | channel/include/channel/private/one2one_seqnum_stream_queue_impl.h:66-88 | every atomic step keeps the invariant |
| `One2OneSafety.RunInv` | channel/include/channel/one2one_seqnum_stream_object_queue.h:45-109 | the invariant holds after every sequence of atomic steps |
| `One2OneTheorems.RunRefines` | channel/include/channel/private/one2one_seqnum_stream_queue_impl.h:66-88 | every run is a legal history of the unbounded log |
| `One2OneTheorems.ReceivedIsPrefix` | channel/include/channel/one2one_seqnum_stream_pod_queue.h:42-58 | the reader receives a prefix of the written log |
| `One2OneTheorems.NoTornAccess` | channel/include/channel/one2one_seqnum_stream_object_queue.h:95-109 | from the matched load until the guard's own release its bucket holds the event of its number and the writer stays out |
| `One2OneTheorems.FullIffOldestOwed` | channel/include/channel/private/one2one_seqnum_stream_queue_impl.h:70-87 | try_write is refused iff the event a lap ago exists and is not released |
| `One2OneTheorems.EmptyIffAllTaken` | channel/include/channel/one2one_seqnum_stream_object_queue.h:95-109 | try_read fails iff everything written was taken |
| `One2OneTheorems.BlockedWriterHasCause` | channel/include/channel/private/one2one_seqnum_stream_queue_impl.h:70-87 | whenever the writer is blocked, the event a lap ago is the cause: the reader has not taken it and can load or is inside a pod read, or the guard on exactly that event is not released |
| `One2OneTheorems.NeverOverLive` | channel/include/channel/private/one2one_seqnum_stream_queue_impl.h:76-76 | an event is never constructed over a live one, and every held guard finds its own event |
| `One2OneTheorems.DestructionBalance` | channel/include/channel/one2one_seqnum_stream_object_queue.h:56-63 | over every run, each constructed event is alive in one bucket or was destroyed once |
| `One2OneTheorems.QuietMarks` | channel/include/channel/private/one2one_seqnum_bucket.h:46-53 | with every guard dropped, a bucket's number is not the dummy iff the bucket holds an object |
| `One2OneTheorems.OccupiedOnce` | channel/include/channel/private/one2one_seqnum_bucket.h:46-53 | the destructions of a teardown name each occupied bucket once and no other bucket, in rising order |
| `One2OneTheorems.TeardownCompletes` | channel/include/channel/private/one2one_seqnum_bucket.h:46-53 | after any run with every guard dropped, exactly the buckets whose number is not the dummy hold an object, so what teardown destroys is exactly what no guard destroyed; all end empty with the dummy number |
| `One2OneLimits.StaleReread` | channel/test/test_stream_queue.cpp:264-308 | with 2^(w-1) buckets and every guard held there is a run in which the first and the last guard are both live on bucket 0, which holds event 0 |
| `One2OneLimits.CapacityBoundIsExact` | channel/include/channel/private/channel_helper.h:24-35 | the reader never takes more than was written iff events are copied or the capacity is at most 2^(w-2) |
| `One2OneObjects.RingBuffer.Teardown` | channel/include/channel/private/ring_buffer_factory.h:21-27 | destroys, in order, the events of exactly the buckets whose number is not the dummy, each of which must hold one; the others are left alone |
| `One2OneObjects.Producer.CreateReader` | channel/include/channel/private/one2one_seqnum_stream_queue_impl.h:51-64 | the single id 0 is handed out; a further request is refused and the id counter restored |
| `One2OneObjects.Producer.TryWrite` | channel/include/channel/private/one2one_seqnum_stream_queue_impl.h:66-88 | changes ring and writer exactly by the machine's writer steps; succeeds iff the bucket reads the dummy number |
| `One2OneObjects.ChannelReader.TryRead` | channel/include/channel/one2one_seqnum_stream_object_queue.h:95-109 | changes only the reader's own fields and returns a guard iff the load matched |
| `One2OneObjects.ChannelReader.TryReadPod` | channel/include/channel/one2one_seqnum_stream_pod_queue.h:42-58 | returns the value of the matched bucket and hands exactly that bucket back |
| `One2OneObjects.ChannelGuard.Move` | channel/include/channel/one2one_seqnum_stream_object_queue.h:45-50 | responsibility moves to the new guard; the old one owes nothing |
| `One2OneObjects.ChannelGuard.Drop` | channel/include/channel/one2one_seqnum_stream_object_queue.h:56-63 | performs the machine's destroy and hand-back steps; a moved-from guard changes nothing |
| `One2OneObjects.Make` | channel/include/channel/channel_factory.h:47-97 | both overloads: succeeds iff exactly one reader is asked for, a refusal hands out neither writer nor reader, and everything is in the machine's initial state |
| `One2OneObjects.QuietWrite` | channel/include/channel/private/one2one_seqnum_stream_queue_impl.h:66-88 | between calls the channel is a bounded queue: a write appends iff fewer than the capacity are pending |
| `One2OneObjects.QuietRead` | channel/include/channel/one2one_seqnum_stream_object_queue.h:95-109 | between calls a read takes the front event, and changes nothing iff the queue is empty |
| `Capacity.CapacityIsLeast` | channel/include/channel/private/channel_helper.h:14-36 | the capacity is the least power of two not below the request, kept within [4, 2^(w-2)], and an in-range power of two is kept as it is |
| `Capacity.To2Pow` | channel/include/channel/private/channel_helper.h:14-36 | the doubling loop ends on that capacity and never overflows size_t, for every request |
| `Capacity.PoolExceedsQueue` | memory/include/memory/stream_fixed_pool_allocator.h:29-43 | a pool of n + 1 slabs is larger than a queue asked for n events iff rounding does not enlarge the queue |
| `SlabQueue.ActiveSlabIsFree` | memory/include/memory/stream_fixed_pool_allocator.h:79-92 | the active slab never stores an event that is queued or under a live guard |
| `SlabQueue.GuardOwnsSlab` | types/include/types/box.h:26-38 | a live guard's box owns one slab, which holds the payload logged under the guard's number |
| `SlabQueue.NextSlab` | memory/include/memory/stream_fixed_pool_allocator.h:85-92 | seeking visits the slabs in a circle: after n seeks the position is n modulo the pool size |
| `SlabQueue.StepInv` | logger/src/logger_client.cpp:41-64 | every step of client, queue, reader and guards keeps the invariant that ties queue numbers to slabs |
| `SlabQueue.RunInv` | logger/src/logger_client.cpp:34-64 | the invariant holds over every run of accepted and refused log calls and of guard releases in any order |
| `SlabQueueTheorems.GuardReadsItsPayload` | logger/src/logger_client.cpp:41-64 | however long a guard is held, it reads the payload that was logged |
| `SlabQueueTheorems.DeliveredIsPrefix` | logger/src/logger_client.cpp:41-64 | the payloads the consumer sees are a prefix of the accepted ones, in order |
| `SlabQueueTheorems.Accounting` | logger/src/logger_client.cpp:49-61 | between log calls, attempts are exactly the delivered, the pending and the lost ones |
| `SlabQueueTheorems.DestructionBalance` | types/include/types/box.h:26-38 | each event built in a slab is alive in one slab or was destroyed by exactly one box, over every run |
| `SlabQueueTheorems.BoxesOwnLiveSlabs` | channel/include/channel/private/ring_buffer_factory.h:41-51 | with no call in progress and all guards dropped, a slab is live iff a box left in the ring owns it |
| `SlabQueueTheorems.BoxesAreDistinct` | channel/include/channel/private/ring_buffer_factory.h:41-51 | no two boxes left in the ring own the same slab |
| `SlabQueueTheorems.TeardownEndsEachOnce` | channel/include/channel/private/ring_buffer_factory.h:46-50 | bucket destruction finds each remaining event alive when its box is reached, and no event is left when the pool is freed |
| `SlabQueueTheorems.PoolBoundIsExact` | memory/include/memory/stream_fixed_pool_allocator.h:29-43 | placing an event never lands on a live one, in any run, iff the pool has more slabs than the queue has buckets |
| `SlabQueueTheorems.RequestedPoolIsSafe` | memory/include/memory/stream_fixed_pool_allocator.h:40-43 | a pool and a queue made from the same requested size are safe together iff the size is an in-range power of two or is clamped |
| `SlabObjects.SlabPool.SeekToNextSlab` | memory/include/memory/stream_fixed_pool_allocator.h:85-92 | the position advances by one modulo the pool size |
| `SlabObjects.SlabPool.Allocate` | memory/include/memory/stream_fixed_pool_allocator.h:58-70 | one slab is handed out and the position advances; any other count gets nothing and changes nothing |
| `SlabObjects.Box.Move` | types/include/types/box.h:34-38 | ownership, if there is any, passes to the new box and the old one owns nothing |
| `SlabObjects.Box.Drop` | types/include/types/box.h:26-32 | the event in the owned slab, which is alive, is destroyed and every other slab keeps its own; a moved-from box destroys nothing |
| `SlabObjects.LoggerClient.Log` | logger/src/logger_client.cpp:41-64 | an accepted event stays in its slab and the pool advances; a refused one is destroyed, the pool stays and the loss is counted |
| `SlabObjects.LogAccepted` | logger/src/logger_client.cpp:49-52 | the effect Log promises on success is an uninterrupted run of the composed machine that accepts the payload, counts one attempt and leaves reader and guards alone |
| `SlabObjects.LogRefused` | logger/src/logger_client.cpp:58-61 | a refused call is a run of the composed machine that leaves queue and pool as they were and counts one loss |
| `Adapter.LoggerAdapter.Register` | logger/src/logger_adapter.cpp:125-145 | a new client starts empty in the adapter's current mode, behind the others; the other clients, the cursor and what the listener got stay as they were |
| `Adapter.RegisterKeepsTurn` | logger/src/logger_adapter.cpp:135-140 | registration takes nobody's turn: with something pending, the dispatch after it serves the same client with the same event as the dispatch without it |
| `Adapter.LoggerAdapter.Dispatch` | logger/src/logger_adapter.cpp:162-219 | delivers one event of the first busy client after the cursor and moves the cursor behind it; returns false iff every queue is empty; the cursor stays a client |
| `Adapter.DispatchOrder` | logger/src/logger_adapter.cpp:174-213 | the client served is the pending one with no pending client between the cursor and it, counted in a circle; it gets its oldest event delivered and the cursor stands behind it |
| `Adapter.LoggerAdapter.TryLog` | logger/src/logger_client.cpp:41-64 | accepts iff the client's queue has room, dispatches once in synch mode, and otherwise counts a loss |
| `Adapter.LoggerAdapter.ChangeMode` | logger/src/logger_adapter.cpp:221-238 | afterwards every client follows the new mode and nothing else changed |
| `Adapter.NobodyBusy` | logger/src/logger_adapter.cpp:176-181 | a scan that finds nothing has looked at every client, wherever the cursor was |
| `Adapter.InitialHub` | logger/src/logger_adapter.cpp:147-156 | a newly constructed adapter has exactly one client, the constructing thread's, and meets what the run lemmas assume of their start: balanced, drained, in synch mode |
| `Adapter.RunBalanced` | logger/src/logger_adapter.cpp:162-219 | over every run of log calls, dispatches, mode changes and registrations: per client attempts = delivered + pending + lost, and the listener saw a prefix of that client's accepted events in order |
| `Adapter.DispatchApproaches` | logger/src/logger_adapter.cpp:174-213 | a dispatch while a client has something pending serves it or strictly reduces its cyclic distance from the cursor |
| `Adapter.ServedInTime` | logger/src/logger_adapter.cpp:174-213 | k pending events of a client among M are delivered once (k-1)*M + distance + 1 dispatches have run, whatever is logged meanwhile |
| `Adapter.ServedWithinOneRound` | logger/src/logger_adapter.cpp:174-213 | a client with a pending event is served within M dispatches |
| `Adapter.SynchLogDelivers` | logger/src/logger_client.cpp:50-56 | from empty queues, a synch-mode log call delivers exactly the event just logged and leaves every queue empty |
| `Adapter.SynchRunDeliversAll` | logger/src/logger_client.cpp:50-61 | a run that stays in synch mode loses nothing and delivers every event in call order, also with dispatches and registrations in between |
| `Adapter.SynchBacklogNeverGrows` | logger/src/logger_client.cpp:50-56 | in a later synch phase a log call leaves the total backlog as it was |
| `Adapter.SynchPhaseNeverGrows` | logger/src/logger_adapter.cpp:221-238 | over a whole later synch phase the total backlog never exceeds what it was at the switch |
| `RoundRobin.PathServes` | logger/src/logger_adapter.cpp:174-213 | in any path of ledgers, accepted events appearing between any two dispatcher steps, k pending events of a client are told by the time Need + (k-1)*M more calls returned |
| `RoundRobin.FalseFoundEach` | logger/src/logger_adapter.cpp:176-218 | in any path, a call that returns false had found each client with nothing pending at the moment it probed it |
| `RoundRobin.CallServes` | logger/src/logger_adapter.cpp:174-213 | a call nobody interrupts serves the first client with something pending, moves the cursor behind it, or returns false |
| `Dispatcher.LoadOk` | logger/src/logger_adapter.cpp:181-181 | a probe of a slab queue takes its oldest pending event, and changes nothing iff there is none at that moment |
| `Dispatcher.PayloadIs` | logger/src/logger_adapter.cpp:183-193 | the event the dispatcher prints through its guard is the payload accepted under the guard's number |
| `DispatcherTheorems.StepMoves` | logger/src/logger_adapter.cpp:162-219 | every atomic step of every client and of the dispatcher keeps the invariant on all queues, and is a step of the round-robin or adds to a queue |
| `DispatcherTheorems.RunPath` | logger/src/logger_adapter.cpp:162-219 | every run, log calls falling inside scans included, is a path of ledgers |
| `DispatcherTheorems.Accounting` | logger/src/logger_client.cpp:41-64 | at every moment of every interleaving, the listener was told a prefix of each client's accepted payloads, and attempts = delivered + pending + lost, plus one while an attempt is being made |
| `DispatcherTheorems.CallsNeeded` | logger/src/logger_adapter.cpp:210-213 | the number of calls until a pending client is served is at most M between calls and M + 1 inside one |
| `DispatcherTheorems.ServedInTime` | logger/src/logger_adapter.cpp:174-213 | in every interleaving, k pending events of a client are told to the listener once CallsNeeded + (k-1)*M more calls of dispatch returned |
| `DispatcherTheorems.ServedWithinOneRound` | logger/src/logger_adapter.cpp:174-213 | in every interleaving, a client with something pending is served by the next M calls |
| `DispatcherTheorems.FalseSawEachEmpty` | logger/src/logger_adapter.cpp:176-218 | when dispatch returns false, each client's queue was empty at a moment of this very call, its probe; nothing is claimed of one common moment |
| `AdapterRefinement.LogOnQueue` | logger/src/logger_client.cpp:49-61 | an uninterrupted log call on a slab queue accepts iff fewer events than the capacity are pending, and otherwise counts a loss |
| `AdapterRefinement.DispatchRuns` | logger/src/logger_adapter.cpp:162-219 | an uninterrupted call of dispatch on the slab queues is the adapter's dispatch, with the same result |
| `AdapterRefinement.LogRuns` | logger/src/logger_client.cpp:41-64 | an uninterrupted log call, with the dispatch behind it in synch mode, is the adapter's log call |
| `AdapterRefinement.OpsAreRuns` | logger/src/logger_adapter.cpp:162-238 | every sequence of log calls, dispatches and mode changes of the adapter is a run of the atomic machine, and the adapter is the abstraction of where it ends |
| `AdapterRefinement.SynchQueuesDeliverAll` | logger/src/logger_client.cpp:50-61 | down to the atomic steps: synch mode from the start delivers every logged event in call order, loses none and leaves every queue empty |
| `Template.PlaceholdersCount` | logger/include/logger/logger.h:6-15 | the search loop counts the occurrences found left to right without overlap; for an empty pattern it has no result |
| `Template.CountIsAllHoles` | logger/include/logger/logger.h:6-15 | for `{}` this is the number of all positions at which a placeholder stands |
| `Template.CountFits` | logger/include/logger/logger.h:9-13 | the occurrences counted take up characters of their own |
| `Template.CountZero` | logger/include/logger/logger.h:9-13 | nothing is counted iff the pattern occurs nowhere |
| `Template.JoinPieces` | logger/include/logger/logger_event.h:52-60 | joining the split pieces with `{}` rebuilds the pattern, and there is one piece more than placeholders |
| `Template.PiecesHaveNoHole` | logger/include/logger/logger_event.h:52-60 | no piece contains a placeholder |
| `Template.PiecesJoin` | logger/include/logger/logger_event.h:52-60 | splitting recovers any placeholder-free texts that were joined with `{}` |
| `Template.SubstMeaning` | logger/include/logger/logger_event.h:43-64 | for every pattern and number of arguments: missing arguments leave their placeholders in the text, spare arguments follow it |
| `Template.MatchingTemplate` | logger/include/logger/logger.h:23-34 | a pattern whose placeholder count equals the number of arguments prints as its texts alternating with the arguments |
| `Template.WeaveMore` | logger/include/logger/logger_event.h:36-41 | one more argument and one more text print behind everything else, the argument first |
| `Template.HolesStay` | logger/include/logger/logger_event.h:43-64 | arguments that themselves read `{}` print the template unchanged: what was put in is not searched again |
| `Template.OccursIs` | logger/include/logger/logger.h:9-9 | an occurrence found by the search is an equal slice of the text |
| `Template.SplitTemplate` | logger/include/logger/logger_event.h:46-60 | the splitting loop stores the text in front of each placeholder it finds, each the first one behind the last, then the rest, and leaves the other entries empty |
| `Template.PrintTuple` | logger/include/logger/logger_event.h:43-64 | the split-then-print loops over the fixed array output the pattern with its placeholders replaced left to right, for too few and too many placeholders as well |
| `Template.PrintTexts` | logger/include/logger/logger_event.h:36-41 | prints texts and arguments alternately and ends with the last text |
| `CpuList.RunRange` | platform/src/process_cpu_list.cpp:38-41 | a range calls for a, a + 1, ..., b, each once and in this order, for nothing if it falls; it never ends iff it rises and its upper end is the largest unsigned value |
| `CpuList.RangeIs` | platform/src/process_cpu_list.cpp:38-41 | the expansion of a range has b - a + 1 entries, none if it falls, and its k-th entry is a + k |
| `CpuList.SectionWithoutNumber` | platform/src/process_cpu_list.cpp:18-20 | a section that does not begin with a digit calls for nothing and the next section is processed |
| `CpuList.SectionWithNumber` | platform/src/process_cpu_list.cpp:20-33 | a section with a readable number: alone it is one call; with any character but a minus sign behind it, it ends the whole call without calling; a number too large for unsigned is passed over |
| `CpuList.SectionWithoutEnd` | platform/src/process_cpu_list.cpp:35-42 | a number and a minus sign without a number behind them call for nothing, and the next section is processed |
| `CpuList.SectionWithRange` | platform/src/process_cpu_list.cpp:35-42 | two numbers with a minus sign between them call for the range from the first to the second, whatever text follows; a second number too large for unsigned calls for nothing |
| `CpuList.NumberThen` | platform/src/process_cpu_list.cpp:18-20 | every run of digits, leading zeros included, is read whole up to the first non-digit, and is unreadable iff its value exceeds the largest unsigned one |
| `CpuList.LeadingZero` | platform/src/process_cpu_list.cpp:18-20 | a zero in front does not change a number |
| `CpuList.ProcessCpuList` | platform/src/process_cpu_list.cpp:8-47 | the scan terminates on every string and does its comma-separated sections one after the other until one of them stops the call |
| `CpuList.SectionsRebuild` | platform/src/process_cpu_list.cpp:13-17 | the sections hold no comma, and with commas between them they are the list again |
| `CpuList.ProcessMore` | platform/src/process_cpu_list.cpp:13-46 | behind sections that finished, further sections add their calls and decide the outcome |
| `CpuList.ProcessStops` | platform/src/process_cpu_list.cpp:30-33 | behind a section that stops the call or never ends, nothing has any effect |
| `CpuList.EndlessIff` | platform/src/process_cpu_list.cpp:38-41 | the call never returns iff some section is a rising range up to the largest unsigned value and no earlier section stopped it |
| `CpuList.DecRoundTrip` | platform/src/process_cpu_list.cpp:18-18 | a printed number is read back, whatever non-digit follows it |
| `CpuList.PrintedSections` | platform/src/process_cpu_list.cpp:15-16 | splitting a printed list at its commas gives back the texts of its items |
| `CpuList.ExpandIs` | platform/src/process_cpu_list.cpp:38-41 | the expansion of a list, position by position: behind the cpus of the items before it stand item k's cpus, each one more than the last |
| `CpuList.ExpandSize` | platform/src/process_cpu_list.cpp:38-41 | the expansion has as many entries as its items have cpus, and so holds nothing else |
| `CpuList.RoundTrip` | platform/src/process_cpu_list.cpp:8-47 | for every list of cpus and ranges, rising or falling, printing and parsing calls for exactly the expansion, in order, and returns, iff no range rises to the largest unsigned value |
| `Engine.Parse` | engine/include/engine/cpus_config.h:36-80 | accepts iff the configuration is not empty and its cores are usable and distinct; otherwise the error names the first check that the first bad entry fails |
| `Engine.TaskStorage.AddTask` | engine/include/engine/task_storage.h:21-24 | the task is added and every other entry kept |
| `Engine.TaskStorage.ReplaceTask` | engine/include/engine/task_storage.h:32-39 | all tasks of that name give way to one; the others are kept |
| `Engine.WithoutMeaning` | engine/include/engine/task_storage.h:34-36 | erasing by name removes exactly the entries of that name |
| `Engine.WithoutCounts` | engine/include/engine/task_storage.h:34-36 | erasing by name leaves every other entry in as often as it was there |
| `Engine.Validate` | engine/src/engine.cpp:12-38 | accepts iff counts agree, task names are distinct and each has a cpu; the error is a count mismatch iff the counts differ, and otherwise belongs to the first task that fails a check: it repeats an earlier name, or else has no cpu |
| `Engine.Construct` | engine/src/engine.cpp:41-67 | the constructor aborts iff some configured cpu has no task; otherwise each cpu's thread runs a task of its name on its core |
| `Engine.Create` | engine/src/engine.cpp:12-67 | an engine comes back iff the configuration is acceptable, otherwise the error of the first check that fails; after validation the abort is unreachable and the threads assign tasks to cpus one to one |
| `Engine.EveryCpuHasTask` | engine/src/engine.cpp:16-37 | pigeonhole: as many distinct tasks as cpus, all of them cpus, so no cpu is left without one |
| `Engine.AssignmentIsBijective` | engine/src/engine.cpp:44-66 | no task runs twice and every task runs |

## Left out

- Weak memory: runs are sequentially consistent interleavings of the atomic accesses. The relaxed operations at
  channel/include/channel/one2each_seqnum_stream_object_queue.h:64 and :69 are therefore not judged.
- Layout and language rules: cache-line alignment, `std::launder`, the static assertions on sizes, and concepts have no
  behaviour here. Event payloads are integers standing for objects.
- Accessors and `readers_mask`: they only read a field or shift by the reader count.
- Number of readers: all readers exist before the first write, as the factory arranges; `create_reader` during traffic
  is not modelled.
- Lifetime: guards are dropped before the ring is torn down, and a channel is torn down once, as its shared pointer
  arranges, so `Teardown` may require that occupied buckets hold an event (`QuietMarks`). Allocation and deallocation
  of the ring and the pool are not modelled beyond their order.
- Adapter.LoggerAdapter.TryLog: a client's queue is a value here and calls do not overlap; `AdapterRefinement` ties both to
  the atomic machine, and `DispatcherTheorems` has the statements for calls that do overlap.
- Adapter.LoggerAdapter.Dispatch: as above; formatting, the listener's flush and overflow of `m_cindex` are not modelled.
- Adapter.RunBalanced: as above; `DispatcherTheorems.Accounting` is the statement for calls that overlap.
- Adapter.DispatchApproaches: as above; one dispatch is one step here.
- Adapter.ServedInTime: as above; `DispatcherTheorems.ServedInTime` lets log calls fall inside a scan.
- Adapter.ServedWithinOneRound: as above; `DispatcherTheorems.ServedWithinOneRound` lets log calls fall inside a scan.
- DispatcherTheorems.ServedInTime: the set of clients is fixed and one thread calls dispatch, as the comment at
  logger/src/logger_adapter.cpp:168-171 intends; several dispatchers at once, which synch mode with overlapping calls
  would have, and registration during the waiting time are not modelled. Nor is a missing adapter instance.
- SlabObjects.LoggerClient.Log: the synch-mode dispatch at its end is in `Adapter.LoggerAdapter.TryLog` and
  `AdapterRefinement.LogRuns`.
- Adapter.LoggerAdapter.Register: failure to create the channel is not modelled; `One2OneObjects.Make` proves that the
  factory always accepts one reader.
- Template.PlaceholdersCount: on an empty pattern the source's loop never ends; the method returns that there is no result.
- Template.PrintTuple: arguments are the texts they print as; stream formatting, headers and time points are left out.
- CpuList.RunRange: Dafny methods terminate, so where the source loop would run forever the model returns at that
  point and says so. `std::from_chars` is taken as: the longest run of digits, an error if it is empty or overflows.
- Engine.TaskStorage.ReplaceTask: maps are sequences in iteration order, so the key order of `std::multimap` is not
  modelled; no result depends on it except which duplicate is reported.
- Engine.Construct: thread start, join, binding and the task loop are left out.
- Thread-local lookup, `atexit`, signals, TOML, timers, network, memory pages, `arena_allocator`, `result`, `scope_exit`
  and `function_ref`: I/O, foreign calls or single-function wrappers that would only add easy members.
