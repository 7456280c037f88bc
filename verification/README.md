# Kendynet core, modelled and proved in Dafny

This project models the concurrent and stateful cores of a C network library (`epoll_mutilthread/`, `lockfreeQueue/`,
`timer.h`) and proves what they promise, over all inputs, all runs and all interleavings. `dafny verify dfyconfig.toml`
checks everything.

## What is modelled

Code that one thread runs by itself is modelled as it is written, with classes whose fields the methods change, arrays
and loops. Protocols between threads are state machines: a state is the shared memory together with every thread's
program counter and locals, a step is one shared access or one critical section of one thread, and a run is any
interleaving of steps (module `Runs`).

- **Queue over reused slots** (`SpscQueue`, `SpscProgress`; `lockfreeQueue.c`): one pushing and one popping thread, every
  load, store, compare-and-swap and fetch-and-add a step, `memcpy` one byte a step. It refines a bounded first-in
  first-out queue, and calls that have got past its counters end after a fixed number of their own steps.
- **Thread-caching allocator** (`Pool`, `PoolOrder`, `SharpBound`, `BatchCount`, `Allocator`, `AllocatorRuns`,
  `LossyFree`, `ObjectSize`; `block_obj_allocator.c`): `Allocator` is the code over linked lists of the objects
  themselves, `Pool` says on values what each operation does and carries the whole-run results: conservation,
  exclusivity, the two-batch cache bound and the bound on carved memory, which `SharpBound` shows to be the best
  possible. `PoolOrder` says in what order objects come back, and `BatchCount` how many batches there are.
  `AllocatorRuns` serves arbitrary calls with the code over linked lists, and so carries these results over to it.
- **Batched message queue** (`MessageQueue`, `MqCalls`, `MqFlush`, `MqStranding`, `MqDamage`; `mq.c`): any number of
  threads; waits end by a signal, by the timeout or for no reason, and the signal is a step of its own after the unlock.
- **Edge-triggered requests** (`IoChannel`, `IoOrder`, `IoCalls`; `Socket_comp.h`, `KendyNet.c`): the flag, the activation
  counter and the pending list of one direction of a socket, with the kernel as environment.
- **Timer heap** (`TimerHeap`, `TimerRuns`; `timer.h`): the array heap in place, and what follows for whole runs.
- **Lists, locks and buffers** (`LinkList`, `DoubleLink`, `SpinLock`, `BufferChain`, `BufferRefs`).

## Where the code differs from what it promises

- `lock_fQueue_pop` refuses when `r_len >= 0` (lockfreeQueue/lockfreeQueue.c:163), while its header gives -1 the meaning
  "empty" (lockfreeQueue/lockfreeQueue.h:66-71). The guard is a parameter of the model. `RefusesWaitingUnit`
  is a run in which the printed guard refuses a waiting unit, `PrintedGuardNeverPops` shows that it lets no pop succeed,
  and `PopAnswer` says exactly when its answer is right; the results on when a pop gives up or what it does alone are for
  the documented guard, and all others for both.
- `mq_sync_push` unlocks before it signals (epoll_mutilthread/src/mq.c:132-133). A consumer that times out in between
  returns, blocks again and is then marked by a signal meant for its earlier wait; it takes messages without leaving
  `blocks`, and a later signal is wasted on it while another consumer waits. `OvertakenSignalStrands` is such a run,
  `BookkeepingKept` says exactly which steps damage the list of blocked threads, `StrandsIffThreeThreads` that such a
  step can be followed by a stranded message, without any further one, if and only if the queue has three threads, and
  `NoMessageStranded` holds in all runs without them.
- `WSARecv` pops the head of the pending list, which need not be the request just submitted, and completes it silently
  (epoll_mutilthread/src/KendyNet.c:190-199). `SubmitRunsOwn` says exactly when it is the caller's own, and
  `ForeignResult` is a run in which another caller's request is completed and nobody is told. The list is there to keep
  requests in order; they are completed in order while one thread at a time carries one out (`CompletesInOrder`), and
  when two threads are in their calls one of the next completions is out of order (`TwoCallsReorder`).
- A refill from the central list leaves the spare batches of the thread alone
  (epoll_mutilthread/src/block_obj_allocator.c:95-102). When one thread allocates what another frees, the first collects
  the emptied batches and the second makes new ones, without bound although one object at a time is out
  (`BatchesUnbounded`). With one thread there are never more batches than blocks (`OneThreadBatches`).
- `link_list_push_back` drops a node whose `next` is not null (epoll_mutilthread/include/link_list.h:51), so `mq_push`
  loses such a message (epoll_mutilthread/src/mq.c:182) and `WSARecv` such a request, without any answer.
  `NothingLostOrDoubled` and `RequestsConserved` say that exactly these are lost.
- `thread_allocator_dealloc` counts such an object all the same. `DeallocNeedsNullWord` shows that freeing an object
  keeps the allocator in order if and only if its first word is null. Otherwise the thread gets as many objects as it
  had cached, and crashes in its next allocation (`LossyFreeCrashes`): if all its batches were full, in `assert(ptr)`
  (epoll_mutilthread/src/block_obj_allocator.c:108); if one had room, earlier, at line 106, which reads through the null
  that `double_link_first` answers for an empty free list. `FirstFailedAssertion` and `FirstNullBatch` are short runs of
  both kinds. Pushing the last node of a list a second time is not noticed either and links the node to itself
  (`PushBack`).
- `GetK` shifts before it counts, so for a size above 2^31 that is no power of two the highest bit is lost, and
  `create_block_obj_allocator` settles on objects smaller than requested (`GetK`, `CreateObjSize`), for sizes of at most
  3 more than 2^31 even smaller than a pointer. Above a whole block and up to 2^31 batches are empty (`BatchSize`).
- `buffer_read` subtracts without a check (epoll_mutilthread/src/buffer.c:57): a `pos` beyond the bytes in use is not an
  error but a successful read of stale memory (`Read`).
- `condition_timedwait` ignores the timeout it is given and waits five seconds (epoll_mutilthread/src/sync.c:68). In the
  model a timeout can happen at any time, so the results do not depend on its length.

## Model

| member | source | states |
|---|---|---|
| SpscQueue.RunRefinesFifo | lockfreeQueue/lockfreeQueue.c:101-180 | in every interleaving of one push thread and one pop thread, what pops have copied out is a prefix of what was pushed, and consecutive states are steps of a bounded first-in first-out queue |
| SpscQueue.StepRefinesFifo | lockfreeQueue/lockfreeQueue.c:112-177 | the increment of `r_len` appends the pushed unit, its decrement claims the oldest one, the decrement of `w_len` hands out exactly the claimed bytes, and every other step changes nothing in the abstract queue |
| SpscQueue.StepInv | lockfreeQueue/lockfreeQueue.c:112-177 | every atomic step keeps the invariant: cursors, links in push order, data, flags and the meaning of both threads' locals |
| SpscQueue.InitInv | lockfreeQueue/lockfreeQueue.c:57-98 | the layout that `lock_fQueue_init` leaves satisfies that invariant |
| SpscQueue.InitAnswer | lockfreeQueue/lockfreeQueue.c:57-98 | the queue is ready, empty and of the size asked for, exactly for sizes that are positive and leave room for a unit head in 32 bits; the two error codes are told apart |
| SpscQueue.NeverOutOfBounds | lockfreeQueue/lockfreeQueue.c:125-176 | no slot, link or copy of a call in progress ever leaves the units |
| SpscQueue.PushWritesAlone | lockfreeQueue/lockfreeQueue.c:119-132 | the slot taken at `w_tail` is neither the dummy nor the retired dummy a pop still reads, nor a unit unread or being copied |
| SpscQueue.PushNeverRetries | lockfreeQueue/lockfreeQueue.c:127-145 | the `use_flag` test passes at the first slot, the compare-and-swap on the tail's `next` succeeds at the first try, and the walk along the links never starts |
| SpscQueue.FlagTellsUse | lockfreeQueue/lockfreeQueue.c:119-176 | the `use_flag` of a unit is set exactly from its filling until its bytes have been copied out |
| SpscQueue.CountersBound | lockfreeQueue/lockfreeQueue.c:112-115 | always 0 <= `r_len` <= `w_len` <= `max_unit_num`, and a push answers "full" exactly when unread units plus a pop in flight fill the queue |
| SpscQueue.PopAnswer | lockfreeQueue/lockfreeQueue.c:162-164 | with the documented guard a pop answers -1 exactly when nothing is unread; with the printed one always, which is right exactly when `r_len` is 0 |
| SpscQueue.PrintedGuardNeverPops | lockfreeQueue/lockfreeQueue.c:160-165 | with the guard as printed no pop ever gets past it, in any run, whatever was pushed |
| PrintedGuard.RefusesWaitingUnit | lockfreeQueue/lockfreeQueue.c:160-165 | a run with the printed guard in which a push succeeds and the pop after it answers -1 while the unit is waiting |
| SpscProgress.PopCompletes | lockfreeQueue/lockfreeQueue.c:167-177 | in every interleaving a pop that has taken `r_len` down hands out exactly the unit it claimed after its next `unit_size` + 8 own steps, and not before; each of them can be taken |
| SpscProgress.PushCompletes | lockfreeQueue/lockfreeQueue.c:119-148 | in every interleaving a push that has taken `w_len` up appends its unit after its next `unit_size` + 10 own steps, and not before |
| SpscProgress.PopAlone | lockfreeQueue/lockfreeQueue.c:152-180 | called alone, with the documented guard, a pop hands out the oldest unit and changes nothing else in the abstract queue; with none waiting it leaves every byte as it was |
| SpscProgress.PushAlone | lockfreeQueue/lockfreeQueue.c:101-151 | called alone, a push appends its unit when there is room, and leaves every byte as it was when there is none |
| SpscProgress.GivesUpOnlyWhenEmpty | lockfreeQueue/lockfreeQueue.c:160-165 | in every interleaving a pop with the documented guard gives up only at a moment at which no unit is waiting |
| SpscProgress.GivesUpOnlyWhenFull | lockfreeQueue/lockfreeQueue.c:110-115 | in every interleaving a push gives up only at a moment at which the queue is full |
| SpscProgress.OvertakenPopClaims | lockfreeQueue/lockfreeQueue.c:160-165 | a pop that pushes have overtaken claims the oldest unit within three own steps when it runs alone |
| SpscProgress.OvertakenPushCounts | lockfreeQueue/lockfreeQueue.c:110-115 | a push that pops have overtaken counts itself within three own steps when it runs alone |
| SpscQueue.SlotsApart | lockfreeQueue/lockfreeQueue.c:119-127 | the slots from the dummy to the one being filled are pairwise different |
| SpscQueue.CyclicDistance | lockfreeQueue/lockfreeQueue.c:121-123 | fewer than `max_unit_num`+1 pushes after it was handed out, a slot is not handed out again |
| SpscQueue.OldestUnit | lockfreeQueue/lockfreeQueue.c:167-174 | the dummy links to the oldest unread unit, which holds the bytes that were pushed |
| SpscQueue.UnitsTile | lockfreeQueue/lockfreeQueue.c:29-31 | every byte after the queue head is in exactly one unit, for the offsets -1 to `max_unit_num`, and no unit leaves the allocated memory |
| Pool.MemoryBound | epoll_mutilthread/src/block_obj_allocator.c:64-144 | over every run: live + cached + central objects equal what was carved, a cache has at most two batches and fewer than 2n objects, and, once a block is carved, peak <= n·B <= peak + (T-1)(2n-1) + n-1 |
| SharpBound.BoundAttained | epoll_mutilthread/src/block_obj_allocator.c:64-144 | for every n and every T there is a run in which n·B is exactly peak + (T-1)(2n-1) + n-1, so no smaller bound holds |
| Pool.OneThreadCarvesCeiling | epoll_mutilthread/src/block_obj_allocator.c:64-114 | with one thread the number of blocks is the peak demand divided by the batch size, rounded up |
| BatchCount.OneMoreIffNeeded | epoll_mutilthread/src/block_obj_allocator.c:88-169 | over every call the batches of all caches and the central list become one more if and only if the thread has no spare one and frees with every cached batch full, or allocates with nothing cached and nothing central; otherwise they stay as many |
| BatchCount.OneThreadBatches | epoll_mutilthread/src/block_obj_allocator.c:88-144 | over every run with one thread there are never more batches than blocks, which are the peak demand divided by the batch size, rounded up |
| BatchCount.BatchesUnbounded | epoll_mutilthread/src/block_obj_allocator.c:88-144 | for every batch size and every number there is a run of two threads with at least that many batches, in which never more than one object is out |
| PoolOrder.AllocTakesFirst | epoll_mutilthread/src/block_obj_allocator.c:88-114 | objects are handed out in line: those cached, in order, then those of the central list, and those of a new block when there are none |
| PoolOrder.FreeKeepsOrder | epoll_mutilthread/src/block_obj_allocator.c:116-144 | a free leaves the line in order; the object goes to its end, or before the last batch when only the one before has room; a batch that goes back goes to the end of the central list with the object as its last |
| PoolOrder.CarveRises | epoll_mutilthread/src/block_obj_allocator.c:46-52 | the objects of a new block line up by address, from its start |
| Pool.RunInv | epoll_mutilthread/src/block_obj_allocator.c:88-144 | in every reachable state each carved object is in exactly one place, batches in caches hold 1 to n objects that `free_size` counts exactly, spare batches are empty and central ones full |
| Pool.StepInv | epoll_mutilthread/src/block_obj_allocator.c:88-169 | each alloc, dealloc and first use keeps that order |
| Pool.AllocGivesFreshObject | epoll_mutilthread/src/block_obj_allocator.c:88-114 | the assertion of an allocation never fails, and the object handed out is carved and was not live |
| Pool.DeallocNeedsNullWord | epoll_mutilthread/src/block_obj_allocator.c:135-136 | a free keeps the pool in order if and only if the first word of the object is null; otherwise the object is nowhere afterwards |
| Pool.AllocKeeps | epoll_mutilthread/src/block_obj_allocator.c:88-114 | an allocation takes from the central list only when the cache is empty, carves only when the central list is empty too, and moves exactly one object out of the union of what was there |
| Pool.DeallocKeeps | epoll_mutilthread/src/block_obj_allocator.c:116-144 | a free adds exactly the object to cache and central list together, and a full batch goes back exactly when the cache has reached 2n |
| Pool.DeallocLoses | epoll_mutilthread/include/link_list.h:50-52 | with a first word that is not null nothing is added, yet the cache's counter is off |
| LossyFree.FreeCrashesIffLossy | epoll_mutilthread/src/block_obj_allocator.c:104-108 | a free in an ordered pool can be followed by an allocation that crashes if and only if the first word of the freed object is not null |
| LossyFree.LossyFreeCrashes | epoll_mutilthread/src/block_obj_allocator.c:91-108 | after such a free the thread gets exactly as many objects as it had cached before, and its next allocation fails the assertion if all its batches were full, and otherwise reads through a null batch |
| LossyFree.FirstFailedAssertion | epoll_mutilthread/src/block_obj_allocator.c:88-144 | the run of one thread, one allocation and one such free after which the next allocation fails the assertion |
| LossyFree.FirstNullBatch | epoll_mutilthread/src/block_obj_allocator.c:88-144 | a run with batches of two objects after which the next allocation reads through a null batch |
| Pool.RoomFor | epoll_mutilthread/src/block_obj_allocator.c:118-134 | a batch with room is found or started, and never a third one |
| Pool.LastWithRoom | epoll_mutilthread/src/block_obj_allocator.c:119-127 | the scan from the back stops at the last batch that is not full, or finds none |
| Pool.CarveCount | epoll_mutilthread/src/block_obj_allocator.c:46-52 | carving yields every object of the block once and no other |
| Pool.ObjectsDisjoint | epoll_mutilthread/src/block_obj_allocator.c:46-52 | distinct objects of a block have disjoint address ranges, all inside the block |
| Allocator.InitMemBlock | epoll_mutilthread/src/block_obj_allocator.c:46-52 | the loop links exactly the objects of the block behind the nodes of the batch, in order |
| Allocator.PopFrom | epoll_mutilthread/src/block_obj_allocator.c:106-107 | an object taken from one batch is in no batch any more and its first word is null; all other batches are in order and share no node |
| Allocator.PushTo | epoll_mutilthread/src/block_obj_allocator.c:135-135 | an object that is in no batch is in exactly this one afterwards if its first word is null, and in none otherwise |
| Allocator.ThreadAllocator.FindRoom | epoll_mutilthread/src/block_obj_allocator.c:118-127 | the loop over the batches finds the last one that is not full |
| Allocator.ThreadAllocator.Take | epoll_mutilthread/src/block_obj_allocator.c:106-113 | the first node of the batch is unlinked and handed out, an emptied batch moves to the empty list, and no node is in two batches |
| Allocator.ThreadAllocator.MakeRoomIn | epoll_mutilthread/src/block_obj_allocator.c:118-134 | a batch with room is found, reused or made, as `Pool.MakeRoom` says, and no batch is in two places |
| Allocator.ThreadAllocator.TakeFull | epoll_mutilthread/src/block_obj_allocator.c:137-143 | a batch that is full leaves the cache exactly when `free_size` has reached twice the batch size |
| Allocator.ThreadAllocator.Put | epoll_mutilthread/src/block_obj_allocator.c:116-144 | new cache and returned batch are those of `Pool.DeallocTo`, where the null first word is that of the node; the nodes in batches grow by exactly that node, if it is kept |
| Allocator.ThreadAllocator.RefillFromBlock | epoll_mutilthread/src/block_obj_allocator.c:95-102 | a spare or new batch is filled with the fresh nodes of a block and put into the cache |
| Allocator.BlockObjAllocator.CentralGetMemlist | epoll_mutilthread/src/block_obj_allocator.c:64-80 | takes the first central batch if there is one, and otherwise a new block; no thread's batches change |
| Allocator.BlockObjAllocator.Refill | epoll_mutilthread/src/block_obj_allocator.c:91-102 | the cache gets the batch that `Pool.GetBatch` names, and still no batch is in two places and no node in two batches |
| Allocator.BlockObjAllocator.ThreadAlloc | epoll_mutilthread/src/block_obj_allocator.c:88-114 | object, cache, central list and blocks are those of `Pool.AllocFrom`; other threads' caches are as they were |
| Allocator.BlockObjAllocator.Alloc | epoll_mutilthread/src/block_obj_allocator.c:171-186 | the allocator's state after the call is `Pool.Do` of the state before, and the node handed out is in no batch of any thread or of the central list; the caches stay registered, and every batch is an old or a new one |
| Allocator.BlockObjAllocator.Dealloc | epoll_mutilthread/src/block_obj_allocator.c:188-201 | the state after a free is `Pool.Do` of the state before, with the first word read from the node; the nodes in batches are those before and, if its first word is null, this one; the caches stay registered, and every batch is an old or a new one |
| Allocator.BlockObjAllocator.ThreadDealloc | epoll_mutilthread/src/block_obj_allocator.c:116-144 | cache and central list are those of `Pool.DeallocTo`; other threads' caches are as they were |
| Allocator.BlockObjAllocator.GiveBackToCentral | epoll_mutilthread/src/block_obj_allocator.c:82-86 | the batch is in the central list and nowhere else |
| Allocator.BlockObjAllocator.CreateThreadAllocator | epoll_mutilthread/src/block_obj_allocator.c:158-169 | adds one new, empty cache behind those that are registered and changes nothing else |
| AllocatorRuns.Serve | epoll_mutilthread/src/block_obj_allocator.c:171-201 | any sequence of calls, by any threads and on any objects held, is a run of `Pool`: what callers hold are distinct objects, in no batch, as many as allocations less frees; with cached and central ones they make up the blocks, which peak + (T-1)(2n-1) + n-1 bounds |
| AllocatorRuns.Thread | epoll_mutilthread/src/block_obj_allocator.c:171-182 | a thread gets the cache that is its own in the table of thread-specific data, which its first call adds, and never that of another thread |
| AllocatorRuns.ServeOne | epoll_mutilthread/src/block_obj_allocator.c:171-201 | each call is exactly one step of `Pool` by the cache of the calling thread, after a step that registers it if it is new |
| AllocatorRuns.Obtain | epoll_mutilthread/src/block_obj_allocator.c:171-186 | an allocation prolongs the run by one step, and hands out a node that is another object than all those held and in no batch |
| AllocatorRuns.Return | epoll_mutilthread/src/block_obj_allocator.c:188-201 | a free of a held object, its first word cleared, prolongs the run, and the others stay held |
| ObjectSize.GetK | epoll_mutilthread/src/block_obj_allocator.c:226-230 | what `create_block_obj_allocator` needs of `GetK` (wpacket.c, lines 15 to 25): over all 32-bit sizes, the exponent of the least power of two that is at least the size, if and only if the size is at most 2^31, and above that of the greatest one in what is left of the doubled size |
| ObjectSize.BitTest | epoll_mutilthread/src/block_obj_allocator.c:226-230 | the test `size & (size - 1)` (wpacket.c, lines 11 to 13) is zero exactly for 0 and the powers of two |
| ObjectSize.CreateObjSize | epoll_mutilthread/src/block_obj_allocator.c:227-231 | the object size is the least power of two that is at least the request and a pointer; it is smaller than the request if and only if that is above 2^31, and smaller than a pointer if and only if that is at most 3 more |
| ObjectSize.BatchSize | epoll_mutilthread/src/block_obj_allocator.c:54-59 | batches are non-empty if and only if at most a whole block is asked for, or above 2^31 less than a block more than that, and then objects fill the block exactly |
| MessageQueue.RunRefinesLog | epoll_mutilthread/src/mq.c:123-220 | over all interleavings each producer's pushes, but for messages that were linked, are its part of the shared log followed by its push list, and each consumer's deliveries followed by its pop list are the stretches of the log it took; what was taken and the shared list make up the log |
| MessageQueue.LogOnlyGrows | epoll_mutilthread/src/mq.c:123-155 | what was shared is never taken back or reordered: the log at an earlier moment is a prefix of the log at a later one |
| MessageQueue.PopsCutLog | epoll_mutilthread/src/mq.c:140-220 | over all interleavings the calls of a thread cut the stretches it took, in order: a call takes over once, exactly when nothing is left from before, and takes nothing only if it may not wait or its wait timed out; mq_push_list then returns all that is left, and mq_pop one message, or none exactly when there is none |
| MessageQueue.PollNeverWaits | epoll_mutilthread/src/mq.c:140-155 | over all interleavings only calls with a timeout above 0 wait |
| MqCalls.PopAlone | epoll_mutilthread/src/mq.c:140-220 | a call that nobody disturbs returns from its own list or, when that is empty, from all that is shared, and leaves the rest; it waits, linked last, exactly when there is nothing and it has time |
| MqCalls.WakeAlone | epoll_mutilthread/src/mq.c:144-153 | a thread that wakes up returns from all that is shared, and waits on when there is nothing |
| MqCalls.TimeOutAlone | epoll_mutilthread/src/mq.c:147-154 | a thread that times out is unlinked and returns from what is shared by then |
| MqCalls.PushAlone | epoll_mutilthread/src/mq.c:123-196 | a push appends the message unless it is linked, and shares the whole list exactly when it is mq_push_now or `push_size` is reached; the first blocked thread is unlinked and signalled exactly when nothing was shared before |
| MqCalls.FlushAlone | epoll_mutilthread/src/mq.c:223-227 | one queue of a flush is shared likewise, and left as it is when the list is empty |
| MessageQueue.NothingLostOrDoubled | epoll_mutilthread/src/mq.c:123-220 | every occurrence of a pushed message that was not linked then is in exactly one push list, the shared list, a pop list or the deliveries, and a linked one in none |
| MessageQueue.BoundedLag | epoll_mutilthread/src/mq.c:186-190 | between operations a thread holds back fewer than `push_size` messages |
| MessageQueue.NoMessageStranded | epoll_mutilthread/src/mq.c:123-155 | in undisturbed runs, whenever messages are shared while threads are linked as blocked, another one, not linked, has been signalled and can take everything, or is about to be signalled |
| MessageQueue.BookkeepingKept | epoll_mutilthread/src/mq.c:140-155 | a step keeps the list of blocked threads right if and only if it is not a timeout between unlink and signal and not a wakeup out of nothing then or with messages there |
| MqStranding.OvertakenSignalStrands | epoll_mutilthread/src/mq.c:127-135 | a run without spurious wakeups that ends with a message shared, a consumer linked as blocked, and nobody signalled or about to be |
| MqStranding.StaleLinkStrands | epoll_mutilthread/src/mq.c:123-138 | in any queue at rest the next message pushed is stranded if and only if the first of several links is that of a thread that no longer waits; the threads linked behind wait on |
| MqDamage.StrandsIffThreeThreads | epoll_mutilthread/src/mq.c:123-155 | after any undisturbed run, a disturbed step can be followed, by undisturbed steps alone, by a shared message with a waiting thread linked as blocked and nobody signalled or about to be, if and only if there are at least three threads |
| MqDamage.DisturbedDeserts | epoll_mutilthread/src/mq.c:123-155 | with three threads every disturbed step of a queue in order can be followed by that |
| MqDamage.StaleDeserts | epoll_mutilthread/src/mq.c:127-135 | so can every state in which a thread is linked that no longer waits and another waits behind it or is about to be woken |
| MqDamage.OvertakenDeserts | epoll_mutilthread/src/mq.c:123-155 | and so can every state in which a thread has left before the signal that it was unlinked for, whatever the others are in the middle of |
| MqDamage.TwoThreadsNeverStrand | epoll_mutilthread/src/mq.c:123-155 | between two threads, whatever timeouts and wakeups come, nothing is ever shared while a thread is linked as blocked |
| MqStranding.StaysStranded | epoll_mutilthread/src/mq.c:123-138 | in such a state no step of a pushing thread wakes the blocked consumer |
| MessageQueue.StepInv | epoll_mutilthread/src/mq.c:123-220 | every step keeps the relation between log, lists and deliveries of all threads |
| MessageQueue.UnlinkKeeps | epoll_mutilthread/src/mq.c:146-149 | a thread that times out leaves `blocks`, and the others stay |
| MqFlush.FlushLeavesNothing | epoll_mutilthread/src/mq.c:229-240 | a thread that has finished a flush holds back nothing on any queue, whatever other threads did meanwhile |
| MqFlush.FlushEnds | epoll_mutilthread/src/mq.c:229-240 | a thread that flushes by itself comes to the end in at most two moves for each queue on its list, and holds back nothing |
| MqFlush.AssociatedOnce | epoll_mutilthread/src/mq.c:160-184 | the list of a thread names exactly the queues it has pushed to, each once |
| MqFlush.MoveInv | epoll_mutilthread/src/mq.c:223-240 | every step on every queue and of every flush keeps this and leaves flushed push lists empty |
| IoChannel.NoLostEdge | epoll_mutilthread/include/Socket_comp.h:3-62 | in every interleaving, while the readable flag is 0 the descriptor is not ready or an edge is yet to be delivered |
| IoChannel.StepEdge | epoll_mutilthread/include/Socket_comp.h:35-49 | each step keeps that, because a thread with EAGAIN in hand and the current activation count is right that nothing came since |
| IoChannel.RequestsConserved | epoll_mutilthread/include/Socket_comp.h:3-62 | each submitted request that was not linked then is in exactly one place and completes at most once, retries and re-insertion included; a linked one is in none |
| IoChannel.StepPlaces | epoll_mutilthread/include/Socket_comp.h:26-62 | each step moves a request from one place to another |
| IoChannel.SubmitRunsOwn | epoll_mutilthread/src/KendyNet.c:188-200 | a submission that may start at once carries out its own request if and only if none was pending and the request was not linked, and nothing if and only if none was pending and it was |
| IoChannel.ForeignResult | epoll_mutilthread/src/KendyNet.c:188-200 | a run in which a submission completes another caller's request and returns its result, with no notification, while its own stays pending |
| IoOrder.CompletesInOrder | epoll_mutilthread/include/Socket_comp.h:3-62 | over every run in which one thread at a time carries out a request, the completed ones, the one being carried out and the pending ones are, in this order, the submitted ones, EAGAIN retries and re-insertions included |
| IoOrder.TwoCallsReorder | epoll_mutilthread/include/Socket_comp.h:26-62 | when two threads are in their calls, at least one of the completions that can come next is out of order |
| IoOrder.QueuedIffActivation | epoll_mutilthread/include/Socket_comp.h:59-60 | over all interleavings a result is put on the completion queue if and only if an edge started the request |
| IoCalls.ActivateAlone | epoll_mutilthread/include/Socket_comp.h:3-12 | an edge sets the flag and starts the first pending request, if there is one; the result says what the system call said, tells end of stream and failure from data, and goes to the completion queue |
| IoCalls.SubmitAlone | epoll_mutilthread/src/KendyNet.c:188-200 | a submission joins the end of the list unless the request is linked; if the flag is set the first request there is carried out and its result returned, and otherwise nothing is |
| IoCalls.EagainParks | epoll_mutilthread/include/Socket_comp.h:33-49 | in every interleaving a request that meets EAGAIN becomes the first pending one, with the flag cleared, if and only if no edge came until the lock was taken, and otherwise is tried again with the new count |
| TimerRuns.FiresAtFirstDueTick | timer.h:146-160 | an armed timer left alone is pending until the first tick whose clock has reached its expiry, calls back in that tick with that clock, and is gone |
| TimerRuns.FiresAtMostOnce | timer.h:146-160 | no timer calls back twice in any run |
| TimerRuns.DeletedNeverFires | timer.h:130-134 | a timer without its callback never calls back, however long the run goes on |
| TimerRuns.GoneForGood | timer.h:136-144 | a removed timer is never pending and never calls back again |
| TimerRuns.FiringsOnce | timer.h:149-159 | a tick calls back exactly the armed timers among those it removes, each once |
| TimerRuns.PendingStep | timer.h:113-160 | what one operation can do to a pending timer |
| TimerHeap.TimeHeap.Tick | timer.h:146-160 | removes exactly the timers due at the sampled clock, in order of expiry, calls back the armed ones, and keeps the heap |
| TimerHeap.TimeHeap.FireTop | timer.h:154-157 | one turn of that loop calls back the earliest timer if it is armed, and removes it |
| TimerHeap.TimeHeap.AddTimer | timer.h:113-128 | adds exactly the timer, growing when full; the heap stays in order if and only if the timer was not in it |
| TimerHeap.TimeHeap.Insert | timer.h:113-128 | the multiset of timers grows by exactly the new one, and the array is a heap, also when the timer is there twice then |
| TimerHeap.TimeHeap.SiftUp | timer.h:118-127 | the rising loop makes a heap of a heap and one more element |
| TimerHeap.TimeHeap.Percolate | timer.h:162-178 | the sinking loop extends the heap property down to the start position and permutes the elements |
| TimerHeap.TimeHeap.Heapify | timer.h:73-75 | makes a heap of any array, permuting it |
| TimerHeap.TimeHeap.FromArray | timer.h:62-77 | the constructor makes a heap with exactly the given timers, from which runs can start; it is in order if and only if no timer is named twice |
| TimerHeap.TimeHeap.ResizeHeap | timer.h:180-192 | doubles the capacity and keeps the elements in place |
| TimerHeap.TimeHeap.PopTimer | timer.h:136-144 | removes a timer that none precedes, without calling back, and keeps the heap |
| TimerHeap.TimeHeap.DeleteTimer | timer.h:130-134 | clears the callback and changes nothing else; a timer of another heap leaves this one as it is |
| TimerHeap.TimeHeap.GetTop | timer.h:90-95 | null exactly for an empty heap, and otherwise a minimum of all timers |
| TimerHeap.TopIsLeast | timer.h:90-95 | the first element of a heap is a minimum |
| TimerHeap.SinkStep | timer.h:165-176 | exchanging with the smaller child moves the only possible violation down |
| TimerHeap.RiseStep | timer.h:120-126 | exchanging with the parent moves the only possible violation up |
| TimerHeap.RemoveTop | timer.h:141-142 | putting the last element first and shortening removes exactly the top and leaves a heap below it |
| SpinLock.MutualExclusion | epoll_mutilthread/src/spinlock.c:26-57 | over every interleaving at most one thread is inside, it is the owner, and `lock_count` is its nesting depth |
| SpinLock.StepInv | epoll_mutilthread/src/spinlock.c:26-57 | every load, store and compare-and-swap keeps the relation of owner, counter, depths and program counters |
| SpinLock.UnlockByOwnerOnly | epoll_mutilthread/src/spinlock.c:46-57 | an unlock takes effect if and only if the thread is inside, and otherwise changes nothing |
| SpinLock.ReleasedAtDepthZero | epoll_mutilthread/src/spinlock.c:49-53 | only the unlock of the outermost level gives up the owner |
| SpinLock.OthersSpin | epoll_mutilthread/src/spinlock.c:33-41 | while the lock is owned nobody else gets past spinning, returns from a lock or changes anything |
| SpinLock.LockReturnsInside | epoll_mutilthread/src/spinlock.c:26-44 | in every interleaving `spin_lock` returns only to a thread that is inside, one level deeper |
| SpinLock.FreeLockIsTaken | epoll_mutilthread/src/spinlock.c:33-43 | a free lock is taken by a thread that runs alone, five steps after its call |
| SpinLock.NestedLockReturns | epoll_mutilthread/src/spinlock.c:27-31 | a thread inside is one level deeper three steps after its call, and nothing else changes |
| SpinLock.UnlockReturns | epoll_mutilthread/src/spinlock.c:46-57 | an unlock takes it one level up, the last one gives up the lock, and one by a thread outside changes nothing |
| SpinLock.OwnerReturns | epoll_mutilthread/src/spinlock.c:26-57 | in every interleaving a call of the owner returns after a fixed number of its own steps, and not before, at the right depth |
| LinkList.LinkList.PushBack | epoll_mutilthread/include/link_list.h:50-61 | appends the node, or does nothing when it is followed by another; the list stays in order if and only if the node was not its own last one, which would be linked to itself |
| LinkList.LinkList.PushFront | epoll_mutilthread/include/link_list.h:63-75 | prepends likewise; its own last node would close a cycle |
| LinkList.LinkList.Pop | epoll_mutilthread/include/link_list.h:77-87 | takes the first node with its link cleared, or null from an empty list |
| LinkList.LinkList.Swap | epoll_mutilthread/include/link_list.h:32-43 | concatenates and empties the source; swapped with itself, a list loses its nodes |
| LinkList.LinkList.Clear | epoll_mutilthread/include/link_list.h:45-48 | the list is empty |
| LinkList.OneSpine | epoll_mutilthread/include/link_list.h:10-15 | head and links determine the sequence of nodes |
| LinkList.HandOver | epoll_mutilthread/include/link_list.h:50-87 | a node popped from one list can be pushed to another, and both stay in order |
| DoubleLink.DoubleLink.Remove | epoll_mutilthread/include/double_link.h:33-40 | takes exactly the member out, wherever it is; a free node is refused |
| DoubleLink.DoubleLink.Push | epoll_mutilthread/include/double_link.h:52-60 | appends a free node; a linked one is refused and nothing changes |
| DoubleLink.DoubleLink.Pop | epoll_mutilthread/include/double_link.h:42-50 | takes the first member out, or null |
| DoubleLink.DoubleLink.First | epoll_mutilthread/include/double_link.h:19-23 | the first member, or null |
| DoubleLink.DoubleLink.Last | epoll_mutilthread/include/double_link.h:25-29 | the last member, or null |
| DoubleLink.DoubleLink.Empty | epoll_mutilthread/include/double_link.h:15-17 | true exactly when there is no member |
| DoubleLink.DoubleLink.constructor | epoll_mutilthread/include/double_link.h:62-66 | cleared sentinels are an empty list |
| DoubleLink.DoubleLink.Bridged | epoll_mutilthread/include/double_link.h:36-37 | linking the neighbours of a node leaves forward and backward links inverse without that node |
| DoubleLink.DoubleLink.Neighbours | epoll_mutilthread/include/double_link.h:33-39 | a member's links lead to two other nodes of the chain, so `remove` does not refuse it |
| DoubleLink.DoubleLink.LinkedIsNotFree | epoll_mutilthread/include/double_link.h:52-54 | no node of a list looks free, so a list never takes a node twice |
| BufferChain.Read | epoll_mutilthread/src/buffer.c:52-69 | returns 0 if and only if the concatenated chain has enough bytes from `pos`, with exactly that slice copied; otherwise -1 with all there is copied and the rest of the output untouched; with `pos` beyond the bytes in use it returns 0 with stale memory |
| BufferChain.ReadOn | epoll_mutilthread/src/buffer.c:56-67 | reading on within a buffer or over its end, empty buffers included, continues the same byte sequence |
| BufferRefs.LiveIffReachable | epoll_mutilthread/src/buffer.c:34-50 | when the counts are right, the buffers not freed are exactly those that some handle leads to, also along the links there were before |
| BufferRefs.DyingIsPrefix | epoll_mutilthread/src/buffer.c:7-13 | the buffers a release destroys are the longest stretch of the chain that nothing else refers to |
| BufferRefs.Ledger.Drop | epoll_mutilthread/src/refbase.c:10-18 | giving up a reference frees exactly that stretch, terminates, and leaves every count equal to handles plus incoming links |
| BufferRefs.Ledger.Destroy | epoll_mutilthread/src/buffer.c:7-13 | likewise from the link of a destroyed buffer on |
| BufferRefs.Ledger.Release | epoll_mutilthread/src/buffer.c:45-50 | drops one handle, keeps every count equal to handles plus links, and frees exactly the buffers that no remaining handle leads to |
| BufferRefs.Ledger.Acquire | epoll_mutilthread/src/buffer.c:34-43 | trades the handle, never frees its target, also when that is only held by the buffer given up, and frees exactly the buffers that no handle leads to then; equal arguments change nothing |
| BufferRefs.Ledger.Increase | epoll_mutilthread/src/refbase.c:3-8 | one more reference, one more handle |
| BufferRefs.Ledger.CreateAndAcquire | epoll_mutilthread/src/buffer.c:29-32 | a new buffer with its handle replaces the old handle, and exactly the buffers that no handle leads to then are freed |
| BufferRefs.Ledger.Extend | epoll_mutilthread/src/buffer.c:29-32 | as wpacket.c, line 107, uses it: hanging a new, empty buffer of the given capacity on the end of a chain turns its handle into a counted link |
| BufferRefs.CountedWithout | epoll_mutilthread/src/buffer.c:7-13 | removing a buffer with count 0 leaves its successor with exactly one reference too many |

## Left out

- Several pushing or several popping threads on the queue of `lockfreeQueue.c`: a stalled thread can outlive the slot-reuse window, so the results are for one of each.
- Attaching to existing shared memory and `get_shm` (lockfreeQueue/lockfreeQueue.c:33-81), null arguments, and products that overflow `int32_t`: `InitQueue` takes fresh memory and a `max_unit_num` that is not negative.
- Weak memory ordering: shared accesses are sequentially consistent.
- Failing `malloc` and `calloc`, `printf`, destruction of allocators, queues and locks, and thread exit.
- Counters are unbounded: the activation counters of sockets, `lock_count`, reference counts and timer expiries do not wrap around.
- Pool.MemoryBound: one alloc or dealloc is one step, which is what the lock around the single access to the central list makes of it; the objects are values here, and nodes in `Allocator`.
- Allocator.ThreadAllocator.Take: objects are linked nodes, but the lists of batches are sequences of lists; that the sentinel list of `double_link.h` is a sequence is what `DoubleLink` proves.
- Allocator.ThreadAllocator.TakeFull: likewise for the batch that leaves the free list.
- Allocator.ThreadAllocator.MakeRoomIn: likewise for the free and the empty list.
- Allocator.ThreadAllocator.RefillFromBlock: likewise for the free list that gets the batch.
- Allocator.ThreadAllocator.Put: likewise for the lists of batches it scans and extends.
- Allocator.BlockObjAllocator.CentralGetMemlist: likewise for the central list; the list of memory blocks is their number.
- Allocator.BlockObjAllocator.Refill: likewise for the central list and the cache.
- Allocator.BlockObjAllocator.ThreadAlloc: likewise for the lists of batches it takes from and extends.
- Allocator.BlockObjAllocator.ThreadDealloc: likewise for the lists of batches it puts into.
- Allocator.BlockObjAllocator.GiveBackToCentral: likewise for the central list.
- Allocator.BlockObjAllocator.Dealloc: requires an object that is in no batch, so it says nothing of freeing an object twice.
- AllocatorRuns.Serve: the calls come one after the other; interleaved, each is one step in `Pool`.
- AllocatorRuns.Thread: an allocator made without a lock, whose calls all use the first cache, is the case of one thread.
- The protocols `SpscQueue`, `MessageQueue`, `IoChannel` and `SpinLock` are functions on states and not classes, because their steps interleave.
- First use of a message queue or allocator by a thread is one step; the unsynchronised push to `m->local_lists` (epoll_mutilthread/src/mq.c:164) is not modelled.
- MessageQueue.NoMessageStranded: says that somebody can run, not that the scheduler lets it; fairness is not modelled.
- Progress of every pending socket request: the code completes one per edge or submission and relies on callers to resubmit.
- The `_POLL` variants of `WSASend` and `WSARecv`, `GetQueueEvent`, handles, engines and sockets.
- `_send`, `on_write_active` and `WSASend` are not modelled a second time: they differ from the receiving side in names only.
- Timer callbacks that change the heap: a callback is an entry in a log.
- TimerHeap.TimeHeap.AddTimer: says nothing of freed memory; a timer that was removed, and so freed, keeps its expiry in the model.
- BufferChain.Read: with `pos` beyond the bytes in use only reads that stay inside the memory of the first buffer.
- BufferRefs.Ledger.Release: one thread at a time; the interleavings of atomic increments and decrements for `mt` buffers are not modelled.
- Links set other than by hanging a new buffer on the end of a chain are outside `BufferRefs`.
- LinkList.LinkList.PushBack: a node of another list is not distinguished from a free one when it is the last there; what that does to the other list is not stated.
- LinkList.LinkList.Swap: two different lists that share nodes are excluded.
- The commented-out buffer allocator (epoll_mutilthread/src/buffer.c:72-237), `server_framework.h`, `socket.cpp`, packets and the one-shot barrier.
