# A verified model of corekit's concurrent, IPC, memory and task components

This project models six components of corekit in Dafny and proves what they promise.

* **The lock-free queue** (`FreeList`, `FreeListAnswers`, `DequeueCounters`, `BlockIndex`, `IndexRoom`,
  `ImplicitQueue`, `QueueRuns`, `QueueAnswers`, `QueueStorage`, `ZeroBulk`). State machines in which every access to a shared variable is one sequentially
  consistent step and all threads interleave freely: the reference-counted free list, the
  optimistic and overcommit dequeue counters, the growing circular block index, and one implicit
  producer with any number of consumers using all three.
* **The shared-memory channel** (`RingSizing`, `RingLayout`, `ShmChannel`, `ChannelSteps`,
  `ChannelRuns`, `ChannelProgress`, `ChannelAnswers`, `ZeroRing`). One writer and one reader on a ring of bytes, one step per
  index access, header store and byte copied; the ring refines a FIFO of messages.
* **The slab pool** (`SlabStore`, `SlabSteps`, `SlabLineage`, `SlabPool`) and **the byte accounting of
  a tree of pools** (`PoolAccounting`). The class in `SlabPool` holds the pool's fields; `SlabLineage`
  follows its blocks over whole runs of allocations, frees and shrinks.
* **The task graph** (`DependencyGraph`, `TaskGraph`): construction, validation, level-by-level runs.
* **The thread-pool executor** (`ExecutorModel`, `ExecutorSteps`, `ExecutorLinks`, `ExecutorCounts`,
  `ExecutorRuns`, and the class in `ThreadPool`, each of whose methods is one critical section and is
  proved to carry out one step of the model), and `ParallelFor`: its loop in size_t arithmetic, and
  `ParallelRuns`, where it is a client that submits and waits while workers and others step.
* **The global allocator** (`GlobalAlloc`) and the backend whose books it relies on.

`Sums` and `Modular` hold facts about finite sums, sets and remainders.

The state machines follow one pattern: a `State`, total step functions, an invariant `Inv` over the
state and, where needed, a proof-only `Aux`, one preservation lemma per step, `Run` over event
sequences, and theorems about every reachable state. Theorems named below with a `Reachable`
precondition hold in every state of every run. The modules `FreeListAnswers`, `QueueAnswers`,
`QueueStorage` and `ChannelAnswers` add what an operation returns: started in any reachable state with
the others at rest and stepping alone, it ends and does exactly what is stated.

Where the code does not do what its design or its comments suggest, the model follows the code:

* A channel with room for one message can get stuck for ever (`ChannelProgress.ProgressNeedsTwo`).
* `NextPow2` wraps to 0 above 2^31, so an accepted channel whose options ask for more than 2^31 bytes
  has a ring of no bytes (`RingSizing.RingHoldsTarget`). It accepts every send and delivers nothing
  (`ZeroRing.SendIsAccepted`, `ZeroRing.EverythingIsLost`).
* `i_memory_pool.hpp` says that a shrink does not affect allocated memory, which holds, and that it
  releases all idle blocks, which does not: a block that survived one shrink is never released again
  (`SlabLineage.KeptForEver`). A shrink releases all idle blocks if and only if every block that
  survived an earlier one still has a live slot (`SlabLineage.ReleasesAllIdle`).
* The reason is that `Shrink` moves the block records and renames only idle slots. An allocation or a
  free of a slot that was live at the last shrink writes through a pointer to a record that no longer
  exists, and exactly these do (`SlabLineage.OwnerExists`). In the code that write goes to freed
  memory; the model lets it change nothing. What is proved about a pool after such a write therefore
  holds for the code only as far as the write does no damage elsewhere; up to the first such write
  nothing rests on this.
* `i_memory_pool.hpp` says that a child pool's usage counts against the parent's limit. It is counted
  but not tested. An allocation that passes its own budget test keeps all counters within their limits
  if and only if there is room below the parent's limit too (`PoolAccounting.LimitsNeedRoomAbove`).
* `stats_.canceled` counts an id again on every further `TryCancel` (`ExecutorRuns.RecountsCanceledIds`).
* `Wait` answers NotFound for an accepted task exactly when 65536 others finished after it
  (`ExecutorRuns.WaitAnswersNotFound`), so `ParallelFor` with more chunks than that may fail although
  every index was run (`ParallelRuns.TooManyChunks`).
* `ParallelFor` hands each index of its range to the body exactly once, and ends, if and only if no sum
  in its loop wraps (`ParallelFor.PartitionIffNoWrap`). With a wrap it may run indices outside the range
  or never end.
* A bulk dequeue of at most zero elements looks up a block it has no claim on and may find none
  (`ZeroBulk.ZeroBulkFaults`); all other queue theorems are about dequeues of at least one. Done in one
  go, the lookup succeeds unless the head index is at the boundary of two blocks with nothing enqueued
  beyond it (`QueueRuns.HeadLookup`).

## Model

| member | source | states |
|---|---|---|
| FreeList.InvStep | 3party/concurrentqueue.h:1459-1538 | every step of `add` and `try_get` keeps the invariant that ties each node's reference word to the threads counting it, its owner and the list |
| FreeList.ExclusiveOwnership | 3party/concurrentqueue.h:1459-1538 | no node is owned by two callers, nor owned while another thread is about to receive or link it |
| FreeList.NextIsStable | 3party/concurrentqueue.h:1473-1538 | while any thread counts a reference to a node, no step of any thread changes its `freeListNext` |
| FreeList.ActsAsPool | 3party/concurrentqueue.h:1459-1538 | for its callers the list is a set of nodes without owner: `try_get` moves one of them to its caller, `add` gives one back, no other step moves any; this is the pool of blocks that the queue's model takes blocks from |
| FreeList.PoppedIsUnflagged | 3party/concurrentqueue.h:1487-1496 | the assertion after the winning compare-and-swap: the node does not carry the list flag, and its reference count is at least two |
| FreeList.QuiescentList | 3party/concurrentqueue.h:1459-1538 | with no operation under way the list has no duplicates, is what the next pointers visit, and every node is either on it or owned, never both and never lost |
| FreeListAnswers.TryGetAnswers | 3party/concurrentqueue.h:1473-1538 | `try_get` alone on a quiet list ends: the empty list gives nothing; otherwise the caller gains exactly the head node and the list loses its first element |
| FreeListAnswers.AddAnswers | 3party/concurrentqueue.h:1459-1471 | `add` alone on a quiet list ends with the node off its caller and at the front of the list |
| FreeListAnswers.NullMeansEmpty | 3party/concurrentqueue.h:1473-1538 | under every interleaving, a `try_get` that comes back with nothing saw the list empty at some moment during the call |
| DequeueCounters.CircularLessThanMeaning | 3party/concurrentqueue.h:477-483 | on indices less than half the word apart, the wrapped comparison is the comparison of the indices |
| DequeueCounters.CircularLessThanExact | 3party/concurrentqueue.h:477-483 | true exactly when 0 < b - a < 2^(w-1) around the circle |
| DequeueCounters.SingleIsBulkOfOne | 3party/concurrentqueue.h:2551-2575 | each step of the single dequeue, with its own tests and increments, is the step of a bulk dequeue of one |
| DequeueCounters.ConsumerInv | 3party/concurrentqueue.h:2780-2801 | every consumer step keeps the ticket bookkeeping: granted and refused tickets, and why every grant fits below the tail |
| DequeueCounters.PublishInv | 3party/concurrentqueue.h:2544-2547 | publishing more elements keeps it |
| DequeueCounters.CountersBalance | 3party/concurrentqueue.h:2551-2619 | optimistic count = head index + overcommit + unresolved reservations |
| DequeueCounters.GivesUpExactly | 3party/concurrentqueue.h:2780-2787 | a dequeue gives up exactly when the elements it saw published are all claimed or reserved, up to reservations given back since it looked; otherwise it reserves the others, at most as many as it may take |
| DequeueCounters.RecheckGrants | 3party/concurrentqueue.h:2789-2801 | the second look at the tail grants exactly the reserved tickets below it, and exactly the rest goes back to the overcommit |
| DequeueCounters.HeadNeverPassesTail | 3party/concurrentqueue.h:2780-2801 | the head index plus all grants outstanding is at most the tail index |
| DequeueCounters.EachIndexClaimedOnce | 3party/concurrentqueue.h:2780-2801 | the indices below the head are exactly the claimed ones, each claimed by one consumer and below the tail |
| BlockIndex.RoomFound | 3party/concurrentqueue.h:2901-2915 | when the test for room succeeds, there is a slot that no unreleased block uses |
| BlockIndex.KeyStored | 3party/concurrentqueue.h:2912 | storing the key of the next slot keeps every block findable |
| BlockIndex.TailMoved | 3party/concurrentqueue.h:2913 | so does advancing the tail onto it before its value is stored |
| BlockIndex.TailRewound | 3party/concurrentqueue.h:2935-2939 | and the rewind undoes it |
| BlockIndex.NullStored | 3party/concurrentqueue.h:2509-2512 | and so does the null stored after a failed requisition |
| BlockIndex.ValueStored | 3party/concurrentqueue.h:2532-2535 | the stored value makes the block part of the index |
| BlockIndex.BlockReleased | 3party/concurrentqueue.h:2599-2608 | releasing blocks in any order keeps the others findable |
| BlockIndex.GrownInv | 3party/concurrentqueue.h:2966-3008 | doubling keeps every unreleased block findable in the old and in the new header, and makes room |
| BlockIndex.SlotFound | 3party/concurrentqueue.h:2948-2964 | from the tail slot of any header and the key read there, the computed slot is that of the wanted block |
| BlockIndex.SlotHolds | 3party/concurrentqueue.h:2948-2964 | that slot has the block's base as key and, until release, the block as value |
| BlockIndex.SlotAfter | 3party/concurrentqueue.h:2868 | the next block of a bulk claim is one slot further |
| IndexRoom.RoomExactly | 3party/concurrentqueue.h:2901-2915 | the test for room fails if and only if the block inserted one full circle earlier is not released |
| IndexRoom.GrownSlotIsNew | 3party/concurrentqueue.h:2927 | the assertion after growing: the next slot has never been used |
| ImplicitQueue.ConsumerInv | 3party/concurrentqueue.h:2780-2879 | every consumer step keeps the invariant of the whole queue |
| ImplicitQueue.ProducerInvStep | 3party/concurrentqueue.h:2487-2547 | every producer step keeps it |
| QueueRuns.NoFault | 3party/concurrentqueue.h:2806-2816 | no consumer dereferences a null block |
| QueueRuns.LookupFindsTheBlock | 3party/concurrentqueue.h:2948-2964 | from claim to release, whatever header a consumer loaded, its slot's key is the base of its index's block and its value the block that holds the element |
| QueueRuns.ReadingSeesTheItems | 3party/concurrentqueue.h:2817-2823 | a consumer reads the element enqueued at its index |
| QueueRuns.DeliveriesAreRight | 3party/concurrentqueue.h:2551-2619 | every delivery is the enqueued element, and no index is delivered twice |
| QueueRuns.QuiescentDeliveries | 3party/concurrentqueue.h:2551-2619 | once all consumers have finished, exactly the indices below the head were delivered |
| QueueRuns.HeadLookup | 3party/concurrentqueue.h:2948-2964 | the block of the head index, claimed or not, is found whenever it is in the index |
| QueueAnswers.DequeueAnswers | 3party/concurrentqueue.h:2551-2879 | with all consumers at rest, a dequeue of at most max > 0 stepping alone ends and delivers exactly the elements of the next min(max, tail - head) indices in order; none if and only if head = tail |
| QueueStorage.EnqueueAnswers | 3party/concurrentqueue.h:2487-2547 | with all consumers at rest, an enqueue stepping alone ends; it appends its element if and only if no new block is due, or the index has a free slot or may grow and a block can be had; otherwise nothing the consumers see changes |
| QueueStorage.RoomAtRest | 3party/concurrentqueue.h:2901-2918 | with all consumers at rest, the index has room for a due block if and only if at most 32 * (capacity - 1) elements are queued |
| QueueStorage.BlocksConserved | 3party/concurrentqueue.h:2509-2535 | no block is lost: with nothing under way, the blocks not available again number exactly those from the head index's block to the last one begun |
| QueueStorage.MaskIsSlot | 3party/concurrentqueue.h:2966-3008 | header j has 32 * 2^j slots, so masking with the capacity minus one is the remainder the model uses |
| ZeroBulk.ZeroBulkFaults | 3party/concurrentqueue.h:2780-2816 | some run with a dequeue of at most zero elements reaches a null block, no run without one does |
| RingSizing.FrameBytesBounds | src/ipc/shared_memory_channel.cpp:85-87 | a frame is the least multiple of eight holding header and payload |
| RingSizing.MaskIsRemainder | src/ipc/shared_memory_channel.cpp:116-119 | masking with a power of two minus one is the remainder |
| RingSizing.NextPow2IsLeast | src/ipc/shared_memory_channel.cpp:37-48 | bit smearing yields the least power of two not below v up to 2^31, and 0 above |
| RingSizing.SizesAgree | src/ipc/shared_memory_channel.cpp:97-105 | the size computed for the mapping and the one the server computes agree for every accepted channel |
| RingSizing.RingHoldsTarget | src/ipc/shared_memory_channel.cpp:412-421 | the ring holds what the options ask for if and only if that is at most 2^31 bytes; otherwise it is empty |
| RingSizing.RefusedExactly | src/ipc/shared_memory_channel.cpp:97-105 | a channel is refused if and only if it asks for 2^32 bytes or more, except for the one capacity at the widest frames whose product wraps around the 64-bit word |
| ZeroRing.RinglessExists | src/ipc/shared_memory_channel.cpp:97-105 | such a channel exists: three messages of almost 2^30 bytes |
| ZeroRing.EverythingIsLost | src/ipc/shared_memory_channel.cpp:132-208 | in every run of a channel without a ring nothing is delivered, and between sends nothing waits |
| ZeroRing.SendIsAccepted | src/ipc/shared_memory_channel.cpp:249-281 | there a send of a legal message returns Ok and the message is dropped before it does |
| RingLayout.WordRoundTrip | src/ipc/shared_memory_channel.cpp:172-176 | a header word read back is the one stored, and no other byte changes |
| RingLayout.FramesKept | src/ipc/shared_memory_channel.cpp:132-189 | frames are determined by the bytes they occupy |
| RingLayout.FramesAppend | src/ipc/shared_memory_channel.cpp:157-187 | a frame laid down at the end of the live bytes extends the parse by itself |
| ChannelSteps.WriterInvStep | src/ipc/shared_memory_channel.cpp:132-208 | every writer step keeps the channel's invariant, leaves all live bytes alone and changes the queue of messages only as an accepted send does |
| ChannelSteps.ReaderInvStep | src/ipc/shared_memory_channel.cpp:283-378 | every reader step keeps the invariant, with each message copied no longer than its buffer, and changes the queue only by removing its head |
| ChannelRuns.RingIsSound | src/ipc/shared_memory_channel.cpp:144-169 | the bytes between the indices are whole frames and wrap markers, none crossing the ring's end; both indices are multiples of eight at most a ring apart; the short-tail, corrupted and incomplete branches and the second full test are never taken; a receive skips at most one marker |
| ChannelRuns.UniqueParse | src/ipc/shared_memory_channel.cpp:315-362 | those bytes parse in one way only |
| ChannelRuns.WriterSparesLiveBytes | src/ipc/shared_memory_channel.cpp:171-185 | the writer never changes a byte between the indices |
| ChannelRuns.Conservation | src/ipc/shared_memory_channel.cpp:191-281 | accepted = delivered ++ ring ++ outbox; the outbox is at most max(4, 2 * capacity); send_ok - recv_ok is the number of messages in the ring |
| ChannelRuns.RefinesFifo | src/ipc/shared_memory_channel.cpp:249-378 | each step leaves the queue alone, appends the message being accepted, or removes the head being delivered; in particular a failed receive changes nothing |
| ChannelRuns.WouldBlockMeansEmpty | src/ipc/shared_memory_channel.cpp:295-302 | a receive gives up at the index test exactly when the ring holds no frame |
| ChannelAnswers.RecvAnswers | src/ipc/shared_memory_channel.cpp:283-378 | a receive stepping alone ends: no message exactly when none is in the ring; buffer too small, with the size required, exactly when the first is longer than the buffer; otherwise exactly the first message is delivered |
| ChannelAnswers.DeliveryFits | src/ipc/shared_memory_channel.cpp:364-377 | in every run, a delivered message is at most as long as the buffer of its receive |
| ChannelAnswers.BufferKept | src/ipc/shared_memory_channel.cpp:283-378 | whatever the writer does, the buffer tested is the one of the call |
| ChannelAnswers.BufferDecides | src/ipc/shared_memory_channel.cpp:364-366 | in every run, a receive at a data frame ends without delivery if and only if the payload is longer than its buffer |
| ChannelAnswers.SendAnswers | src/ipc/shared_memory_channel.cpp:249-281 | a send stepping alone ends: refused exactly for a message over the limit or when after a flush of one the outbox holds max(4, 2 * capacity); otherwise accepted last, and up to min(8, that) messages are flushed |
| ChannelAnswers.FlushAnswers | src/ipc/shared_memory_channel.cpp:191-208 | the flush a receive starts with writes the first message of the outbox if there is a place for it, and no other |
| ChannelAnswers.DecideIsPlace | src/ipc/shared_memory_channel.cpp:144-169 | a frame is written where it is if it fits before the end of the ring, at the start of the ring if it does not, and not at all exactly when that place is not free |
| ChannelProgress.DrainedRingAccepts | src/ipc/shared_memory_channel.cpp:144-169 | with capacity at least two a drained ring takes every legal message at every aligned position |
| ChannelProgress.EveryOffsetReached | src/ipc/shared_memory_channel.cpp:132-189 | every multiple of eight is reached with a drained ring |
| ChannelProgress.StuckForever | src/ipc/shared_memory_channel.cpp:149-153 | from a stuck state no run delivers anything |
| ChannelProgress.ProgressNeedsTwo | src/ipc/shared_memory_channel.cpp:144-169 | drained reachable rings accept what is first in the outbox if and only if capacity is at least two; with one, a stuck state is reachable |
| SlabPool.SizeClassIndex | src/memory/slab_pool_impl.hpp:36-42 | the first class that holds the size; none exactly above 4096 bytes |
| SlabStore.LiveRangesDisjoint | src/memory/slab_pool_impl.hpp:301-376 | the ranges of two live allocations, headers and guard words included, never meet |
| SlabStore.LiveWithinSlot | src/memory/slab_pool_impl.hpp:332-349 | each lies in its slot, header and guard word included, inside a held block |
| SlabStore.TakeExact | src/memory/slab_pool_impl.hpp:305-329 | handing out an idle slot keeps exact counters exact |
| SlabStore.GiveExact | src/memory/slab_pool_impl.hpp:383-386 | taking a slot back keeps them exact if and only if the slot's owner is its block's current record |
| SlabStore.GivePositive | src/memory/slab_pool_impl.hpp:385 | the guard of the decrement never fails |
| SlabSteps.TakeStore | src/memory/slab_pool_impl.hpp:305-329 | a hit keeps the pool's memory consistent: free lists are exactly the idle slots, without duplicates, and counters cover the live slots |
| SlabSteps.NewStore | src/memory/slab_pool_impl.hpp:331-375 | so does a new block |
| SlabSteps.GiveStore | src/memory/slab_pool_impl.hpp:378-390 | so does a free |
| SlabSteps.ShrinkStore | src/memory/slab_pool_impl.hpp:247-264 | so does shrinking a class, whatever blocks go |
| SlabPool.SlabPoolImpl.AllocFromSlab | src/memory/slab_pool_impl.hpp:301-376 | exactly one allocation is gained, in the given class, all others stay as they are; the slot freed last is reused first; failure changes nothing and happens exactly when no slot is free and no block can be had; the increment reaches the pool exactly when the slot was not live at the last shrink |
| SlabPool.SlabPoolImpl.Populate | src/memory/slab_pool_impl.hpp:353-367 | the headers and the free slots of a new block |
| SlabPool.SlabPoolImpl.FreeToSlab | src/memory/slab_pool_impl.hpp:378-390 | exactly the freed allocation goes and its slot is listed last; exact counters stay exact, and the decrement reaches the pool, exactly when the slot was not live at the last shrink |
| SlabPool.SlabPoolImpl.AllocLarge | src/memory/slab_pool_impl.hpp:392-415 | a large allocation is gained |
| SlabPool.SlabPoolImpl.Unlist | src/memory/slab_pool_impl.hpp:421-428 | the scan removes exactly the given entry from the list of large allocations |
| SlabPool.SlabPoolImpl.FreeLarge | src/memory/slab_pool_impl.hpp:417-430 | a large allocation goes |
| SlabPool.SlabPoolImpl.Alloc | src/memory/slab_pool_impl.hpp:120-150 | refused exactly for size zero, for the budget, or when neither a free slot of the smallest fitting class nor memory is at hand; otherwise served from that class, or as a large allocation above 4096 bytes; bytes in use stay the sum of what clients hold and within the limit, the peak is their maximum |
| SlabPool.SlabPoolImpl.Free | src/memory/slab_pool_impl.hpp:159-188 | the dispatch by header; an idle slot or NULL is ignored; the subtraction does not saturate |
| SlabPool.SlabPoolImpl.RebuildFreeList | src/memory/slab_pool_impl.hpp:451-461 | the idle slots of a block are listed once each and name its record; live slots keep their owners |
| SlabPool.SlabPoolImpl.ShrinkClass | src/memory/slab_pool_impl.hpp:247-264 | the effect on one class |
| SlabPool.SlabPoolImpl.Shrink | src/memory/slab_pool_impl.hpp:245-266 | all allocations stay in place; a block goes exactly when it has no live slot and survived no earlier shrink; all idle blocks go if and only if every survivor has a live slot; afterwards the slots naming their block's record are exactly the idle ones |
| SlabLineage.WorksLineage | src/memory/slab_pool_impl.hpp:301-430 | over every allocation and free: a block that never survived a shrink counts exactly its live slots, one that did counts something that no free takes off |
| SlabLineage.ShrinkLineage | src/memory/slab_pool_impl.hpp:245-266 | a shrink establishes the same |
| SlabLineage.ZeroExactly | src/memory/slab_pool_impl.hpp:251 | a block's counter is zero exactly when it has no live slot and never survived a shrink |
| SlabLineage.ReleasesAllIdle | src/memory/slab_pool_impl.hpp:248-256 | a shrink releases every idle block if and only if every block that survived an earlier one has a live slot |
| SlabLineage.OwnerExists | src/memory/slab_pool_impl.hpp:322-325 | the write through a slot's owner pointer reaches a record of the pool exactly when the slot was not live at the last shrink |
| SlabLineage.KeptForEver | src/memory/slab_pool_impl.hpp:245-266 | whatever operations follow, a block that survived a shrink stays held with a positive counter |
| SlabLineage.SurplusForEver | src/memory/slab_pool_impl.hpp:245-266 | whatever operations follow, what a counter holds beyond the block's live slots never goes away |
| SlabPool.IdleBlockStays | src/memory/slab_pool_impl.hpp:245-266 | one allocation, a shrink, its free and a shrink leave a held block without a live slot |
| PoolAccounting.BooksMeaning | src/memory/slab_pool_impl.hpp:141-155 | bytes_in_use is what the pool's clients and its direct children's clients hold; zero exactly when none of them holds any byte |
| PoolAccounting.DebitMoves | src/memory/slab_pool_impl.hpp:180-198 | neither saturating subtraction saturates |
| PoolAccounting.ChildlessWithinLimit | src/memory/slab_pool_impl.hpp:124-130 | a pool's own clients never exceed a nonzero limit, and without children neither does its counter |
| PoolAccounting.PoolForest.Alloc | src/memory/slab_pool_impl.hpp:120-157 | refused exactly for size zero, budget or allocator failure; otherwise the pool's and the parent's counters rise by the size, no other's, and only the pool's own peak follows |
| PoolAccounting.PoolForest.Free | src/memory/slab_pool_impl.hpp:159-199 | the reverse, and no peak changes |
| PoolAccounting.PoolForest.Create | src/memory/slab_pool_impl.hpp:201-224 | a new pool or child starts with empty books and changes no other |
| PoolAccounting.LimitsNeedRoomAbove | src/memory/slab_pool_impl.hpp:124-154 | when all counters are within their limits, an allocation that passes its own budget test keeps them so if and only if the parent is absent, unlimited or has room |
| PoolAccounting.ParentExceedsItsLimit | src/memory/slab_pool_impl.hpp:152-154 | for every nonzero limit, a run in which a child's allocation takes the parent past it |
| DependencyGraph.RankedIsAcyclic | src/task/simple_task_graph.cpp:98-122 | an order in which all edges go forward excludes cycles |
| DependencyGraph.WaitingHasCycle | src/task/simple_task_graph.cpp:118-121 | tasks that all wait for one another contain a cycle |
| DependencyGraph.RelaxOne | src/task/simple_task_graph.cpp:106-115 | visiting a successor keeps each count equal to its unprocessed predecessors; the count was positive |
| TaskGraph.SimpleTaskGraph.AddTask | src/task/simple_task_graph.cpp:21-36 | a fresh id without edges, or nothing for a null function |
| TaskGraph.SimpleTaskGraph.AddDependency | src/task/simple_task_graph.cpp:38-48 | exactly one edge is added, or an error and none |
| TaskGraph.SimpleTaskGraph.AddDependencies | src/task/simple_task_graph.cpp:50-61 | the edges before the first refused one are added, and the answer is its error |
| TaskGraph.SimpleTaskGraph.Clear | src/task/simple_task_graph.cpp:125-130 | the empty graph, ids from 1 |
| TaskGraph.SimpleTaskGraph.BuildIndegree | src/task/simple_task_graph.cpp:65-85 | the number of predecessors of every task; an error exactly when an edge leads to no task |
| TaskGraph.SimpleTaskGraph.Unlock | src/task/simple_task_graph.cpp:265-280 | one task's edges are taken off the counts, and exactly the tasks left without unprocessed predecessors become ready |
| TaskGraph.SimpleTaskGraph.Validate | src/task/simple_task_graph.cpp:87-123 | Ok if and only if there is no cycle; the internal error only for a dangling edge |
| TaskGraph.SimpleTaskGraph.CollectLevel | src/task/simple_task_graph.cpp:171-182 | the longest prefix of the ready queue within the cap, of distinct tasks |
| TaskGraph.SimpleTaskGraph.SubmitLevel | src/task/simple_task_graph.cpp:212-246 | the tasks accepted before the first refusal; a wait that fails |
| TaskGraph.SimpleTaskGraph.CountLevel | src/task/simple_task_graph.cpp:248-255 | how many bodies threw and how many returned |
| TaskGraph.SimpleTaskGraph.RunInternal | src/task/simple_task_graph.cpp:152-291 | for every cap, failure pattern, refusal and failed wait: refused exactly for invalid graphs; otherwise a schedule in which each task runs at most once after all predecessors, each level is as large as the cap and the graph allow, total = succeeded + failed + canceled, and no level follows a failure under fail-fast; with an executor, finished only if no task was refused and no wait failed, aborted only with the status of the refusal or wait that ended it |
| TaskGraph.RefusalAborts | src/task/simple_task_graph.cpp:235-246 | unless a failure under fail-fast ends the run first, a task the executor refuses aborts it and does not run; without an executor no run is aborted |
| TaskGraph.FailedWaitAborts | src/task/simple_task_graph.cpp:235-246 | a level whose wait fails is the last one, and the run is aborted with that status or with a refusal in the same level |
| TaskGraph.NothingCanceled | src/task/simple_task_graph.cpp:258-290 | without fail-fast, or when nothing throws, every task runs and canceled is zero |
| TaskGraph.RunsOnce | src/task/simple_task_graph.cpp:171-281 | no task occurs twice in a schedule |
| TaskGraph.RunsAfterAncestors | src/task/simple_task_graph.cpp:171-281 | a task runs in a later level than everything it depends on, directly or not |
| ExecutorRuns.StepInv | src/task/thread_pool_executor.cpp:56-375 | every critical section keeps the executor's invariant |
| ExecutorRuns.PendingIsQueuedAndActive | src/task/thread_pool_executor.cpp:59-79 | pending_tasks_ = queued + busy workers; the queue is strictly increasing in seq |
| ExecutorRuns.BodyRunsOnceUnlessCanceled | src/task/thread_pool_executor.cpp:153-177 | no body starts twice, none after an accepted TryCancel |
| ExecutorRuns.DoneMeansRanOrCanceled | src/task/thread_pool_executor.cpp:224-243 | a task marked done ran exactly once if it was not canceled, and not at all if it was |
| ExecutorRuns.SerialKeysExclude | src/task/thread_pool_executor.cpp:134-158 | two bodies with one serial key never run together |
| ExecutorRuns.WaitAllMeansFinished | src/task/thread_pool_executor.cpp:279-283 | when WaitAll may return no accepted task is unfinished |
| ExecutorRuns.StatisticsBalance | src/task/thread_pool_executor.cpp:315-343 | submitted = completed + failed + canceled tasks, each once, + unfinished ones |
| ExecutorRuns.CompletedReturnedFailedThrew | src/task/thread_pool_executor.cpp:315-343 | completed is the number of counted tasks whose bodies returned, failed the number of those whose bodies threw |
| ExecutorRuns.RecountsCanceledIds | src/task/thread_pool_executor.cpp:266-277 | the canceled statistic runs ahead exactly when an id already canceled is canceled again |
| ExecutorRuns.CanceledTwice | src/task/thread_pool_executor.cpp:266-277 | a run in which one canceled task counts twice |
| ExecutorRuns.StatesArePendingOrDone | src/task/thread_pool_executor.cpp:147-183 | the keys of states_ are the disjoint union of pending_ids_ and done_ids_, at most 65536 of the latter |
| ExecutorRuns.ForgottenOnlyWhenOld | src/task/thread_pool_executor.cpp:326-335 | an accepted id is forgotten only after at least 65536 others finished after it |
| ExecutorRuns.WaitAnswersNotFound | src/task/thread_pool_executor.cpp:224-233 | an accepted id is unknown exactly when at least 65536 others finished after it |
| ExecutorRuns.SucceededMeansReturned | src/task/thread_pool_executor.cpp:287-295 | a finished task counts as succeeded exactly when nobody canceled it and its body ran and did not throw |
| ThreadPool.ThreadPoolExecutor.RegisterTask | src/task/thread_pool_executor.cpp:144-151 | the first critical section of SubmitEx: a fresh id that can be canceled and has no place in the queue yet; all others stay |
| ThreadPool.ThreadPoolExecutor.Enqueue | src/task/thread_pool_executor.cpp:56-82 | accepted, or refused exactly when stopping or full; a bounded queue stays bounded |
| ThreadPool.ThreadPoolExecutor.WithdrawTask | src/task/thread_pool_executor.cpp:179-184 | a refused id is unknown again, everybody else's state stays |
| ThreadPool.ThreadPoolExecutor.PickNextTaskIndex | src/task/thread_pool_executor.cpp:84-108 | the first task under Fifo and Fair; otherwise no task before which it would not go: High before Normal before Low, the older of equals |
| ThreadPool.ThreadPoolExecutor.TakeTask | src/task/thread_pool_executor.cpp:350-358 | a worker takes that task |
| ThreadPool.ThreadPoolExecutor.AcquireKey | src/task/thread_pool_executor.cpp:155-158 | the key mutex is taken, and no other worker holds it |
| ThreadPool.ThreadPoolExecutor.CheckCanceled | src/task/thread_pool_executor.cpp:160-170 | the test agrees with the accepted cancellations and marks the task started |
| ThreadPool.ThreadPoolExecutor.FinishBody | src/task/thread_pool_executor.cpp:172-176 | the body returns or throws; a task from Submit is counted at once, as completed exactly when it returned and as failed exactly when it threw; one with an id stays pending |
| ThreadPool.ThreadPoolExecutor.Evict | src/task/thread_pool_executor.cpp:327-335 | the loop keeps the youngest 65536 finished ids and forgets exactly the others |
| ThreadPool.ThreadPoolExecutor.MarkDone | src/task/thread_pool_executor.cpp:315-343 | the task is marked and remembered; completed rises exactly when its body returned, failed exactly when it threw, neither when it was canceled; its state is always found |
| ThreadPool.ThreadPoolExecutor.ReleaseKey | src/task/thread_pool_executor.cpp:155-175 | nobody holds the key any more; the mutex is released after the task is marked or, when the body threw, before |
| ThreadPool.ThreadPoolExecutor.LeaveTask | src/task/thread_pool_executor.cpp:367-373 | both counters are positive and drop by one |
| ThreadPool.ThreadPoolExecutor.TryCancel | src/task/thread_pool_executor.cpp:266-277 | Ok exactly for known tasks neither started nor done; otherwise nothing changes |
| ParallelFor.SubmitChunks | src/task/thread_pool_executor.cpp:196-220 | for all arguments and any first refusal: the chunks of the loop; without a wrap their loops, one after the other, visit exactly begin .. end - 1 in order, or a prefix of it after a refusal |
| ParallelFor.PartitionIffNoWrap | src/task/thread_pool_executor.cpp:204-205 | the loop ends and its chunks pass each index of the range to the body exactly once if and only if no sum wraps |
| ParallelFor.WrapBreaksPartition | src/task/thread_pool_executor.cpp:204-205 | when a sum wraps and the loop ends, some index is passed on twice or one outside the range is |
| ParallelFor.WrapRunsOutside | src/task/thread_pool_executor.cpp:204-205 | for the range 1 .. 1 and the largest grain, index 0 is run too |
| ParallelFor.WrapNeverEnds | src/task/thread_pool_executor.cpp:204-205 | with half the word as begin and grain the loop does not end |
| ParallelRuns.OkMeansEachIndexOnce | src/task/thread_pool_executor.cpp:196-264 | among any workers and other clients: when `ParallelFor` returns Ok, no chunk was canceled and no body threw, every index of the range was run exactly once and no other |
| ParallelRuns.RejectedMeansRefused | src/task/thread_pool_executor.cpp:206-220 | the answer is a refusal exactly when a submission was refused, and Ok only when all chunks have finished |
| ParallelRuns.NotFoundMeansOld | src/task/thread_pool_executor.cpp:224-264 | its wait answers NotFound exactly when 65536 other tasks finished after the one it looks for |
| ParallelRuns.TooManyChunks | src/task/thread_pool_executor.cpp:196-264 | for every range of more than 65536 chunks, a run in which all chunks finish undisturbed and the answer is NotFound |
| ParallelRuns.FewChunksComplete | src/task/thread_pool_executor.cpp:196-264 | for at most 65536 chunks, a run among idle surroundings in which all chunks finish and the answer is Ok |
| GlobalAlloc.PowerOfTwoTest | src/memory/system_allocator.cpp:17 | the bit test accepts exactly the powers of two |
| GlobalAlloc.Allocator.LiveBytes | src/memory/system_allocator.cpp:53-61 | the loop computes the sum of the recorded sizes |
| GlobalAlloc.Allocator.ResetStats | src/memory/system_allocator.cpp:53-67 | bytes in use stay the same, the peak becomes them, the other counters zero |
| GlobalAlloc.Allocator.RecordAllocSuccess | src/memory/system_allocator.cpp:73-89 | bytes in use stay the sum of the recorded sizes, the peak their maximum, and one allocation is counted |
| GlobalAlloc.Allocator.RecordDeallocate | src/memory/system_allocator.cpp:91-114 | so they do, the subtraction does not saturate, and one free is counted |
| GlobalAlloc.Allocator.Allocate | src/memory/system_allocator.cpp:125-157 | the error for every bad argument, counted as a failure; otherwise the pointer is on the books |
| GlobalAlloc.Allocator.Deallocate | src/memory/system_allocator.cpp:159-171 | the pointer is off the books |
| GlobalAlloc.EmptyBooks | src/memory/global_allocator.cpp:123-127 | zero bytes in use means that nothing is live |
| GlobalAlloc.GlobalAllocator.CreateAllocator | src/memory/global_allocator.cpp:51-67 | a fresh instance exactly for enabled backends |
| GlobalAlloc.GlobalAllocator.Configure | src/memory/global_allocator.cpp:116-149 | refused while anything is live; every live pointer keeps belonging to the installed instance, and the recorded option names the installed backend |
| GlobalAlloc.GlobalAllocator.Allocate | src/memory/global_allocator.cpp:201-205 | the new pointer belongs to the installed instance |
| GlobalAlloc.GlobalAllocator.ResetCurrentStats | src/memory/global_allocator.cpp:241-244 | the bytes in use, which decide about a switch, survive a reset |
| GlobalAlloc.GlobalAllocator.Deallocate | src/memory/global_allocator.cpp:207-211 | a live pointer is handed to the instance that produced it |

## Left out

- Memory orderings and fences: each atomic access is one sequentially consistent step, so the theorems about the queue, the free list and the channel say nothing about weaker executions.
- The rest of 3party/concurrentqueue.h: explicit producers, tokens, the hash table that finds a producer, `enqueue_bulk`, the exception paths of throwing element types and the debug statistics.
- Requisition of blocks in `ImplicitQueue`: a set of blocks from which any may come; the free list that implements it is modelled on its own, acts as such a set (`FreeList.ActsAsPool`) and gives its nodes back (`FreeListAnswers.TryGetAnswers`), but the two state machines are not run as one.
- The block index with zero headers, after a failed allocation in the producer's constructor.
- 64-bit wrap-around of the queue's indices, the ring's indices and all counters; sums of sizes in the pools and of the size, header and guard of a large allocation.
- The channel's `drop_when_full`, `would_block` and `local_pending_drop_` statistics, opening, closing and the mapping of the client.
- Several writers or several readers on one channel; the code does not support them.
- The contents of slab guard words and their check, alignment beyond the pointer size, `Owns`, the order of blocks within a class, and the release of everything in the destructor.
- SlabSteps.TakeStore: an increment through an owner pointer that `Shrink` left dangling changes nothing, while the code writes to freed memory; `SlabLineage.OwnerExists` says which allocations do so.
- SlabSteps.GiveStore: the same for the decrement of a free.
- SlabPool.SlabPoolImpl.AllocFromSlab: the same as for `SlabSteps.TakeStore`.
- SlabPool.SlabPoolImpl.FreeToSlab: the same as for `SlabSteps.GiveStore`.
- SlabPool.SlabPoolImpl.Alloc: does not model the counts of allocations, hits and misses, nor the parent's bytes, which `PoolAccounting` does without slots.
- Removal of child pools, and interleavings of the pools' atomic counters; the accounting is sequential.
- Task priorities in the graph's runs, names, and the executor behind `RunWithExecutor`, which appears as refusals and failed waits.
- Timeouts, condition variables and spurious wake-ups in `Wait`, `WaitBatch` and `WaitAll`: a wait appears as the state in which it may return.
- Worker start-up and shutdown, and the creation of key mutexes, of which there is one per key.
- QueueRuns.NoFault: is about runs whose dequeues ask for at least one element, as are the other theorems of `QueueRuns`; `ZeroBulk.ZeroBulkFaults` shows that a dequeue of at most zero elements breaks it.
- ChannelRuns.RingIsSound: is about channels whose options ask for at most 2^31 bytes, as are the other theorems of `ChannelRuns` and `ChannelProgress`; any other accepted channel has a ring of no bytes, and `ZeroRing` says what it does.
- Reading the allocator configuration from a file, the TBB and mimalloc backends' own code, and `SetBackend`.
- The mutex-wrapped containers, the object pool, logging, JSON and XML, files, and status formatting: thin or simpler than what is modelled.
