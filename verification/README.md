# Verified models

Dafny models of six programs of the repository, with proofs of what each of them is for. Each model
follows the code branch by branch: a function says what one operation does, a class does it in place as
the program does, and lemmas say what holds of every input, every run or every reachable state.
`dafny verify dfyconfig.toml` checks all of them.

## Contents

`Helpers.dfy` has what several models share.

- **Nim** (`Nim.dfy`): the exclusive-or indicator against the game tree, and the solver that tries moves on
  the board.
- **Memory hierarchy** (`LruCache.dfy`, `LruMeaning.dfy`, `CacheArrays.dfy`, `MemQueue.dfy`, `Hierarchy.dfy`,
  `HierarchySafety.dfy`, `HierarchyProgress.dfy`, `HierarchyQueues.dfy`, `HierarchyCaches.dfy`,
  `HierarchyTiming.dfy`, `HierarchyPace.dfy`, `Simulator.dfy`): caches as recency lists, which the age
  counters implement, and what they hold told from the trace alone; queues as sequences, which the circular
  buffers implement; the main loop as a step function over CPU, queues and caches. The trace is any sequence
  and the prefetcher may ask for anything at any time. The configuration constants are those of `main.C`. The
  safety invariant and the progress measure are proved on a relation that leaves all cache lookups open, so
  they hold whatever the caches answer. With the caches in, the accesses of each turn are listed, and what the
  caches hold decides when a request is served. The latency bound of 2720 cycles per issued request follows
  from the three capacities and latencies.
- **Allocator** (`ChunkList.dfy`, `Allocator.dfy`, `AllocatorCorners.dfy`): the chunk list as a value,
  canonical for the set of live blocks, and the arena as 32-bit words with link fields and the free bit in the
  right link. The size computation wraps as the machine's does: a request of 2^32-15 to 2^32-8 bytes is
  rounded to zero, which loses the chunk list as soon as any chunk is free, and one above that gives a bare
  header. Reallocation to such a size copies past its new block; the calls that do are characterised and
  played on a fresh arena. `Heap.Valid` requires a base address that is not null, is aligned and leaves the
  arena inside the address space.
- **Communicator** (`Rendezvous.dfy`, `RendezvousLocks.dfy`, `RendezvousProtocol.dfy`, `RendezvousSteps.dfy`,
  `Communicator.dfy`, `CommunicatorCalls.dfy`, `MonitorObjects.dfy`): semaphores, a lock with hand-off,
  condition variables made of one semaphore per waiting thread, and speak and listen on top, as interleaved
  steps of any number of threads under any schedule. The state machine knows semaphores by number;
  `MonitorObjects.dfy` has lock, semaphore and condition objects with their own queues and shows that they go
  through its states. A step is one operation that runs with interrupts off, or the code between two such
  operations inside the monitor. Deposits and takes are recorded as events, and matched with the arguments of
  the calls.
- **Demand paging** (`Paging.dfy`, `PagingSafety.dfy`, `PagingClock.dfy`, `PagingRuns.dfy`, `PagedMemory.dfy`,
  `SecondChance.dfy`, `Pager.dfy`): page tables, inverted table, clock, swap file and swap slots, with the
  reads and writes of virtual memory by the kernel as loops whose three parts (make present and pin, copy,
  unpin) interleave with those of all other processes. Processes are born and exit in between. The bytes
  stored are logged, so that "the latest store to an address" has a meaning of its own. Every section under
  the memory lock is one step, its swap file transfers included. When every frame is pinned the step ends with
  the thread asleep, and it starts over when it goes on.
- **Shell** (`Shell.dfy`, `ShellParser.dfy`, `ShellGrammar.dfy`, `ShellLines.dfy`, `ShellExamples.dfy`):
  tokens, stages and commands; the recursive-descent parser on a cursor; a grammar of lines independent of the
  parser; and a printer.

In two places code and documentation disagree, and the model follows the code. A comment in `main.C` calls L1
write-through; a store that hits L1 is not handed on to anything (`HierarchyTiming.StoreIsBuffered`). The
comments of `readVirtualMemory` and `writeVirtualMemory` promise the number of bytes transferred; the code
returns 0 when a later page is out of range, although it has copied all bytes before it, and refuses calls
that start in the last bytes of the address space (`PagedMemory.CallReturnsLength`,
`PagedMemory.PartialWriteReturnsZero`, `PagedMemory.CallsNearTheEndAreRefused`).

## Model

| member | source | states |
|---|---|---|
| Nim.NimberDecides | CS61C/Proj1/release/puzzles.c:578-582 | The indicator is nonzero exactly when the player to move can force taking the last stone, for any number of piles of any size (the game tree is the reference definition) |
| Nim.ZeroIsReachable | CS61C/Proj1/release/puzzles.c:584-599 | Some move leads to an indicator of zero exactly when the indicator is not zero |
| Nim.XorBits | CS61C/Proj1/release/puzzles.c:580 | Exclusive or acts on every bit separately |
| Nim.NimberWidth | CS61C/Proj1/release/puzzles.c:579-580 | The indicator has no more bits than the piles, so machine integers hold it and every value of the loop |
| Nim.Indicator | CS61C/Proj1/release/puzzles.c:578-582 | The loop returns the exclusive or of the piles |
| Nim.FlatSolver | CS61C/Proj1/release/puzzles.c:584-599 | Returns whether the player to move can force a win, prints every move after which the opponent cannot, each once and in loop order, at least one if winning, and leaves the piles as they were |
| Nim.Try | CS61C/Proj1/release/puzzles.c:590-592 | A move tried in place is evaluated and taken back |
| LruCache.IndexIsModulo | cse240a/project/cse240a-proj1/cache.C:87-93 | The two shifts of 32-bit words give the block number modulo the number of sets, so the index is in range |
| LruCache.TagIsQuotient | cse240a/project/cse240a-proj1/cache.C:78-85 | The tag is the block number divided by the number of sets |
| LruCache.TagAndIndexNameTheBlock | cse240a/project/cse240a-proj1/cache.C:78-93 | Two addresses share tag and index exactly when they lie in one block |
| LruCache.UseKeepsDistinct | cse240a/project/cse240a-proj1/cache.C:96-212 | An access keeps the tags of a set distinct and the set within its associativity |
| LruCache.AccessKeepsWellFormed | cse240a/project/cse240a-proj1/cache.C:96-212 | The same for the whole cache |
| LruInclusion.Inclusion | cse240a/project/cse240a-proj1/cache.C:96-212 | With the same sets and blocks, after any trace of loads and stores and with either write policy, a block held with associativity a is held with any larger one |
| LruInclusion.LargerNeverHitsLess | cse240a/project/cse240a-proj1/cache.C:96-212 | So a larger associativity never has fewer hits, on any trace |
| LruMeaning.HeldExactlyWhen | cse240a/project/cse240a-proj1/cache.C:96-212 | After any trace, told from the trace alone: a block is held exactly when it has been used and fewer other blocks of its set than there are ways have been used since; a store that misses is a use exactly with write-allocate |
| LruMeaning.DirtyExactlyWhen | cse240a/project/cse240a-proj1/cache.C:119-192 | The line of a held block is dirty exactly when the block was stored to since it came in |
| CacheArrays.Cache.constructor | cse240a/project/cse240a-proj1/cache.C:44-55 | After a reset the cache is empty |
| CacheArrays.Cache.FindWay | cse240a/project/cse240a-proj1/cache.C:68-73 | The scan finds a valid way with the tag exactly when the recency list holds it |
| CacheArrays.Cache.Check | cse240a/project/cse240a-proj1/cache.C:58-76 | A check hits exactly when the recency list does, and changes nothing |
| CacheArrays.Promoted | cse240a/project/cse240a-proj1/cache.C:115-137 | On a hit the ages of the valid ways stay a permutation of 0 to k-1 and the line moves to the front of the recency list |
| CacheArrays.Filled | cse240a/project/cse240a-proj1/cache.C:143-164 | On a miss with an open way the ages stay a permutation, one longer, and the line enters at the front |
| CacheArrays.Evicted | cse240a/project/cse240a-proj1/cache.C:166-208 | On a miss in a full set exactly the least recently used way is replaced, and the ages stay a permutation |
| CacheArrays.HitsByWay | cse240a/project/cse240a-proj1/cache.C:116-117 | Some valid way holds the tag exactly when the recency list does |
| CacheArrays.Cache.Evict | cse240a/project/cse240a-proj1/cache.C:166-208 | The loops over a full set do what the recency list does |
| CacheArrays.Cache.Access | cse240a/project/cse240a-proj1/cache.C:96-212 | Hits exactly when the list model hits, and leaves the contents the list model leaves, with or without write-allocate |
| MemQueue.Queue.FindDup | cse240a/project/cse240a-proj1/memQueue.C:18-30 | The scan round the buffer finds the last entry of the block |
| MemQueue.Queue.Add | cse240a/project/cse240a-proj1/memQueue.C:58-97 | Refuses exactly when full; otherwise appends, replaces a prefetch of the same block by a CPU request in its place, or drops a repeated prefetch; the circular buffer holds that sequence |
| MemQueue.Queue.Append | cse240a/project/cse240a-proj1/memQueue.C:71-89 | A new entry is ready one latency from now, or one latency after the last one when the queue is not pipelined |
| MemQueue.Queue.Remove | cse240a/project/cse240a-proj1/memQueue.C:99-111 | Takes the front off the sequence; fails exactly when it is empty |
| MemQueue.Queue.IsFrontReady | cse240a/project/cse240a-proj1/memQueue.C:115-118 | Tells whether there is a front entry whose time has come |
| MemQueue.OfferMeans | cse240a/project/cse240a-proj1/memQueue.C:58-97 | Told by the blocks of the addresses: a full queue refuses; if the last entry for the block is a prefetch, a CPU request takes over its place and ready time and a prefetch is dropped; otherwise the request joins at the end, ready one latency later |
| MemQueue.OfferKeepsDeduplicated | cse240a/project/cse240a-proj1/memQueue.C:64-93 | An entry followed by another of its block is always the CPU's: CPU entries come before at most one prefetch |
| Hierarchy.StepIsTurn | cse240a/project/cse240a-proj1/main.C:82-197 | One turn of the loop is the four phases in order, whatever the caches answer |
| Hierarchy.OfferJoins | cse240a/project/cse240a-proj1/memQueue.C:58-97 | What adding to a queue with room can do, whatever the addresses |
| HierarchySafety.TurnKeepsSafe | cse240a/project/cse240a-proj1/main.C:82-197 | One turn keeps the whole safety invariant: kinds and bounds of the queues, one CPU load exactly while waiting, completions in order, stores conserved |
| HierarchySafety.RunIsSafe | cse240a/project/cse240a-proj1/main.C:82-197 | The invariant holds in every state of every run, for any trace and any prefetcher |
| HierarchySafety.WaitingMeansOneLoad | cse240a/project/cse240a-proj1/main.C:90-194 | At the end of every cycle the CPU waits exactly when one CPU load, its current request, is in the two queues together; otherwise none is |
| HierarchySafety.ServedInTraceOrder | cse240a/project/cse240a-proj1/main.C:82-197 | Completed requests are the first lines of the trace, once each and in order, and all of them exactly when the CPU is done |
| HierarchySafety.StoresAppliedOnce | cse240a/project/cse240a-proj1/main.C:112-194 | Every store accepted by the write buffer is exactly once applied to L2, in the write buffer or in the memory queue, and nothing else is |
| HierarchyProgress.TurnAdvances | cse240a/project/cse240a-proj1/main.C:82-197 | Every turn completes a request or lowers the rank, though the write buffer takes freed memory places first |
| HierarchyProgress.CompletesWithinRank | cse240a/project/cse240a-proj1/main.C:82-197 | The current request is completed within as many turns as its rank, for any prefetcher |
| HierarchyProgress.IssuedRequestsComplete | cse240a/project/cse240a-proj1/main.C:82-197 | Every issued request that is not yet served completes within 2720 cycles |
| HierarchyProgress.WorkFalls | cse240a/project/cse240a-proj1/main.C:82-197 | Every turn of an unfinished run lowers the remaining work |
| HierarchyProgress.SimulationEnds | cse240a/project/cse240a-proj1/main.C:82-197 | The main loop ends on every trace within a budget computed from it, with every request served |
| HierarchyProgress.RunIsTimed | cse240a/project/cse240a-proj1/memQueue.C:75-83 | In every run neighbours of the memory queue are ready exactly one latency apart and the pipelined queues are ready in order |
| HierarchyQueues.RunIsTidy | cse240a/project/cse240a-proj1/memQueue.C:64-93 | In every queue of every run, told by the blocks of the addresses, CPU entries for a block precede at most one prefetch for it |
| HierarchyQueues.MemoryMovesUp | cse240a/project/cse240a-proj1/main.C:143-194 | In every run an entry of the memory queue keeps its ready time and moves up one place for each entry served, until it is served itself |
| HierarchyQueues.MemoryRequestsLeave | cse240a/project/cse240a-proj1/main.C:162-172 | Capacity times latency cycles later at least as many entries have been served from the front of the memory queue as were in it: all of those have left |
| HierarchySafety.CompleteKeepsLog | cse240a/project/cse240a-proj1/CPU.C:53-64 | Completing the current request appends it to the served ones, in trace order with increasing issue times, and moves the CPU to the next line of the trace or, behind the last line, ends it |
| HierarchyQueues.RequestsAreIssuedOnTime | cse240a/project/cse240a-proj1/CPU.C:45-75 | In every run each request is issued in the first cycle in which it is ready: an idle CPU never misses that cycle, and a request under way carries it as its time of issue |
| HierarchyCaches.CacheSizes | cse240a/project/cse240a-proj1/main.C:28-62 | The two caches hold 32 KB and 256 KB |
| HierarchyCaches.CachesFollowTrails | cse240a/project/cse240a-proj1/main.C:86-194 | In every run L1 holds what its own answers at issue, the loads answered by L2 and the loads answered by memory leave in it; L2 what everything answered by memory and the buffered stores answered by L2 leave in it; nothing else touches them |
| HierarchyCaches.CachesHoldExactly | cse240a/project/cse240a-proj1/main.C:86-194 | So in every run a block is in L1 exactly when fewer than two, and in L2 exactly when fewer than eight, other blocks of its set took part since it did |
| HierarchyCaches.ServedExactlyWhen | cse240a/project/cse240a-proj1/main.C:86-172 | In every turn at most one request is served: on issue exactly if L1 holds its block, or if it is a store with room in the write buffer; at the due front of the L2 queue exactly if L2 holds its block; at the due front of the memory queue |
| HierarchyTiming.LoadTakesTwenty | cse240a/project/cse240a-proj1/main.C:107-111 | In every run a load that enters the L2 queue is not served before twenty cycles have passed, unless a prefetch for its block is queued there |
| HierarchyTiming.ReadyInTwenty | cse240a/project/cse240a-proj1/memQueue.C:64-93 | The entry of such a load is ready twenty cycles later exactly when no prefetch is the last entry for its block, and earlier otherwise |
| HierarchyTiming.L2Decides | cse240a/project/cse240a-proj1/main.C:143-159 | The due front of the L2 queue leaves if L2 holds its block; if not, it joins the memory queue as soon as that has room |
| HierarchyTiming.LoadTakesFifty | cse240a/project/cse240a-proj1/main.C:156-171 | In every run a load that goes on to memory is not served before fifty more cycles have passed, unless a prefetch for its block is queued there |
| HierarchyTiming.LatenciesWithoutPrefetches | cse240a/project/cse240a-proj1/main.C:82-172 | When no prefetches are made: a load is served on issue if L1 holds its block; after twenty cycles exactly if L2 holds it then, and never earlier; and if L2 does not hold it when it is served, after seventy cycles at the earliest |
| HierarchyPace.EarlyLoad | cse240a/project/cse240a-proj1/memQueue.C:91-93 | A concrete run in which a load misses in both empty caches and is served 50 cycles after its issue, as it takes over the entry of a prefetch: the bounds need their proviso |
| HierarchyTiming.PrefetchWhenFree | cse240a/project/cse240a-proj1/main.C:121-141 | A cycle in which the CPU issues a request, or tries again to queue a load, leaves the prefetcher out; in every other cycle its request is offered to the L2 queue and nothing else depends on it |
| HierarchyTiming.StoreIsBuffered | cse240a/project/cse240a-proj1/main.C:95-119 | A store that L1 answers goes nowhere else; any other is offered to the write buffer, or stalls the CPU when that is full |
| HierarchyPace.NextRequestIsReady | cse240a/project/cse240a-proj1/CPU.C:53-64 | In every turn the next ready time stays unless a request is served; then the next request of the trace is ready its gap and one cycle after this turn, or the CPU is done |
| HierarchyPace.StoresAreBuffered | cse240a/project/cse240a-proj1/main.C:112-118 | In every run a buffered store is ready twenty cycles after its issue at the earliest |
| Simulator.Machine.RunCpu | cse240a/project/cse240a-proj1/main.C:86-141 | The first phase, on queues and caches updated in place, is the specified one, in every state of the CPU |
| Simulator.Machine.RunL2 | cse240a/project/cse240a-proj1/main.C:143-159 | The L2 phase is the specified one |
| Simulator.Machine.RunMem | cse240a/project/cse240a-proj1/main.C:161-172 | The memory phase is the specified one |
| Simulator.Machine.RunWriteBuffer | cse240a/project/cse240a-proj1/main.C:180-194 | The write buffer phase is the specified one |
| Simulator.Machine.Cycle | cse240a/project/cse240a-proj1/main.C:82-197 | One turn of the loop over the objects is one step of the specification |
| Simulator.Simulate | cse240a/project/cse240a-proj1/main.C:78-197 | The main loop terminates for every trace and prefetcher, within the budget, having served the trace once and in order |
| ChunkList.Canonical | cse127/pp1/targets/tmalloc.c:30-131 | A well-formed chunk list is determined by its set of live blocks |
| ChunkList.FirstFit | cse127/pp1/targets/tmalloc.c:80-82 | The chunk found fits, and none at a lower address does |
| ChunkList.TakeKeepsForm | cse127/pp1/targets/tmalloc.c:86-100 | Splitting from the high end, or taking a chunk whole, keeps the tiling of the arena and leaves no two free neighbours |
| ChunkList.TakeAddsBlock | cse127/pp1/targets/tmalloc.c:86-101 | Taking adds exactly one block, new and disjoint from every live one |
| ChunkList.GiveKeepsForm | cse127/pp1/targets/tmalloc.c:111-130 | Freeing with two-sided joining keeps the tiling and leaves no two free neighbours |
| ChunkList.GiveRemovesBlock | cse127/pp1/targets/tmalloc.c:111-130 | Freeing removes exactly that block |
| ChunkList.TakeThenGive | cse127/pp1/targets/tmalloc.c:70-131 | Freeing what was just allocated restores the exact list |
| ChunkList.GivesCommute | cse127/pp1/targets/tmalloc.c:104-131 | Frees of two live blocks commute |
| ChunkList.GiveEverything | cse127/pp1/targets/tmalloc.c:104-131 | Freeing all live blocks, in any order, gives the list of a fresh arena |
| ChunkList.ApplyKeepsForm | cse127/pp1/targets/tmalloc.c:70-131 | Every valid call keeps the chunks increasing, tiling the arena up to the top, with no two free neighbours |
| ChunkList.HistoriesDoNotMatter | cse127/pp1/targets/tmalloc.c:62-131 | After any sequence of valid calls the list is well formed, and two histories with the same live blocks give the same list |
| Allocator.Rounding | cse127/pp1/targets/tmalloc.c:78 | The rounded size has room for header and request exactly up to 2^32-16 bytes; it wraps to zero exactly for the next eight requests and to a bare header above |
| Allocator.NewPayload | cse127/pp1/targets/tmalloc.c:70-102 | For every size: unless the size wraps to zero, when no chunk list results, a new block overlaps no live block; it holds the requested bytes with less than one header to spare exactly up to 2^32-16 bytes, and none above; no lower chunk would have fitted |
| Allocator.Heap.Init | cse127/pp1/targets/tmalloc.c:62-68 | The words of the arena represent one free chunk up to the delimiter |
| Allocator.Heap.Find | cse127/pp1/targets/tmalloc.c:80-84 | The walk along the right links finds the first fit, or null |
| Allocator.Heap.TMalloc | cse127/pp1/targets/tmalloc.c:70-102 | Returns null, changing nothing, exactly when no free chunk fits; otherwise cuts the first fit in the words of the arena, links stay inverse and live payloads untouched. The list is lost, so that no chunk list is found in the arena any more, exactly when the size has wrapped to zero and some chunk is free |
| Allocator.EmptySplitLoses | cse127/pp1/targets/tmalloc.c:86-97 | A split of size zero ties the next header to itself: the walk from the bottom still reaches it, and no chunk list is in the arena any more |
| AllocatorCorners.LoseFreshArena | cse127/pp1/targets/tmalloc.c:78-97 | A first call for 2^32-15 bytes loses the list of a fresh arena |
| Allocator.Heap.TFree | cse127/pp1/targets/tmalloc.c:104-131 | Frees exactly the given live block, links stay inverse, and no live payload changes; null changes nothing |
| Allocator.Heap.MemCpy | cse127/pp1/targets/tmalloc.c:152 | Copies exactly the bytes named |
| Allocator.Heap.Resize | cse127/pp1/targets/tmalloc.c:141-156 | Reallocation to any size other than zero: nothing changes when nothing fits; otherwise, if the size does not wrap or there is nothing to copy, a new block has the first min(old payload, new size) bytes and no other payload changes; if it wraps to zero the list is lost, and if it wraps to a bare header all old bytes are copied behind it |
| Allocator.Heap.TRealloc | cse127/pp1/targets/tmalloc.c:133-157 | All cases: null pointer allocates, size zero frees, otherwise as Resize, for every size; and where the size does not wrap and something fits, every byte below both the new size and the old payload is kept |
| Allocator.ReallocatedKeepsBytes | cse127/pp1/targets/tmalloc.c:147-152 | When the size does not wrap and something fits, byte i of the new payload is byte i of the old one for every i below both the new size and eight times one less than the number of headers of the old block |
| Allocator.OverrunHitsHeader | cse127/pp1/targets/tmalloc.c:149-152 | Where a wrapped size gives a bare header, the copy puts the first bytes of the old block into the next header: the list survives only if they are the very link that belongs there |
| Allocator.OverrunHitsPayload | cse127/pp1/targets/tmalloc.c:149-152 | And what follows: the payload of a live block that comes next survives exactly as far as it held the same bytes |
| AllocatorCorners.AlterNeighbour | cse127/pp1/targets/tmalloc.c:133-157 | Two blocks of 16 bytes on a fresh arena: reallocating one to 2^32-1 bytes alters the payload of the other and loses its header |
| MonitorObjects.Lock.Acquire | cse120/nachos/threads/Lock.java:33-51 | Takes a free lock, or queues the thread, which has to sleep |
| MonitorObjects.Communicator.Acquire | cse120/nachos/threads/Lock.java:33-51 | On the lock object and the threads this is the acquire of the state machine |
| MonitorObjects.Lock.Release | cse120/nachos/threads/Lock.java:56-65 | Hands the lock to the first thread in its queue, or frees it |
| MonitorObjects.Communicator.Release | cse120/nachos/threads/Lock.java:56-65 | On the objects this is the release of the state machine, with the next thread ready |
| MonitorObjects.Communicator.P | cse120/nachos/threads/Semaphore.java:37-49 | P on the semaphore object that the sleeping thread made is P on its number in the state machine, and no other semaphore changes |
| MonitorObjects.Communicator.V | cse120/nachos/threads/Semaphore.java:55-67 | V on a semaphore object wakes its first thread or increments it, as on its number, and no other semaphore changes |
| MonitorObjects.Communicator.Enqueue | cse120/nachos/threads/Condition.java:79-85 | The first part of a sleep makes a new semaphore object, unknown to every queue, and appends it to the queue of the condition |
| MonitorObjects.Communicator.Wake | cse120/nachos/threads/Condition.java:94-99 | Removes the first semaphore object from the queue of the condition and signals it, as the state machine does by number |
| MonitorObjects.WakeAllReachesAll | cse120/nachos/threads/Condition.java:105-110 | After waking all, the queue is empty, every thread that waited on the condition is on its way back, and no other thread is touched |
| MonitorObjects.Communicator.WakeEveryone | cse120/nachos/threads/Condition.java:105-110 | The loop over the queue of a condition wakes everyone in turn |
| MonitorObjects.Communicator.SpeakStep | cse120/nachos/threads/Communicator.java:52-72 | Every step of speak on the objects is a step of the state machine |
| MonitorObjects.Communicator.ListenStep | cse120/nachos/threads/Communicator.java:80-106 | Every step of listen likewise |
| MonitorObjects.Communicator.Step | cse120/nachos/threads/Communicator.java:52-106 | Every step of a thread likewise, so the runs of the objects are runs of the state machine |
| RendezvousLocks.AcquireKeepsLock | cse120/nachos/threads/Lock.java:33-51 | One thread at most is inside, and exactly the sleeping acquirers are in line |
| RendezvousLocks.ReleaseKeepsLock | cse120/nachos/threads/Lock.java:56-65 | The same across a hand-off |
| RendezvousLocks.EnqueueKeepsSems | cse120/nachos/threads/Condition.java:79-85 | A thread that falls asleep owns a queued semaphore nobody has signalled, and disturbs no other |
| RendezvousLocks.PKeepsSems | cse120/nachos/threads/Semaphore.java:37-49 | A signal given before P is kept until P passes |
| RendezvousLocks.WakeKeepsSems | cse120/nachos/threads/Condition.java:94-99 | A wake-up reaches exactly the first thread in the queue: it is past P, or its signal is kept |
| RendezvousSteps.StepKeepsGood | cse120/nachos/threads/Communicator.java:52-106 | Every step of every thread keeps the invariant of the protocol |
| RendezvousSteps.AwakeCanStep | cse120/nachos/threads/Lock.java:34-57 | No assertion of the lock or of a condition fails: a thread does not hold the lock before it acquires it, and holds it before it releases it, sleeps or wakes; and any thread that is awake can take its next step |
| RendezvousSteps.RunIsGood | cse120/nachos/threads/Communicator.java:52-106 | The invariant holds after any schedule of any calls by any number of threads |
| Communicator.EveryWordIsHeardOnce | cse120/nachos/threads/Communicator.java:52-106 | Deposits and takes strictly alternate; the words heard are the words spoken, in order and once each, except at most one on its way |
| CommunicatorCalls.DepositsAreArguments | cse120/nachos/threads/Communicator.java:52-64 | For every thread of every run, the words it deposited, in order, are the arguments of its calls of speak, except for a call that has not come to its deposit yet |
| CommunicatorCalls.OneTakePerListen | cse120/nachos/threads/Communicator.java:80-106 | A thread has taken one word for each of its calls of listen, except for one under way |
| CommunicatorCalls.SpeakerWasHeard | cse120/nachos/threads/Communicator.java:64-70 | A speaker that is about to return has deposited the argument of its latest call, and a listener took that word next |
| Communicator.SpeakerReturnsAfterItsWordWasTaken | cse120/nachos/threads/Communicator.java:64-70 | When a speaker is about to return, its own deposit has been followed at once by the take of its word |
| Communicator.SpokenMeansOneDepositor | cse120/nachos/threads/Communicator.java:54-106 | While the lock is free, spoken holds exactly when the queue of pairs holds one thread, the one that made the latest deposit |
| Communicator.SpeakersAreCounted | cse120/nachos/threads/Communicator.java:57-61 | numberOfSpeakers is the number of speakers that sleep or were woken and are not back yet |
| Communicator.MutualExclusion | cse120/nachos/threads/Lock.java:33-65 | Never are two threads inside the monitor |
| Communicator.NoMissedRendezvous | cse120/nachos/threads/Communicator.java:52-106 | When no thread holds the lock or is coming for it, no listener waits while a speaker waits, to deposit or to be heard |
| Communicator.NoDeadlock | cse120/nachos/threads/Communicator.java:52-106 | When every thread inside a call sleeps, each of them waits on a condition with nobody having woken it, and either no listener waits or no speaker does, neither to deposit nor to be heard |
| PagedMemory.ReadReturnsWhatWasWritten | cse120/nachos/userprog/UserProcess.java:147-284 | After a successful write, a later successful read of the same process returns the bytes written at every common address, across any faults, evictions, reloads, births and exits of all processes, as long as this process began no other write |
| PagedMemory.ReturnedCallsAgree | cse120/nachos/userprog/UserProcess.java:174-186 | Every byte of a successful write is the latest store to its address, and every byte of a successful read is the latest store to its address, if there was one |
| PagedMemory.CallReturnsLength | cse120/nachos/userprog/UserProcess.java:147-187 | A call that is not refused moves exactly the bytes that lie in the pages of the process, and returns their number exactly when that is all of them; otherwise it returns 0; a refused call moves nothing |
| PagedMemory.PartialWriteReturnsZero | cse120/nachos/userprog/UserProcess.java:245-284 | A concrete run: a write of 48 bytes, 24 bytes before the end of the only page, stores 24 bytes and returns 0 |
| PagedMemory.CallsNearTheEndAreRefused | cse120/nachos/userprog/UserProcess.java:165 | Of the calls that lie within the pages of a process, exactly those that start in the last numPages bytes are refused, with two concrete ones |
| PagedMemory.OthersLeaveLatest | cse120/nachos/userprog/UserProcess.java:245-284 | No step but a write of its own changes what is stored at the addresses of a process |
| PagedMemory.TablesAreInverse | cse120/nachos/vm/VMKernel.java:115-126 | A page of a running process is in a frame exactly when that frame is assigned to it: page tables and inverted table are mutual inverses |
| PagedMemory.SlotsAreHeldOnce | cse120/nachos/vm/VMKernel.java:134-180 | No two swapped-out pages share a slot, and no slot in use is in freeSwap |
| PagedMemory.NumSwapIsHighWater | cse120/nachos/vm/VMKernel.java:138-143 | numSwapPages is the largest number of slots ever in use at once, also between eviction and reload, and counting the slots of exited processes |
| PagedMemory.SlotIsLowest | cse120/nachos/vm/VMKernel.java:142 | The slot reused is the lowest free one |
| PagingClock.ClockTakesFirst | cse120/nachos/vm/VMKernel.java:201-240 | The clock takes the first frame from the hand that is unassigned, or unpinned and unused; if none, the first unpinned one; and finds none exactly when every frame is assigned and pinned |
| PagingClock.ClockClearsFrames | cse120/nachos/vm/VMKernel.java:206-236 | The clock clears the used bits of exactly the frames it passes on its way, and changes nothing else of a frame |
| PagingClock.ClockClearsPages | cse120/nachos/vm/VMKernel.java:206-236 | It clears the used bits of exactly the pages in those frames, and changes nothing else of a page table |
| PagingClock.HandMovesOn | cse120/nachos/vm/VMKernel.java:201-240 | The hand stops behind the frame taken, which is the last that the next search meets |
| SecondChance.VerifyMarks | cse120/nachos/vm/VMProcess.java:358-371 | A kernel access returns when its page is outside the process, sleeps again when every frame is pinned, and otherwise leaves the page in a frame that is marked as used and pinned |
| SecondChance.TouchMarks | cse120/nachos/vm/VMProcess.java:140-171 | A page fault that brings a page in leaves its frame marked as used |
| SecondChance.StepSpares | cse120/nachos/vm/VMKernel.java:201-240 | No step takes a marked frame from its page but the exit of its process and a page fault whose clock passes the frame |
| SecondChance.SecondChance | cse120/nachos/vm/VMKernel.java:201-240 | In every run: a page that was accessed by the kernel or brought in stays in its frame, marked, until the clock passes that frame or its process exits, and is the next victim only if every frame is assigned and either pinned or used |
| Pager.Kernel.ClockAlgorithm | cse120/nachos/vm/VMKernel.java:201-240 | The loop ends within two sweeps with that frame and with the used bits it cleared in both tables, or asks its caller to sleep exactly when there is none |
| PagingSafety.EvictedKeepsPages | cse120/nachos/vm/VMProcess.java:235-245 | An evicted page keeps its bytes in its slot, and no other written page changes |
| PagingSafety.EvictedKeepsSwap | cse120/nachos/vm/VMKernel.java:134-156 | Eviction takes a slot nobody holds |
| PagingSafety.FilledKeepsPages | cse120/nachos/vm/VMProcess.java:318-349 | A page that comes back has the bytes it left with, and no other written page changes |
| PagingSafety.FilledKeepsMapped | cse120/nachos/vm/VMProcess.java:318-349 | After a fault the frame and the page name each other, and all other pairs stay |
| PagingSafety.FaultKeeps | cse120/nachos/vm/VMProcess.java:124-129 | A page fault makes the page present and keeps tables, pins, slots and the bytes of every written page; when all frames are pinned only used bits change |
| PagingRuns.VerifyKeepsGood | cse120/nachos/vm/VMProcess.java:358-377 | Making a page present, pinning and marking it keeps the invariant, and no index is out of range |
| PagingRuns.CopyKeepsGood | cse120/nachos/userprog/UserProcess.java:177-182 | The unlocked copy goes to the pinned frame of the right page |
| PagingRuns.CleanKeepsGood | cse120/nachos/vm/VMProcess.java:386-395 | Unpinning keeps the invariant |
| PagingRuns.ExitKeepsGood | cse120/nachos/vm/VMProcess.java:100-116 | An exit gives up exactly the frames of the process |
| PagingRuns.TouchKeepsGood | cse120/nachos/vm/VMProcess.java:140-171 | A page fault by the hardware keeps the invariant |
| PagingRuns.StepKeepsGood | cse120/nachos/vm/VMProcess.java:358-395 | Every section of every process keeps the invariant |
| Pager.Kernel.AddToSwap | cse120/nachos/vm/VMKernel.java:134-156 | Copies the frame to the lowest free slot or to the end of the file |
| Pager.Kernel.LoadFromSwap | cse120/nachos/vm/VMKernel.java:164-180 | Copies the slot to the frame and frees the slot |
| Pager.Kernel.SavePage | cse120/nachos/vm/VMProcess.java:235-245 | Saves a dirty page and invalidates its entry |
| Pager.Kernel.GetAvailablePage | cse120/nachos/vm/VMKernel.java:251-259 | Evicts the owner of the clock's frame, if any, and assigns the frame |
| Pager.Kernel.InitializePage | cse120/nachos/vm/VMProcess.java:318-349 | Reloads a dirty page from its slot and validates the entry |
| Pager.Kernel.PageFault | cse120/nachos/vm/VMProcess.java:124-129 | The fault in place is the specified one |
| Pager.Kernel.VerifyVaddr | cse120/nachos/vm/VMProcess.java:358-377 | The pinning section in place is the specified one |
| Pager.Kernel.CopyBytes | cse120/nachos/userprog/UserProcess.java:266-279 | The copy through the physical address is the specified one, for reads and writes |
| Pager.Kernel.VerifyClean | cse120/nachos/vm/VMProcess.java:386-395 | The unpinning section in place is the specified one |
| Pager.Kernel.UnloadSections | cse120/nachos/vm/VMProcess.java:100-116 | The loop over the pages gives up their frames |
| ShellParser.Parser.GetToken | mit6.828/lecture_exercises/01/sh.c:230-265 | Reads the next token of the line, blanks on both sides included |
| ShellParser.Parser.Peek | mit6.828/lecture_exercises/01/sh.c:267-277 | Tells whether the next token is one of the symbols, moving only past blanks |
| ShellParser.Parser.ParseRedirs | mit6.828/lecture_exercises/01/sh.c:333-355 | Reads all redirections that come next, or fails when a file is missing |
| ShellParser.Parser.ParseExec | mit6.828/lecture_exercises/01/sh.c:357-387 | Reads one stage; the argument vector stays in bounds with its terminator, and the exit for a syntax error is unreachable |
| ShellParser.Parser.ParsePipeline | mit6.828/lecture_exercises/01/sh.c:320-331 | Reads a pipeline and terminates with no token left |
| ShellParser.ParseCmd | mit6.828/lecture_exercises/01/sh.c:296-310 | Parses every line, terminates, and never has leftovers |
| ShellGrammar.LexSpaced | mit6.828/lecture_exercises/01/sh.c:230-265 | Tokens with any blanks between them, at least one between words, are read back as the same tokens |
| ShellGrammar.LineIsSpaced | mit6.828/lecture_exercises/01/sh.c:230-265 | Every line is its tokens with blanks between |
| ShellExamples.TabAndNewline | mit6.828/lecture_exercises/01/sh.c:227-265 | A concrete line with a tab and a newline is two words |
| ShellExamples.OtherBlanks | mit6.828/lecture_exercises/01/sh.c:227 | A space, a carriage return and a vertical tab separate words as well |
| ShellExamples.Symbols | mit6.828/lecture_exercises/01/sh.c:228 | The three symbols are tokens of their own without blanks around them, and a semicolon and an ampersand belong to words |
| ShellExamples.PipelineOfTwo | mit6.828/lecture_exercises/01/sh.c:320-387 | A concrete line with redirections among the words and a bar is the pipe of its two redirected commands |
| ShellLines.RefusesExactly | mit6.828/lecture_exercises/01/sh.c:296-387 | A line is refused exactly when a redirection has no word after it or a stage has ten words or more; every other line means the pipeline of its stages |
| ShellLines.MeaningOfStages | mit6.828/lecture_exercises/01/sh.c:320-387 | A line made of stages means the pipeline of their commands, built from the words and the redirections of each |
| ShellLines.OnlyOrdersMatter | mit6.828/lecture_exercises/01/sh.c:333-387 | The result depends only on the order of words and the order of redirections in each stage, not on blanks or on how the two are mixed |
| ShellLines.RoundTrip | mit6.828/lecture_exercises/01/sh.c:296-387 | Parsing a printed command gives the command back |
| ShellLines.ReprintIsStable | mit6.828/lecture_exercises/01/sh.c:296-387 | Whatever line a command was parsed from, printing it and parsing again gives the same command |

## Left out

- Random replacement, and a cache with a single set (handled by a special case in `access` only): the model is least recently used over more than one set, sizes powers of two.
- Hit counters, averages and bandwidth figures of the simulator: a prefetch also sets the flag behind them, so they do not partition requests.
- The inside of the prefetchers: any request may come at any time. Their notification calls change no state of the model.
- Wrap-around of the 32-bit cycle counter: cycles are unbounded.
- The file of the trace: a sequence of lines already read.
- The processor's request counters and total access time.
- The parallel arrays of a cache way and of a queue position are merged into one record per position.
- CacheArrays.Cache.Access: the row of a set is replaced as one value, so pointer aliasing between rows is not modelled.
- Allocator.Heap.TRealloc: where the size wraps, the call is followed up to the loss of the list, or up to the copy past the new block; nothing is said of its tfree, nor of a copy that leaves the arena or overlaps its source, which C leaves undefined.
- Frees of pointers that are not live blocks, and tcalloc.
- AllocatorCorners.AlterNeighbour: its writes to the payloads stand for what the calling program does.
- Negative pile sizes in Nim, for which the loops of the solver do nothing.
- The printed text of the solver: the two numbers of each line are kept.
- Fairness of the scheduler: a schedule may leave a thread waiting for ever; what is proved is that no two calls that could meet all sleep.
- KThread, the ready queue and Interrupt below the semaphores; PriorityScheduler and LotteryScheduler. Queues are first come first served.
- Conditions on locks other than the communicator's.
- TLB contents, user-mode loads and stores, and the saveState path that copies dirty bits from the TLB: updateTLB changes only a copy of an entry, so stale entries survive.
- The contents of a page at its first use (executable sections, the zero fill that leaves the last byte): any page may appear; bytes are promised once written.
- The interleaving of other sections into the two swap file transfers, during which the memory lock is given up.
- Bits of the inverted table that nothing reads (its own dirty and valid flags), and the read-only flag, which kernel writes ignore.
- 32-bit overflow of offset + length and of vaddr + byteNum: addresses are unbounded integers.
- Who is woken first when a page is unpinned: a sleeping thread may try again at any time.
- Reference counts and the rest of handleExit, handleExec and handleJoin.
- Running the parsed command, the line buffer of 100 characters, and the built-in cd and exit of the shell.
- ShellParser.Parser.ParseExec: the command node that redirections already point to is filled in place by the original; the model builds it when the stage is complete.
- Memory that the parser allocates and never frees.
