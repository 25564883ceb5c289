# Verified model of libthread

libthread is a user-level thread library. One source tree builds a single-core ("mono") scheduler
and an M:N scheduler that runs user threads on several kernel threads. This project models both and
proves what they promise: that no thread is lost, run twice or run on a stack that is gone, that
joins, mutexes, semaphores and signals hand threads over correctly, and that the data structures
underneath (a work-stealing deque, a Swiss-style hash table, union-find, intrusive lists and free
lists) do what the code around them takes for granted.

`dafny verify dfyconfig.toml` checks everything. Source cells below are paths in the repository.

## The modules

| files | what they model | how |
|---|---|---|
| `ChaseLev` | the work-stealing deque of one worker | a machine whose steps are the single loads, stores and CAS of push, pop and steal, on 64-bit counters that wrap; and a class whose methods carry out the owner's calls while thieves interfere between any two accesses |
| `Workers`, `WorkersInv`, `WorkersSteps`, `WorkersCalls`, `WorkersLife`, `WorkersRuns` | the M:N scheduler: where every thread is, who executes on which stack, spin locks, the `after_switch` slot, mutexes, semaphores, joins, exits, signals | a machine for any number of workers; one step is one access to shared state |
| `WorkersShape`, `WorkersMeaning`, `WorkersLoop` | what each call and the scheduler loop do for a thread, in every reachable state of that machine | what a step may change and where it leads, branch by branch; then theorems about whole calls |
| `Idle` | sleeping and waking of workers, shutdown | a machine of workers, pushers and shutdown callers |
| `Caches`, `FreeLists` | the two-level allocators and the free lists below them | classes over link arrays; a history of who took and gave back what |
| `JoinGraph`, `UnionFind` | the waits-for graph and the deadlock check | graph lemmas; a class over parent and rank arrays |
| `Masks`, `Probing`, `SwissTable`, `Dedup` | the deduplication table and its protocol (FP build) | bit masks, number theory, a class over control, key and value arrays, and a class for its client |
| `Ring`, `ReadyQueue` | the circular ready list with its wait queues, and the plain FIFO queue it replaces | a class over link arrays; refinement lemmas, and methods that run both side by side |
| `MonoState`, `Mono`, `MonoSync`, `MonoMeaning` | the mono build: creating, yielding, joining inline or parked, leaving, stacks, mutexes, semaphores, signals | effects on a system state with an invariant; classes whose methods realise the effects in memory; what the effects mean for the threads |

Pointers into slabs and arenas are indices (`next[]`, `prev[]`, `parent[]`, free-list links). Memory
is sequentially consistent: the acquire, release and relaxed orderings of the atomics are not
distinguished. A context switch is one step that records whether a thread's context is saved.
In `Workers` a deque call is one step; `ChaseLev.OwnerKeepsInv` and `ChaseLev.ThiefKeepsInv` say
that of the separate accesses of a call exactly one changes the deque, as that step does.

## Where the code and its comments or tests differ

* `sched_pick_next` is documented as first in, first out (src/scheduler.h:73-76). It returns
  `current->sched_prev`, the thread enqueued last: `ReadyQueue.BlockPicksNewest`.
* The comments on `pending_dead_stack` (src/thread.c:26-29, src/context_switch.S:138-143) say that a
  thread resumed out of thread_yield releases it, and so that a yield that does not switch never
  finds one. But the release (src/context_switch.S:120-135) is in the instruction stream of the
  thread_yield_asm that makes the switch, on the stack of whatever thread it switches to, while a
  thread that was suspended there returns straight to its caller. So after thread_exit the stack
  stays pending whoever runs next, until a later yield switches or another thread exits
  (`MonoState.ExitLeavesPending`, `Mono.System.Yield`). And because a yield to a thread that never ran
  allocates before it releases, that thread cannot get the pending stack
  (`MonoState.FirstRunAvoidsPending`): with no other stack free the program aborts
  (`Mono.System.FirstRun`).
* A refused join need not be a deadlock: `EDEADLK` is also returned when the two threads are merely
  linked by earlier joins, finished or not: `JoinGraph.RefusalWithoutDeadlock`. It would be one
  exactly if the target already waits for the joiner: `JoinGraph.ClosesCycleExactly`. What the check
  does guarantee is `JoinGraph.NoDeadlock`.
* A search in the Swiss table for an absent key ends only while some slot is EMPTY
  (`SwissTable.SearchNeverStops`). No operation ever makes the number of such slots positive again:
  after 4096 keys have come and gone the table is empty and every lookup runs forever
  (`SwissTable.Jam`).
* A thief's emptiness test on an old `top` is right exactly while the drift is not positive or the
  drift modulo 2^64 is between 1 and 2^63 - 1 (`ChaseLev.ThiefTestExact`). Its CAS is right exactly
  while `top` has not moved by a positive multiple of 2^64 (`ChaseLev.CasExact`); the deque can reach
  a state where it has, and then an item is returned twice (`ChaseLev.StaleCasAfterFullTurn`).
* In the mono build a join or a semaphore wait that returns -1 because nobody else is ready leaves
  something behind: the caller stays registered as joiner, or the count stays decremented. The
  invariants are kept exactly if that does not happen (`Mono.System.Join`, `MonoSync.Sync.Wait`).

## Model

| member | source | states |
|---|---|---|
| ChaseLev.DiffExact | src/scheduler_mn.c:150-150 | the signed difference of two wrapped counters is the true one exactly when they are less than 2^63 apart |
| ChaseLev.FullExact | src/scheduler_mn.c:128-128 | the wrapped fullness test agrees with the unbounded counters |
| ChaseLev.OwnerTestsExact | src/scheduler_mn.c:126-175 | in every reachable state each wrapped test of the owner agrees with unbounded integers |
| ChaseLev.AbortsExactly | src/scheduler_mn.c:126-133 | a push aborts exactly if 4096 entries are in the deque when it reads `top`, and otherwise knows how many there are |
| ChaseLev.OwnerKeepsInv | src/scheduler_mn.c:124-175 | every owner access keeps the invariant; of all accesses, the store of `bottom` that ends a push appends the item, the decision of a pop with two or more items takes the last one, a won CAS takes the only one, and no other changes the window |
| ChaseLev.ThiefKeepsInv | src/scheduler_mn.c:178-195 | every thief access keeps the invariant; only a successful CAS changes the window, by its first item |
| ChaseLev.ThiefWordsExact | src/scheduler_mn.c:184-194 | while its counters are less than 2^63 apart a thief finds the deque non-empty exactly if it is, and wins its CAS exactly if nobody has taken the entry |
| ChaseLev.UndisturbedSteal | src/scheduler_mn.c:178-195 | a steal that nobody disturbs takes the oldest entry of a deque that looks non-empty, and from an empty one nothing |
| ChaseLev.StepKeepsInv | src/scheduler_mn.c:124-195 | any step of anybody keeps the invariant |
| ChaseLev.RunKeepsInv | src/scheduler_mn.c:124-195 | so does every interleaving of any length |
| ChaseLev.ExactlyOnce | src/scheduler_mn.c:124-195 | in every run: pushed = returned + window + item in the owner's hands, as multisets |
| ChaseLev.RingSafety | src/scheduler_mn.c:126-136 | in every run -1 <= bottom - top <= 4096, -1 only inside pop, live entries have slots of their own, and a push never writes one of them although its `top` may be old |
| ChaseLev.ThiefTestExact | src/scheduler_mn.c:184-186 | when a thief's emptiness test with an old `top` is right: an if and only if |
| ChaseLev.CasExact | src/scheduler_mn.c:189-194 | when a thief's CAS decides rightly: an if and only if |
| ChaseLev.StaleCasAfterFullTurn | src/scheduler_mn.c:189-194 | a reachable state in which a CAS that slept through 2^64 steals succeeds and an item pushed once is returned twice |
| ChaseLev.Runq.PushBottom | src/scheduler_mn.c:124-139 | under interference: the item is appended to what thieves left, nothing else changes, and the returned size bounds the real one; it aborts only with 4096 entries in the deque and nothing changed, and with fewer never |
| ChaseLev.Runq.PopBottom | src/scheduler_mn.c:142-175 | under interference: the last item that thieves left, or none and the deque is empty with top = bottom |
| ChaseLev.Runq.RaceForLast | src/scheduler_mn.c:162-174 | the race for the last item: owner or thief gets it, never both, and top = bottom = b + 1 whoever wins |
| ChaseLev.Runq.StealStep | src/scheduler_mn.c:178-195 | one access of a thief in memory is the machine's step; a steal that succeeds returns the oldest entry |
| ChaseLev.Runq.constructor | src/scheduler_mn.c:97-98 | an empty deque satisfies the invariant |
| WorkersSteps.FlushLastKeeps | src/thread_mn.c:361-372 | flushing `last_created`, from yield, create, join, exit and the blocking calls, keeps the invariant |
| WorkersSteps.TakeSpinKeeps | src/thread_sync.c:102-104 | so does taking the spin lock of a mutex, semaphore or descriptor |
| WorkersSteps.DropSpinKeeps | src/thread_sync.c:108-110 | and dropping it, also from the callback that runs after a park |
| WorkersSteps.TakeCbKeeps | src/scheduler_mn.c:366-373 | the loop empties the `after_switch` slot before it calls what was in it |
| WorkersSteps.RunCbKeeps | src/scheduler_mn.c:322-334 | the yielded thread goes to the worker's own deque or to any injector, a woken joiner to the own deque |
| WorkersSteps.PopKeeps | src/scheduler_mn.c:287-288 | popping the own deque keeps the invariant |
| WorkersSteps.DrainKeeps | src/scheduler_mn.c:241-255 | so does draining one thread from the injector |
| WorkersSteps.StealKeeps | src/scheduler_mn.c:267-280 | and stealing from another worker |
| WorkersLife.CreateKeeps | src/thread_mn.c:593-605 | a new thread is in the hands of its creator only |
| WorkersLife.StashKeeps | src/thread_mn.c:608-612 | it replaces `last_created`, which has been flushed |
| WorkersLife.ScheduleKeeps | src/scheduler_mn.c:336-344 | yielding moves the thread into `after_arg`, not into a queue |
| WorkersLife.ParkKeeps | src/scheduler_mn.c:346-354 | parking leaves the release of the spin lock to the callback |
| WorkersLife.SwitchKeeps | src/scheduler_mn.c:343-343 | from the switch on the thread's context is saved |
| WorkersLife.RunKeeps | src/scheduler_mn.c:374-381 | a thread is run only by the worker that took it |
| WorkersLife.WakeKeeps | src/thread_sync.c:170-171 | a woken thread goes to the deque of the worker that wakes it |
| WorkersLife.JoinDecideKeeps | src/thread_mn.c:725-745 | a join returns at once, is refused, or parks the caller in the join slot under the descriptor's lock |
| WorkersLife.ExitFinishKeeps | src/thread_mn.c:799-803 | finishing takes the joiner out of the slot in the same critical section |
| WorkersLife.ExitArmKeeps | src/thread_mn.c:812-815 | the joiner is left in `after_arg`, not pushed |
| WorkersLife.ExitLeaveKeeps | src/scheduler_mn.c:356-361 | the thread leaves its stack and is gone |
| WorkersLife.SigDecideKeeps | src/thread_sync.c:317-346 | a waiting thread has no pending signal of its mask |
| WorkersLife.KillDeliverKeeps | src/thread_sync.c:288-302 | a signal wakes the thread that waits for it or stays pending |
| WorkersCalls.LockDecideKeeps | src/thread_sync.c:102-137 | locking takes a free mutex or appends the caller |
| WorkersCalls.UnlockPopKeeps | src/thread_sync.c:154-169 | unlocking hands over to the first waiter or frees the mutex, and afterwards the caller does not own it; what it does exactly is WorkersMeaning.UnlockReleases |
| WorkersCalls.GrantOk | src/thread_sync.c:157-171 | the hand-over keeps arrival order = grants followed by the queue |
| WorkersCalls.SemDecrementKeeps | src/thread_sync.c:208-219 | one wait counts down and passes, or must queue; which of the two is WorkersMeaning.WaitGranted |
| WorkersCalls.SemAppendKeeps | src/thread_sync.c:229-237 | the waiter is queued before the lock is dropped |
| WorkersCalls.PostIncrementKeeps | src/thread_sync.c:257-260 | one post counts up |
| WorkersCalls.PostPopKeeps | src/thread_sync.c:261-266 | a post takes a waiter |
| WorkersCalls.PopOk | src/thread_sync.c:262-263 | count <= 0 after a post means that somebody is queued, and otherwise nobody is |
| WorkersRuns.StartInv | src/thread_mn.c:489-545 | the state after initialisation satisfies the invariant |
| WorkersRuns.StepKeepsInv | src/scheduler_mn.c:224-383 | every step of every worker keeps the whole invariant |
| WorkersRuns.RunKeepsInv | src/scheduler_mn.c:224-383 | so does every interleaving |
| WorkersRuns.SinglePlacement | src/scheduler_mn.c:224-383 | in every reachable state an unfinished thread is in exactly one place and position, and on at most one worker's stack; a worker's `current` names a thread elsewhere only while it parks it and holds that queue's lock |
| WorkersRuns.ReleaseThenPark | src/scheduler_mn.c:322-383 | a thread that can be taken from a deque, an injector or a wake-up is on no stack; a queued thread still on its stack is protected by a lock its own worker holds |
| WorkersRuns.JoinerWaitsForExit | src/thread_mn.c:799-823 | a joiner parked in time is in the slot until the thread finishes, then in the hands of its worker until the thread has left its stack |
| WorkersRuns.SlotEmptyWhenWritten | src/scheduler_mn.c:336-354 | the one-slot `after_switch` is empty at each of the places that write it |
| WorkersRuns.MutexHandOff | src/thread_sync.c:96-175 | locked exactly if there is an owner, unlocked means no queue, arrivals = grants followed by the queue |
| WorkersRuns.OwnerHandsOver | src/thread_sync.c:96-175 | an owner changes only by a thread taking a free mutex or by the owner giving it to the first in the queue, or to nobody |
| WorkersRuns.SemAccounting | src/thread_sync.c:202-272 | lock free: queue length = max(0, -count), grants = initial value + posts - max(0, count), served in order of arrival |
| WorkersRuns.NoMissedWakeUp | src/thread_sync.c:276-361 | no waiting thread has a pending signal of its mask, and nobody waits in the join slot of a finished thread |
| WorkersShape.StepDid | src/scheduler_mn.c:224-383 | a step of a worker changes nothing, or only the part of the state its action may touch, leads to one of the points of the code that follow, and moves at most one thread, along one of a few routes |
| WorkersMeaning.WaitGranted | src/thread_sync.c:208-219 | in every reachable state: a wait goes on at once exactly if the count was at least 1, and is then granted; in any case the count goes down by one |
| WorkersMeaning.WaitQueues | src/thread_sync.c:229-237 | a wait that was not granted makes its thread the last of the queue before anything else |
| WorkersMeaning.PostCounted | src/thread_sync.c:257-260 | every completed post counts, and raises the count by one |
| WorkersMeaning.PostGrants | src/thread_sync.c:261-266 | it takes the first waiter exactly if there is one, and grants the wait of that one |
| WorkersMeaning.LockDecides | src/thread_sync.c:105-137 | a free mutex becomes the caller's; at a locked one the caller is last in line and nothing about the owner changes |
| WorkersMeaning.UnlockReleases | src/thread_sync.c:157-171 | with nobody waiting the mutex is free afterwards; otherwise it belongs to the first in line, who is in the hands of the worker |
| WorkersMeaning.OwnershipInCalls | src/thread_sync.c:96-175 | between the decision and the end of an unlock the caller does not own the mutex; of a lock, it does |
| WorkersMeaning.WokenOnly | src/thread_sync.c:61-69 | nobody leaves a mutex, a semaphore, a join or a wait for a signal except the first in line, by the hand-over, the grant, the exit of the joined thread, or the signal |
| WorkersMeaning.DequeDiscipline | src/scheduler_mn.c:124-195 | over the machine: a deque grows and shrinks at its end by its owner only, and others take at its front |
| WorkersMeaning.InjectorDiscipline | src/scheduler_mn.c:224-255 | an injector is a queue: others append a thread that yielded, the owner takes the oldest |
| WorkersMeaning.Journey | src/scheduler_mn.c:224-383 | a thread that changes place takes one of the routes, and one that disappears has exited |
| WorkersMeaning.SigwaitDecides | src/thread_sync.c:320-346 | the lowest pending signal of the mask is consumed, and only that; without one the thread waits for exactly the mask |
| WorkersMeaning.KillDelivers | src/thread_sync.c:288-304 | a thread waiting for the signal is taken out of its wait and the signal is used up, for any other it is pending |
| WorkersMeaning.SignalKept | src/thread_sync.c:276-361 | a pending signal stays pending until its own thread consumes it |
| WorkersMeaning.JoinDecides | src/thread_mn.c:725-745 | the caller parks in the join slot exactly if the thread has not finished, the check does not refuse, and it is another thread |
| WorkersMeaning.FinishesOnly | src/thread_mn.c:799-803 | a thread finishes only by its own exit and for good; its joiner is then in the hands of its worker |
| WorkersMeaning.CreatedOnly | src/thread_mn.c:593-605 | a new identity comes into being only in thread_create, in the hands of its creator |
| WorkersMeaning.NewestFlushed | src/thread_mn.c:361-372 | whenever a call has flushed, the slot is empty and the thread created last is at the end of the own deque |
| WorkersMeaning.CreateStashes | src/thread_mn.c:608-612 | the new thread is then in `last_created` |
| WorkersMeaning.MutualExclusion | src/thread_sync.c:102-172 | two workers are never inside critical sections of the same spin lock |
| WorkersMeaning.NeverStuck | src/scheduler_mn.c:224-383 | every worker can go on, or waits for a spin lock whose holder is another worker that can |
| WorkersLoop.LooksExactly | src/scheduler_mn.c:257-381 | in every reachable state the loop runs what it took, carries out what the last thread left behind, takes from its deque exactly if that is not empty, newest first, and else from its injector exactly if that is not, oldest first |
| WorkersLoop.StealsOldest | src/scheduler_mn.c:267-280 | a worker with nothing of its own can take the oldest thread of any other deque that is not empty |
| Idle.RunKeeps | src/scheduler_mn.c:211-311 | the handshake invariant holds in every run of any number of workers, pushers and shutdown callers |
| Idle.OwnerSleep | src/scheduler_mn.c:298-306 | a worker that saw nothing under its idle lock, after announcing itself, will be signalled for whatever comes |
| Idle.NoStrandedWork | src/scheduler_mn.c:282-311 | a sleeping worker has an empty deque; if its injector is not empty a pusher has still to signal it, if shutdown is set a caller has still to broadcast |
| Idle.PusherWakes | src/scheduler_mn.c:211-237 | such a pusher wakes it within five steps unless another pusher or caller holds the idle lock; the sleeper never does |
| Idle.PushDelivers | src/scheduler_mn.c:211-237 | inj_push, undisturbed: the item is last in the injector and counted, a worker asleep with its bit set is woken, nothing else changes |
| Idle.ShutdownWakesAll | src/scheduler_mn.c:111-119 | the broadcast, undisturbed: the flag is set and every sleeping worker is woken |
| Idle.WokenFinds | src/scheduler_mn.c:282-311 | a woken worker, undisturbed, clears its bit and takes the oldest injected item, or stops if there is none and the system shuts down |
| Idle.RestsExactly | src/scheduler_mn.c:282-311 | a worker that found nothing, undisturbed: it stops if the system shuts down, sleeps with its bit set exactly if its injector is empty, and otherwise is back in its loop with its bit cleared |
| Idle.InjectorIsQueue | src/scheduler_mn.c:224-255 | over all steps of all actors the injector is a queue of the items pushed |
| Idle.DequeOwned | src/scheduler_mn.c:282-288 | only its owner moves the bottom of a deque, and others take at the top only what is there |
| Caches.Pool.Conserved | src/thread_mn.c:154-303 | initialised slots are partitioned between their holders, one worker each, caches, local lists and the global list; counts are list lengths within the limit |
| Caches.NeverTwice | src/thread_mn.c:184-303 | over a history in which only free slots are taken and only the holder gives back or passes on: between two hand-outs of a slot it was given back |
| Caches.Pool.HandedOutOnce | src/thread_mn.c:184-303 | the pool's own history is one of those, so no slot is handed out twice, to whatever workers |
| Caches.Pool.Alloc | src/thread_mn.c:184-216 | the head of the worker's cache, or else a slot from the global list or the fresh slab; nobody held it when it was handed out, and now the worker does; NIL only if own cache, global list and arena are all exhausted |
| Caches.Pool.Release | src/thread_mn.c:218-238 | a slot the worker holds leaves its hands for the head of its cache and nothing else moved; or, if that was full, for the head of the global list on top of a batch of the cache in reverse order |
| Caches.Pool.RefillThreads | src/thread_mn.c:248-270 | a batch or all there is, in reverse order: first from the global list, then from the fresh slab, and both shrink by exactly that |
| Caches.Pool.RefillStacks | src/thread_mn.c:192-203 | the same outcome, by one slot at a time |
| Caches.Pool.Flush | src/thread_mn.c:226-237 | a batch of the cache and then the slot go to the head of the global list, in that order |
| FreeLists.Slots.Push | src/thread.c:198-202 | a free slot goes to the head of its list, all other lists keep theirs |
| FreeLists.Slots.Pop | src/thread.c:188-190 | the head of a list comes off, all other lists keep theirs |
| FreeLists.Arena.Alloc | src/thread.c:184-196 | a slot that nobody has, recycled before fresh; NIL only if all are handed out |
| FreeLists.Arena.Release | src/thread.c:218-222 | the slot can be handed out again |
| JoinGraph.AddEdge | src/thread.c:563-568 | one more accepted join links exactly what it must: connectedness through the new edge |
| JoinGraph.AcceptedIsForest | src/thread.c:563-568 | joins accepted between unlinked threads form a forest: each is a bridge |
| JoinGraph.NoDeadlock | src/thread.c:563-568 | nobody waits for itself, over however many threads |
| JoinGraph.ClosingJoinIsLinked | src/thread.c:563-568 | a join that would close a cycle of waits is between linked threads, so it is refused |
| JoinGraph.RefusalWithoutDeadlock | src/thread.c:563-568 | some refused joins would close no cycle |
| JoinGraph.ClosesCycleExactly | src/thread.c:563-568 | a join closes a cycle of waits exactly if the target already waits for the joiner |
| JoinGraph.RefusalExactly | src/thread.c:563-568 | with one joiner per thread: refused exactly if some thread is above both, a deadlock exactly if that is the target |
| UnionFind.RepIsRoot | src/thread.c:501-506 | the representative is reached by following parents from any element |
| UnionFind.HalveKeeps | src/thread.c:501-506 | path halving keeps every representative |
| UnionFind.HalveKeepsRanked | src/thread.c:501-506 | and that ranks rise along links |
| UnionFind.LinkKeeps | src/thread.c:514-522 | linking two roots merges exactly their two sets |
| UnionFind.LinkKeepsClimbs | src/thread.c:514-521 | union by rank keeps ranks strictly rising |
| UnionFind.LinkKeepsSized | src/thread.c:514-521 | and keeps 2^rank <= size of the set |
| UnionFind.RankBoundAll | src/thread_common.h:25-25 | with 262144 descriptors no rank exceeds 18 |
| UnionFind.LinkTracks | src/thread.c:508-523 | sets are the connected components of the accepted joins |
| UnionFind.AcceptExtends | src/thread.c:563-568 | an accepted join keeps the graph one that was accepted |
| UnionFind.Descriptors.Find | src/thread.c:501-506 | terminates with the representative, changing none; the parent links shorten in place |
| UnionFind.Descriptors.Union | src/thread.c:508-523 | refuses exactly if the two are already linked by accepted joins, otherwise records the join; the 8-bit rank does not overflow |
| UnionFind.Descriptors.Reset | src/thread_internal.h:65-72 | recycling a descriptor cuts it loose, changes no other parent or rank, and keeps the links a forest, so find still terminates |
| Masks.SetBit | src/dedup.h:88-94 | building a match mask sets one membership |
| Masks.NextBit | src/dedup.h:145-152 | ctz finds a member, and m & (m - 1) removes just that one |
| Masks.ZeroHasNoBit | src/dedup.h:145-145 | a mask is zero exactly if it has no member |
| Probing.TrianglesDiffer | src/dedup.h:124-129 | triangular numbers below 2^m differ modulo 2^m |
| Probing.NextGroup | src/dedup.h:124-129 | one call of the probe function moves to the next group of the sequence |
| Probing.ProbesCoverEachOnce | src/dedup.h:118-129 | 2^m probes visit every one of 2^m groups exactly once, from any start |
| SwissTable.StoreKeeps | src/dedup.h:173-183 | storing at the first free slot of the probe path keeps every key reachable |
| SwissTable.TombstoneKeepsStops | src/dedup.h:208-209 | removal changes for no group whether a search stops there |
| SwissTable.RemoveKeeps | src/dedup.h:206-212 | so it keeps every other key reachable |
| SwissTable.AbsentAfter | src/dedup.h:154-155 | a search may stop at a group with an EMPTY slot |
| SwissTable.SearchNeverStops | src/dedup.h:139-158 | without EMPTY slots no probe ever ends the search for an absent key |
| SwissTable.RoomExact | src/dedup.h:173-183 | some slot is free exactly while fewer than 4096 keys are stored |
| SwissTable.Jam | src/dedup.h:162-221 | a table without EMPTY slots that stands for the empty map, reached by insertions and removals: no search of any key ends |
| SwissTable.Table.constructor | src/dedup.h:224-225 | the initial table is the empty map |
| SwissTable.Table.Match | src/dedup.h:88-103 | bit i is set exactly if control byte i equals the tag |
| SwissTable.Table.MatchFree | src/dedup.h:106-112 | bit i is set exactly if slot i is EMPTY or DELETED |
| SwissTable.Table.Search | src/dedup.h:199-220 | finds the key's slot exactly if it is stored, within 256 groups if the key or an EMPTY slot exists |
| SwissTable.Table.Lookup | src/dedup.h:133-159 | the value of the map, or NULL if the key is absent, for any hash |
| SwissTable.Table.FindFree | src/dedup.h:168-186 | the first group on the path with a free slot and the lowest free slot in it, within 256 groups if there is one |
| SwissTable.Table.Insert | src/dedup.h:162-187 | an absent key is added to the map and nothing else changes; no slot becomes EMPTY |
| SwissTable.Table.Remove | src/dedup.h:190-221 | the key leaves the map, nothing else changes, EMPTY slots remain if and only if there were any |
| Dedup.NoKeyTwice | src/thread.c:84-98 | no key is in two slots, and no two descriptors in use carry the same key |
| Dedup.Protocol.Create | src/thread.c:379-418 | another handle on the thread in flight with that key, or else a new thread with one handle, the previous one flushed; every other descriptor keeps its key and handles; NULL only if all descriptors are in use |
| Dedup.Protocol.Flush | src/thread.c:84-98 | the key of `last_created` is absent, so the unchecked insert is sound |
| Dedup.Protocol.TakeLast | src/thread.c:570-577 | a thread joined from `last_created` was never in the table |
| Dedup.Protocol.Exit | src/thread.c:685-691 | the key of a thread that leaves without a joiner becomes free, also when no slot is EMPTY |
| Dedup.Protocol.Cleanup | src/thread.c:633-653 | a descriptor is recycled exactly with its last handle, and its key leaves the table with it; no other descriptor changes |
| Ring.EnqueueKeeps | src/scheduler.h:10-18 | four link writes append to the ring and disturb no wait queue |
| Ring.RemoveKeeps | src/scheduler.h:35-40 | two link writes take one member out, the others keep their order |
| Ring.ReplaceKeeps | src/scheduler.h:42-59 | the new member is where the old one was, also in a ring of one |
| Ring.AppendKeeps | src/thread_sync.c:52-59 | appending to a wait queue through `sched_next` disturbs neither the ring nor another queue |
| Ring.PopKeeps | src/thread_sync.c:61-69 | neither does popping |
| Ring.Links.constructor | src/thread.c:333-342 | the main thread alone is a ring |
| Ring.Links.SchedEnqueue | src/scheduler.h:10-18 | the thread is the last of the ring |
| Ring.Links.IsSchedEmpty | src/scheduler.h:29-33 | true exactly if the running thread is alone |
| Ring.Links.SchedRemove | src/scheduler.h:35-40 | the member is out, the order of the others is kept |
| Ring.Links.SchedReplace | src/scheduler.h:42-59 | the new thread has the old one's place |
| Ring.Links.PickNext | src/scheduler.h:77-84 | the thread enqueued last |
| Ring.Links.PickHighest | src/scheduler.h:63-69 | the first thread after the running one that no other outranks |
| Ring.Links.WqAppend | src/thread_sync.c:52-59 | the thread is last in its queue |
| Ring.Links.WqPop | src/thread_sync.c:61-69 | the thread that waited longest, or none |
| Ring.Links.Depart | src/thread_sync.c:129-139 | the running thread is out of the ring and in its queue, the member behind it runs |
| ReadyQueue.EnqueueIsAppend | src/scheduler.h:10-18 | an enqueue in the ring is an enqueue in the queue scheduler |
| ReadyQueue.YieldIsRequeue | src/context_switch.S:82-92 | advancing `current` is: enqueue the running thread, run the one dequeued; nothing if the queue is empty |
| ReadyQueue.RingRefinesQueue | options/src/scheduler.c:17-32 | after every sequence of enqueues and yields the ring is the running thread and queue of the queue scheduler |
| ReadyQueue.LinksFollow | src/scheduler.h:10-18 | the links in memory and the queue in memory, side by side, stay in step over every such sequence |
| ReadyQueue.SystemFollows | options/src/scheduler.c:17-32 | over every sequence of creates, yields and wake-ups the mono system does what the same calls do over the queue: same running thread, same order, same `last_created`, same wait queues |
| ReadyQueue.Make | src/thread.c:84-98 | and so for each single call |
| ReadyQueue.YieldsAreFair | src/context_switch.S:82-92 | n yields over n ready threads run each exactly once and end where they began |
| ReadyQueue.BlockingKeepsOrder | src/thread_sync.c:129-139 | blocking keeps the cyclic order of the others |
| ReadyQueue.BlockPicksNewest | src/scheduler.h:73-84 | but the newest thread runs next; that is the queue's choice exactly if it is the only one |
| ReadyQueue.NewestFirstExample | src/scheduler.h:73-84 | three threads for which the two orders differ |
| MonoState.ExecutingStackOwned | src/thread.c:592-601 | the stack executed on belongs to a thread that is alive: neither free nor pending |
| MonoState.StacksPartitioned | src/thread.c:184-202 | used stacks are partitioned between `pending_dead_stack` and the descriptors in use |
| MonoState.ExitKeepsItsStack | src/thread.c:698-717 | a stack that is free after thread_exit retired the own one is another one |
| MonoState.NotStartedIsReady | src/thread.c:578-588 | a thread not started whose function is set is in the ring without a stack; without function it is `last_created` |
| MonoState.InlineGivesBack | src/thread.c:532-553 | an inline join leaves ring and joiner as they were, the joined thread finished |
| MonoState.RootHasLent | src/thread.c:532-553 | whoever has others running in frames on its stack has lent its place, so it cannot exit under them |
| MonoState.CreateKeeps | src/thread.c:400-413 | creating keeps the invariant |
| MonoState.FlushKeeps | src/thread.c:84-98 | so does flushing |
| MonoState.BeginInlineKeeps | src/thread.c:532-545 | entering an inline join |
| MonoState.EndInlineKeeps | src/thread.c:547-552 | returning from it |
| MonoState.ReapKeeps | src/thread.c:632-653 | releasing descriptor and stack of a joined thread |
| MonoState.HandOverKeeps | src/context_switch.S:82-102 | handing over and staying ready |
| MonoState.BlockKeeps | src/thread_sync.c:129-141 | blocking |
| MonoState.WakeKeeps | src/thread_sync.c:170-171 | waking |
| MonoState.SignalKeeps | src/thread_sync.c:288-304 | signalling |
| MonoState.DispatchKeeps | src/context_switch.S:86-109 | getting the processor: a first run on a stack that was free, or going on; nothing is released |
| MonoState.ReleaseKeeps | src/context_switch.S:120-135 | the release at the end of a switching yield keeps the invariant, whatever thread it switched to |
| MonoState.ExitLeavesPending | src/thread.c:707-717 | after thread_exit the own stack is pending, not free, whoever runs next |
| MonoState.FirstRunAvoidsPending | src/context_switch.S:155-166 | a yield to a thread that never ran gives it another stack than the pending one and then frees that |
| MonoState.ExitToJoinerKeeps | src/thread.c:673-683 | leaving to a parked joiner |
| MonoState.ExitAwayKeeps | src/thread.c:685-717 | leaving without one |
| MonoMeaning.OthersUntouched | src/thread.c:373-718 | every effect leaves the descriptor and the place of all threads but those it concerns as they are |
| MonoMeaning.FunctionKept | src/thread.c:84-98 | a thread keeps its function from its flush until it leaves or is reaped |
| MonoMeaning.FlushedWithFunction | src/thread.c:84-98 | flushing gives the created thread its function and nothing else, and puts it at the end of the ring |
| MonoMeaning.CreatedEmpty | src/thread.c:400-413 | a new thread is not started or finished, has no function, stack, joiner or signal, and waits for nothing |
| MonoMeaning.StartsOnce | src/context_switch.S:155-166 | a thread starts when it first gets the processor or runs inline, and not again before its descriptor is reused |
| MonoMeaning.FinishesOnce | src/thread.c:659-718 | a thread finishes only as the running one that leaves, and stays finished until its descriptor is reused |
| MonoMeaning.SignalsKept | src/thread_sync.c:276-308 | no effect but thread_kill adds a pending signal, and none takes one away |
| MonoMeaning.KillThenSigwait | src/thread_sync.c:288-335 | a signal to a thread that does not wait for it is pending, so that thread's next wait for it returns at once |
| MonoMeaning.SigwaitThenKill | src/thread_sync.c:288-361 | a thread that waits is woken by a signal exactly if that is in its mask, is then last in the ring, and the signal is used up |
| MonoMeaning.JoinThenExit | src/thread.c:673-683 | whoever parked to join the running thread gets its place in the ring when it leaves |
| MonoMeaning.WakeIsFair | src/thread_sync.c:61-69 | waking takes the first of the queue to the end of the ring; the rest keeps its order |
| MonoMeaning.DispatchedAsLeft | src/context_switch.S:86-109 | a thread goes on as it was suspended; one that never ran starts with the function and signals it had |
| Mono.System.constructor | src/thread.c:325-365 | the initial system satisfies the invariant |
| Mono.System.FlushLastCreated | src/thread.c:84-98 | the created thread gets the function it was created with and enters the ring last |
| Mono.System.Create | src/thread.c:373-418 | a descriptor nobody had becomes `last_created`, with the default priority, and the previous one is flushed; NIL exactly if none is left |
| Mono.System.Yield | src/context_switch.S:74-168 | nothing while a thread runs inline; else the next of the ring runs and the pending stack is released, or, if nobody else is ready, neither; it fails exactly if the next thread needs a stack and all are used |
| Mono.System.YieldByPriority | src/thread.c:444-474 | the ring turns to the first of the most urgent, on a tie with the running thread too; it stays only if it outranks everybody; no stack is released; it fails exactly if the thread elected needs a stack and all are used |
| Mono.System.FirstRun | src/thread.c:102-123 | a first run gets a stack that was free, and fails exactly if none is; the pending one is not |
| Mono.System.Resume | src/context_switch.S:101-109 | a resumed thread goes on with its own stack, and nothing else changes |
| Mono.System.ReleasePending | src/context_switch.S:120-135 | the pending stack is free, nothing else changes |
| Mono.System.Join | src/thread.c:555-657 | a finished thread is reaped, always; else refused without effect, or run inline if it never ran, or the caller parks; -1 if nobody else is ready, and only then the invariant is lost; the program aborts exactly if the caller parks, the next thread needs a stack and all are used |
| Mono.System.InlineLast | src/thread.c:570-577 | the joined thread is still `last_created` and runs in the caller's frame and place |
| Mono.System.InlineQueued | src/thread.c:578-605 | the joined thread leaves the ring first; it never had a stack |
| Mono.System.FinishInline | src/thread.c:547-552 | the joiner is back in its place and the thread is reaped |
| Mono.System.Exit | src/thread.c:659-718 | back to the inline joiner, or to the parked joiner in the same place, or away, or the last thread; it aborts exactly if it goes away to a thread that needs a stack and all are used |
| Mono.System.VacateStack | src/thread.c:698-712 | the own stack becomes pending, the one that was pending is released |
| Mono.System.Cleanup | src/thread.c:632-653 | descriptor and stack go back to their free lists |
| Mono.System.Leave | src/thread_sync.c:129-145 | the caller blocks and the thread behind it gets the processor; it fails exactly if that one needs a stack and all are used |
| Mono.System.WakeFirst | src/thread_sync.c:157-171 | the longest waiter becomes ready, last in the ring |
| Mono.System.Sigwait | src/thread_sync.c:310-361 | the lowest pending signal of the mask is consumed at once exactly if there is one, else the caller parks, or gets -1 without effect if nobody else is ready; it aborts exactly if the next thread needs a stack and all are used |
| Mono.System.Kill | src/thread_sync.c:276-308 | wakes the thread that waits for the signal, else the signal stays pending; numbers outside 1 to 7 are refused |
| Mono.System.SetPriority | src/thread.c:420-427 | priorities outside 0 to 7 are refused |
| MonoSync.Sync.Lock | src/thread_sync.c:96-146 | takes a free mutex, or queues, or returns -1 without effect exactly if it is locked and nobody else is ready; it never aborts; an unlocked mutex never has a queue |
| MonoSync.Sync.Unlock | src/thread_sync.c:148-175 | hands over to the longest waiter and stays locked, or becomes free |
| MonoSync.Sync.Wait | src/thread_sync.c:202-249 | counts down and passes or queues; it aborts exactly if it must queue, the next thread needs a stack and all are used; the queue is as long as the count is negative, except exactly after -1 for want of somebody else to run |
| MonoSync.Sync.Post | src/thread_sync.c:251-272 | counts up and wakes the longest waiter exactly if there is one |

## Left out

- Weak memory: every atomic access is sequentially consistent.
- Registers, ucontext, trampolines, guard pages, mmap, valgrind, CPU pinning, timers and signal masks; preemption is a yield at any point of user code.
- The inline branch of the M:N thread_join (src/thread_mn.c:673-709): it keeps a worker pointer across user code that may migrate, so single placement is not claimed there. WorkersSteps.FlushLastKeeps excludes joining the worker's own `last_created`.
- WorkersLife.JoinDecideKeeps: does not model the release of the descriptor and stack at the end of the M:N join; a joiner that arrives after FINISHED is published may release the stack early (src/thread_mn.c:726-729), and stack safety is claimed for parked joiners only. Thread identities are never reused there.
- WorkersLife.JoinDecideKeeps: the verdict of the deadlock check is an input; UnionFind models the check itself. One thread has at most one joiner at a time.
- WorkersSteps.TakeSpinKeeps: only the owner unlocks a mutex, and signals are sent to threads that exist; the code checks neither. Semaphores start with a value that is not negative.
- WorkersSteps.RunCbKeeps: the round-robin counter that picks the target worker is any choice, and so is the order in which victims are tried for a steal.
- Idle.NoStrandedWork: threads move by other calls too, but those only push to the worker's own deque while it is awake. The signal of wake_one_idle after a local push is covered as a wake-up for no reason.
- ChaseLev.Runq.PushBottom: a full deque ends the process; the model reports it.
- Caches.Pool.Alloc: a worker's code between two lock operations is one block, since it touches only its own cache there. Who holds a slot is part of the state, and a holder may pass it on to another worker at any time, since threads migrate. More than one pool is not modelled together.
- UnionFind.Descriptors.Reset: after a descriptor has been recycled only the forest shape and termination are claimed, not what a refusal means.
- The SSE2 variants of the match functions; the scalar ones are modelled.
- SwissTable.Table.Lookup: needs the key or an EMPTY slot in the table, else the code does not return (SwissTable.SearchNeverStops). Likewise SwissTable.Table.Remove; SwissTable.Table.Insert needs a slot that is EMPTY or DELETED.
- Dedup.Protocol.Create: a key that is not in flight needs an EMPTY slot, else the code does not return. A reference count of 65535 is not exceeded, and the function pointer is not NULL; a thread with a NULL function would never leave the table.
- Mono.System.Join: the verdict of the deadlock check is an input; one joiner per thread. Deduplication is modelled in Dedup, not here.
- WorkersMeaning.NeverStuck: waiting for work is not part of it (module Idle), and with one joiner per thread a second join of the same thread is refused. Fairness of the spin locks is not modelled.
- MonoSync.Sync.Lock: the switch does not allocate a stack for a thread that never ran (src/thread_sync.c:139-141), so if the call must wait the next thread has to have run before.
- Mono.System.FirstRun: running out of stacks aborts the program; the model reports it and claims nothing about the state after it. Return values, arguments and the contents of stacks are not modelled.
- Mono.System.Yield: the assembly version. The portable one (src/ctx_ucontext.c:183-198) never releases the pending stack; otherwise it is the same.
- Ring.Links.PickNext: only the variant without priorities; Ring.Links.PickHighest is the other.
- `sched_dequeue_fifo` and the destructor that uses it, logging, benchmarks, scripts, build files and tests; the older variant in options/src/thread.c.
