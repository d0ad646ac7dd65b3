# A verified model of the thread pool's concurrent core

This project models, in Dafny 4.11, the four concurrent protocols a CPU thread pool is built from,
and proves what they promise over every interleaving:

1. the ticketed multi-producer multi-consumer queue (`MPMCQueue.h`), with fixed capacity and with
   slots arrays that are replaced under a seqlock while operations are in flight;
2. the semaphore-and-queue task queues (`PriorityLifoSemMPMCQueue.h`, and `LifoSemMPMCQueue.h` as
   the case of one queue);
3. pool sizing and shutdown (`ThreadPoolExecutor.cpp`, `CPUThreadPoolExecutor.cpp`);
4. lifetime hand-off: KeepAlive counting with weak references on top of the Baton
   (`Executor.h`, `DefaultKeepAliveExecutor.h`, `Baton.h`).

A protocol is a step system: a state, `Enabled` and `Apply` for each atomic step of each thread, and
`Run`, the predicate "this sequence of states is an interleaving". Results are about every state of
every run. Where the source is a loop or updates fields in place there is also a method or a class
with methods: the search for a stride, the closed-array loops, the four ticket functions, `size()`,
the priority scan, `post` and the waits of the Baton, `WeakRef::lock`, and the locked sections of
the pool. The lock-free ones are written against a method `Interfere` that lets the other threads
take any steps between two accesses; their proofs use only its contract, and a ghost trace ties a
result to an instant of the call.

## Files

| file | content |
|---|---|
| `Arithmetic.dfy`, `Counting.dfy`, `Wrappers.dfy` | divisibility and coprimality; sums over threads; Option |
| `Stride.dfy` | stride, slot index and turn |
| `Slots.dfy`, `Fifo.dfy` | the slot protocol common to both queues; a plain queue and the abstraction to it |
| `StaticQueue.dfy`, `TicketFunctions.dfy` | the fixed-capacity queue: runs, and the ticket functions as code |
| `DynamicQueue.dfy`, `DynamicOffsets.dfy`, `DynamicRuns.dfy`, `DynamicTickets.dfy` | the expanding queue, one step per load and store; where new arrays start; runs built step by step; ticket holders and what testing a slot tells |
| `PriorityQueue.dfy` | priority queues with one semaphore |
| `Baton.dfy`, `KeepAlive.dfy` | the Baton; tokens, counting, join and reset |
| `Pool.dfy` | what each locked section does, as functions and as the code |
| `PoolRuns.dfy`, `PoolShutdown.dfy`, `PoisonCounts.dfy`, `StopDiscards.dfy`, `TaskOrder.dfy`, `FastPaths.dfy`, `JoinDrain.dfy`, `NoStrandedTask.dfy` | the pool's runs and what they guarantee |
| `UnfinishedShrink.dfy` | a run after which stop and join hang |

## Expected properties that fail, and when they hold

- *The asserts of the dynamic queue protect its packed state.* The state is decodable exactly up to 31
  closed arrays (`DynamicQueue.PackDecodes`), but the assert in `tryExpand` lets index 31 pass, and the
  state stored next reads as no closed arrays with a wrong offset (`UnlockKeepsIff`). No run closes a
  32nd array if and only if 31 expansions reach the capacity (`DynamicRuns.SafeForAllRunsIff`). With the
  constructor arguments 0x80000001, 1 and 2 a run that expands only as `blockingWrite` does loses the
  state (`DoublingFromOneLosesState`); the default arguments are always safe. The other results on the
  dynamic queue cover every configuration up to its 31st closed array.
- *A false return of a ready-ticket function means that the next ticket's slot was not ready at some
  instant of the call.* It holds if the ticket counter, read again after the test, is unchanged
  (`DynamicTickets.UnchangedFalseIsRight`), as the fixed-capacity functions and the dynamic push check.
  The dynamic `tryObtainReadyPopTicket` does not, and may return false with the next slot ready
  throughout (`FalsePopMayBeWrong`).
- *`stop()` and `join()` return.* Started while an earlier shrink is unfinished they owe, forever, one
  join too many per thread still to stop (`PoolShutdown.JoinsStayOwed`); with nobody else joining, they
  can return if and only if no thread was still to stop (`ShutdownReturnsIff`). Waiting for
  `setNumThreads` to return is not enough: it may join a thread that had timed out earlier instead of
  the one it removes. `UnfinishedShrink.StopMayHang` gives a run in which every call has returned and
  every later `stop()` or `join()` hangs.
- *`join()` runs every task queued before it.* It is certain to run a queued task if and only if fewer
  adds have still to post than tasks are queued from that one on, and some worker is not already on
  its way to stopping (`JoinDrain.JoinFinishesTaskIff`). With every add posted the first condition holds
  (`PostedIsFunded`), but not the second: `JoinMayAbandonTask` gives a run in which all calls of `add()`
  had returned and `join()` returns with a task still queued, because the only worker's take has timed
  out but it has not got the lock yet. That the task's own add has posted does not suffice for the
  first: in `JoinMayAbandonPostedTask` the add of a task ahead of it has not.
- *`join()` leaves no poison task behind.* It leaves exactly as many as the workers that were on their
  way to stopping when it started plus the takes that timed out since (`JoinDrain.JoinLeftoverPoison`),
  so none if and only if there were neither (`JoinLeavesNoPoisonIff`).
- *A KeepAlive is true exactly when it has an executor.* `operator bool` tests the flags too, so the
  alias of an empty token is true (`KeepAlive.EmptyAliasTestsTrue`; exact condition in
  `AsBoolIffPointer`).

## Model

| member | source | states |
|---|---|---|
| `Stride.ComputeStride` | ThreadPool/MPMCQueue.h:1096-1113 | for every capacity the loop returns a stride coprime to it, and no candidate prime has a larger circular separation |
| `Stride.StrideIsBest` | ThreadPool/MPMCQueue.h:1096-1113 | the stride is 1 or a candidate, and maximal in separation among all candidates |
| `Stride.StrideIsFirstBest` | ThreadPool/MPMCQueue.h:1096-1113 | among candidates of equal separation the smallest is kept, and 1 unless a candidate does better |
| `Stride.SeparationIsDistance` | ThreadPool/MPMCQueue.h:1096-1119 | the separation searched for is the distance round the array between the slots of consecutive tickets |
| `Stride.SmallPrimesComplete` | ThreadPool/MPMCQueue.h:1096-1113 | the candidates are exactly the primes below 24 |
| `Stride.StrideIsCoprime` | ThreadPool/MPMCQueue.h:1096-1113 | no common divisor of stride and capacity, for all capacities |
| `Stride.IdxInjectiveInWindow` | ThreadPool/MPMCQueue.h:1117-1119 | any capacity consecutive tickets use different slots |
| `Stride.SlotAndTurnInjective` | ThreadPool/MPMCQueue.h:1117-1126 | slot and turn identify the ticket over all tickets |
| `Stride.SlotAndTurnSurjective` | ThreadPool/MPMCQueue.h:1117-1126 | every slot is used in every turn, by exactly one ticket |
| `Stride.NextLap` | ThreadPool/MPMCQueue.h:1117-1126 | a capacity later the same slot comes back one turn later |
| `Stride.MachineArithmeticExact` | ThreadPool/MPMCQueue.h:1117-1126 | under the no-wrap bounds the 64-bit index and the 32-bit turns equal the unbounded ones |
| `Slots.LocateInjective` | ThreadPool/MPMCQueue.h:578-601 | across all arrays of a dynamic queue no two tickets share array, slot and turn |
| `Slots.AdvanceSlotInv` | ThreadPool/MPMCQueue.h:1308-1337 | each stage of a slot enqueue or dequeue keeps, for every ticket, the link between its stages, the turn counter and the slot's content |
| `Slots.PublishSlotInv` | ThreadPool/MPMCQueue.h:514-556 | publishing an array above every ticket at work keeps that link for all tickets |
| `Fifo.PushRefines` | ThreadPool/MPMCQueue.h:809-813 | a push ticket is an enqueue of the plain queue, followed at once by the dequeue of a pop already waiting for it |
| `Fifo.PopRefines` | ThreadPool/MPMCQueue.h:1285-1304 | a pop ticket is a dequeue, or a pop that waits because the plain queue is empty |
| `Fifo.FinishedPopIsFifo` | ThreadPool/MPMCQueue.h:1536-1566 | a finished pop holds the element the plain queue gave to the pop of that rank |
| `StaticQueue.RunInv` | ThreadPool/MPMCQueue.h:1308-1337 | in every state of every run: the slot invariant, unused ready tickets find their slot ready, and every ticket that is not blocking has its counterpart's ticket handed out |
| `StaticQueue.RunRefinesFifo` | ThreadPool/MPMCQueue.h:1308-1337 | every step of every interleaving is a move of one plain FIFO queue, with which all finished pops agree |
| `StaticQueue.PopReturnsItsPush` | ThreadPool/MPMCQueue.h:1536-1566 | a completed pop with ticket t has exactly the value pushed with ticket t |
| `StaticQueue.SlotHoldsIffOdd` | ThreadPool/MPMCQueue.h:1372-1380 | a slot holds an element exactly when its counter is odd, except between move and completeTurn of the one operation whose turn it is; and it is that ticket's element |
| `StaticQueue.EarlierLap` | ThreadPool/MPMCQueue.h:1421-1423 | a slot has reached a ticket's push turn exactly when the pop one lap earlier is done |
| `StaticQueue.ReadyTicketNeverBlocks` | ThreadPool/MPMCQueue.h:1131-1159 | an operation with a ready ticket can always take its next step until it is done, whatever others do |
| `StaticQueue.LeastRankCanAdvance` | ThreadPool/MPMCQueue.h:1197-1218 | with no blocking operation in flight, whatever finished before, the unfinished operation of least rank is never held up |
| `StaticQueue.CountersInWindow` | ThreadPool/MPMCQueue.h:1197-1218 | with no blocking operation in flight popTicket <= pushTicket <= popTicket + capacity |
| `StaticQueue.PromisedTicketsDrain` | ThreadPool/MPMCQueue.h:1285-1304 | promised and ready tickets never deadlock: if all operations in flight have one, the window bound holds, someone can always go on, and every schedule finishes all of them in exactly the steps left |
| `TicketFunctions.TurnHeldOver` | ThreadPool/MPMCQueue.h:1421-1423 | a slot found ready for a ticket stays at that turn as long as the ticket is not handed out |
| `TicketFunctions.MpmcQueue.TryObtainReadyPushTicket` | ThreadPool/MPMCQueue.h:1131-1159 | true: the next ticket is taken at an instant when its slot's turn counter is twice its lap; false: at some instant of the call it was not |
| `TicketFunctions.MpmcQueue.TryObtainReadyPopTicket` | ThreadPool/MPMCQueue.h:1223-1242 | the same for pops, with one more than twice the lap |
| `TicketFunctions.MpmcQueue.TryObtainPromisedPushTicket` | ThreadPool/MPMCQueue.h:1197-1218 | true: the next ticket is taken at an instant with pushes - pops < capacity; false: pushes - pops >= capacity at some instant of the call |
| `TicketFunctions.MpmcQueue.TryObtainPromisedPopTicket` | ThreadPool/MPMCQueue.h:1285-1304 | true: taken at an instant with pops < pushes; false: pops >= pushes at some instant of the call |
| `TicketFunctions.MpmcQueue.BlockingPushTicket` | ThreadPool/MPMCQueue.h:809-813 | a blocking push always gets the next ticket |
| `TicketFunctions.NextReadyIff` | ThreadPool/MPMCQueue.h:1421-1423 | the slot test of the model is the comparison of the turn counter in memory with the ticket's lap |
| `TicketFunctions.MpmcQueue.Size` | ThreadPool/MPMCQueue.h:741-765 | the result is the true pushTicket - popTicket at one instant between call and return |
| `DynamicQueue.PackDecodes` | ThreadPool/MPMCQueue.h:502-508 | packed state, locked or not, decodes to what was packed if and only if at most 31 arrays are closed |
| `DynamicQueue.AssertedBoundIsTooWeak` | ThreadPool/MPMCQueue.h:536-550 | constructor arguments whose computed bound is 32, so that index 31 is inside closed_, passes the assert, and packs to a lost state |
| `DynamicQueue.SafeArguments` | ThreadPool/MPMCQueue.h:182-189 | with the constructor's arguments, adjusted as it does, at most 31 expansions are possible if and only if the capacity is at most the first capacity times the multiplier to the 31st |
| `DynamicQueue.DefaultArgumentsAreSafe` | ThreadPool/MPMCQueue.h:176-180 | which holds of the default arguments for every 64-bit capacity |
| `DynamicQueue.UnlockKeepsIff` | ThreadPool/MPMCQueue.h:536-550 | publishing a new array keeps the invariant if and only if at most 31 arrays are closed by then; otherwise the stored state decodes to none |
| `DynamicQueue.SafeMeansLegal` | ThreadPool/MPMCQueue.h:333-345 | with safe arguments no step of any run is excluded by that bound |
| `DynamicRuns.UnsafeLosesState` | ThreadPool/MPMCQueue.h:264-303 | with arguments that are not safe some run, expanding only when the tests of blockingWrite ask for it, comes to store a state that decodes to no closed array |
| `DynamicRuns.SafeForAllRunsIff` | ThreadPool/MPMCQueue.h:514-556 | in all runs every step keeps to 31 closed arrays if and only if the capacity is at most the first capacity times the multiplier to the 31st |
| `DynamicRuns.DoublingFromOneLosesState` | ThreadPool/MPMCQueue.h:536-550 | such a run for the arguments 0x80000001, 1 and 2 |
| `DynamicQueue.MaxClosed` | ThreadPool/MPMCQueue.h:333-345 | the loop computes the number of expansions possible from the first capacity |
| `DynamicQueue.ExpansionCounted` | ThreadPool/MPMCQueue.h:514-556 | each expansion strictly grows the capacity within the maximum and uses up exactly one of those |
| `DynamicQueue.FindClosed` | ThreadPool/MPMCQueue.h:578-601 | the loop finds the most recent closed array whose offset is not above the ticket, or none if there is none |
| `DynamicQueue.SearchFindsEpoch` | ThreadPool/MPMCQueue.h:578-601 | for a lagging ticket the search finds exactly the array that serves it |
| `DynamicQueue.ResolveIsEpochOf` | ThreadPool/MPMCQueue.h:559-601 | a validated read section, however old, resolves to array, offset, capacity and stride of the ticket |
| `DynamicQueue.StepInv` | ThreadPool/MPMCQueue.h:514-601 | every load, store and exchange of readers, writers and the expanding thread keeps the invariant |
| `DynamicQueue.SettledForever` | ThreadPool/MPMCQueue.h:514-556 | once a ticket is resolved no later expansion gives it to another array, since each new offset exceeds every ticket issued or peeked before |
| `DynamicOffsets.NewArrayServes` | ThreadPool/MPMCQueue.h:521-530 | every new array starts one above the larger of the two counters as read with the seqlock held: it serves all tickets above both at the second load and none that was handed out before the first |
| `DynamicQueue.ResolutionsAgree` | ThreadPool/MPMCQueue.h:264-319 | any two operations at any two instants that resolve the same ticket get the same array, slot and turn |
| `DynamicQueue.RunRefinesFifo` | ThreadPool/MPMCQueue.h:264-319 | with expansions in flight the queue is still one plain FIFO queue |
| `DynamicQueue.ClosedArraysIncrease` | ThreadPool/MPMCQueue.h:514-556 | closed offsets and capacities strictly increase and closed_ lists all arrays but the current, within the bound of initQueue |
| `DynamicQueue.AssertsHold` | ThreadPool/MPMCQueue.h:514-601 | the asserts of tryExpand and maybeUpdateFromClosed hold in every run and closed_ is never indexed past its bound |
| `DynamicQueue.SameCapacityMeansCurrent` | ThreadPool/MPMCQueue.h:390-425 | cap == curCap exactly when the ticket belongs to the array whose section was read |
| `DynamicTickets.ReadyHeld` | ThreadPool/MPMCQueue.h:347-388 | a slot found ready for a resolved ticket stays ready, over expansions and all other operations, until that ticket's operation enters it |
| `DynamicTickets.ReadyTicketNeverBlocks` | ThreadPool/MPMCQueue.h:347-388 | so an operation of the dynamic queue with a ticket found ready can always take its next step until done |
| `DynamicTickets.RunHoldersApart` | ThreadPool/MPMCQueue.h:264-319 | in every run no two threads hold the same ticket of the same side |
| `DynamicTickets.UnchangedIsObtained` | ThreadPool/MPMCQueue.h:362-370 | a peeked ticket that is still the next one is obtained, with its value, and no slot changes |
| `DynamicTickets.UnchangedFalseIsRight` | ThreadPool/MPMCQueue.h:369-385 | after a failed test, an unchanged ticket counter means the next ticket's slot was not ready at the test |
| `DynamicTickets.FalsePopMayBeWrong` | ThreadPool/MPMCQueue.h:427-453 | a run in which the dynamic tryObtainReadyPopTicket returns false although the next ticket's slot was ready at every instant of the call |
| `PriorityQueue.HigherPriorityFirst` | ThreadPool/executors/task_queue/PriorityLifoSemMPMCQueue.h:64-69 | a higher priority is never scanned later, the extreme priorities reach the end queues, and MID and HI share a queue exactly for at most two priorities |
| `PriorityQueue.QueuesInSteps` | ThreadPool/executors/task_queue/PriorityLifoSemMPMCQueue.h:64-69 | the default priority goes to the middle queue, and one priority more is one queue more until the end queue is reached |
| `PriorityQueue.ProbeInv` | ThreadPool/executors/task_queue/PriorityLifoSemMPMCQueue.h:105-112 | one probe of the non-atomic scan keeps the wakeup bound for every prefix of the queues |
| `PriorityQueue.PostInv` | ThreadPool/executors/task_queue/PriorityLifoSemMPMCQueue.h:64-81 | a post becomes semaphore value or a woken taker with its whole scan ahead, keeping every prefix bound |
| `PriorityQueue.UnclaimedAlwaysCovered` | ThreadPool/executors/task_queue/PriorityLifoSemMPMCQueue.h:64-112 | for every k, unclaimed items in the k highest queues never exceed value + adders not yet posted + woken takers not yet past queue k |
| `PriorityQueue.SleepersMeanEmpty` | ThreadPool/executors/task_queue/LifoSemMPMCQueue.h:25-65 | no lost wakeup: a sleeping taker with no add in flight and no woken taker scanning means every queue is empty |
| `PriorityQueue.EveryItemCounted` | ThreadPool/executors/task_queue/PriorityLifoSemMPMCQueue.h:64-112 | in every run each queue has got one item per add into it and given one per successful take from it, and every post is on the semaphore or was given to one taker |
| `PriorityQueue.LastSleeperIsWoken` | ThreadPool/executors/task_queue/PriorityLifoSemMPMCQueue.h:83-91 | the taker that went to sleep last is woken first, and the others keep their order |
| `PriorityQueue.PriorityLifoSemMPMCQueue.AddWithPriority` | ThreadPool/executors/task_queue/PriorityLifoSemMPMCQueue.h:64-81 | one item enters the queue of its priority, which is not full in throwing mode, no other queue changes, and one post follows; or that queue was full and nothing changes |
| `PriorityQueue.PriorityLifoSemMPMCQueue.NonBlockingTake` | ThreadPool/executors/task_queue/PriorityLifoSemMPMCQueue.h:105-112 | true: exactly one item is claimed, from one queue that was not empty, and each queue of higher priority was found empty before at its own instant; false: all were, in order, and nothing is claimed |
| `Baton.RunInv` | ThreadPool/synchronization/Baton.h:110-178 | the relation of cell, poster, waiter and pending wakes holds in every run, over resets |
| `Baton.AssertsHold` | ThreadPool/synchronization/Baton.h:314-419 | no assert of post, try_wait, tryWaitSlow or reset can fail |
| `Baton.ReturnMeansPosted` | ThreadPool/synchronization/Baton.h:195-229 | an untimed wait returns only after the delivery was stored; a timed one that returns true likewise |
| `Baton.SleeperWillBeWoken` | ThreadPool/synchronization/Baton.h:314-419 | a sleeping waiter means WAITING, or LATE_DELIVERY with the wake still to come |
| `Baton.SharedBaton.Post` | ThreadPool/synchronization/Baton.h:140-178 | under any interference post returns with the delivery stored, or after the waiter gave up; a sleeper has a wake coming; its three asserts hold |
| `Baton.SharedBaton.Wait` | ThreadPool/synchronization/Baton.h:195-209 | true implies a delivery; false is returned only with a deadline and if at some instant of the call nothing was delivered; a delivery before the call means true; a call that does not return sleeps with no delivery or with a wake to come |
| `Baton.SharedBaton.Block` | ThreadPool/synchronization/Baton.h:380-417 | the same for the loop around the futex, spurious wakes included |
| `KeepAlive.WordRoundTrip` | ThreadPool/Executor.h:31-45 | pointer and flags share a word without loss, both ways |
| `KeepAlive.AsBoolIffPointer` | ThreadPool/Executor.h:191-198 | a token tests true exactly when it has an executor, except for flagged nulls |
| `KeepAlive.EmptyAliasTestsTrue` | ThreadPool/Executor.h:215-215 | the alias of an empty token is such a flagged null |
| `KeepAlive.AliasHoldsNothing` | ThreadPool/Executor.h:215-215 | an alias has its token's executor, holds no count, and its reset releases nothing |
| `KeepAlive.ResetInv` | ThreadPool/Executor.h:177-184 | reset releases at most one count, only for a counted token, and never the owner's |
| `KeepAlive.NewTokenCounts` | ThreadPool/Executor.h:120-121 | a copy of a token, an acquisition and a successful weak lock raise the count by exactly one and make a counted token of the executor |
| `KeepAlive.NoTokenFromNone` | ThreadPool/Executor.h:268-281 | a copy of an empty token, or a weak lock that saw 0, is empty and changes nothing else |
| `KeepAlive.MoveAssignHandsOver` | ThreadPool/Executor.h:150-154 | move assignment hands the token over and releases what the target held; to itself it releases it |
| `KeepAlive.HolderKeepsExecutor` | ThreadPool/DefaultKeepAliveExecutor.h:54-66 | over runs, as long as a counted token is not reset, destroyed, moved from or assigned to, it stays and joinKeepAlive does not return |
| `KeepAlive.StepInv` | ThreadPool/Executor.h:116-186 | every copy, move, assignment, alias, reset, lock and owner step keeps count and baton in agreement |
| `KeepAlive.CountIsExact` | ThreadPool/DefaultKeepAliveExecutor.h:166-182 | the count equals the live counted tokens, and the baton is posted once per lifetime, when the count reaches 0 |
| `KeepAlive.JoinedMeansNoToken` | ThreadPool/DefaultKeepAliveExecutor.h:54-66 | when joinKeepAlive has returned no counted token exists and the exchange finds 0 |
| `KeepAlive.JoinedStaysEmpty` | ThreadPool/DefaultKeepAliveExecutor.h:142-156 | until the owner resets it, nobody's step makes a token and every weak lock is empty |
| `KeepAlive.ChecksHold` | ThreadPool/DefaultKeepAliveExecutor.h:68-77 | the checks of release and of the baton's operations hold whenever they are made |
| `KeepAlive.ControlBlock.Lock` | ThreadPool/DefaultKeepAliveExecutor.h:142-156 | a token is given only at an instant with nonzero count; an empty result means the count was 0 at some instant of the call |
| `Pool.ThreadPoolExecutor.constructor` | ThreadPool/executors/CPUThreadPoolExecutor.cpp:66-83 | a first resize from the given minimum; a minimum of 0 becomes 1 only after it, so no thread is started for it |
| `Pool.ThreadPoolExecutor.SetNumThreads` | ThreadPool/executors/ThreadPoolExecutor.cpp:172-235 | the locked section resizes to the new maximum, lowers the minimum to it, and either owes one join and one poison per excess thread or starts the missing threads |
| `Pool.ResizeServesPending` | ThreadPool/executors/ThreadPoolExecutor.cpp:172-235 | pending tasks get a thread each up to the maximum, observers get all threads, and otherwise there are no more than were active or the minimum asks for; exactly the excess is asked to stop |
| `Pool.ThreadPoolExecutor.BeginShutdown` | ThreadPool/executors/ThreadPoolExecutor.cpp:293-350 | the locked section of stop and join: all threads to be stopped and poisoned, all pending joins taken over |
| `Pool.ThreadPoolExecutor.TryTimeoutThread` | ThreadPool/executors/ThreadPoolExecutor.cpp:520-556 | succeeds exactly above the minimum with no pending task, never takes the active count below the minimum, and otherwise leaves everything as it was |
| `Pool.ThreadPoolExecutor.TryDecrToStop` | ThreadPool/executors/CPUThreadPoolExecutor.cpp:288-300 | succeeds exactly when threads are to be stopped and counts one off |
| `Pool.ThreadPoolExecutor.StopIfDue` | ThreadPool/executors/CPUThreadPoolExecutor.cpp:303-391 | exactly when a worker stops after a timed-out take or a poison task, and that it then moves from the list to the stopped queue |
| `Pool.ThreadPoolExecutor.StopThreads` | ThreadPool/executors/CPUThreadPoolExecutor.cpp:394-406 | one poison task behind all queued tasks per thread to be stopped |
| `Pool.ThreadPoolExecutor.EnsureActiveThreadsLocked` | ThreadPool/executors/ThreadPoolExecutor.cpp:562-586 | one new thread exactly when fewer than the maximum are active |
| `Pool.ThreadPoolExecutor.JoinStoppedThreads` | ThreadPool/executors/ThreadPoolExecutor.cpp:285-290 | joins threads in the order they stop, those stopped or timed out meanwhile included, each counted where it belongs; with fewer than n joined it is still waiting and nothing is left to join |
| `PoolRuns.StepKeeps` | ThreadPool/executors/CPUThreadPoolExecutor.cpp:223-406 | every step of workers, adders and resizers keeps conservation of threads, joins, tokens and poison, also after a shutdown that came too early |
| `PoolRuns.StepInv` | ThreadPool/executors/ThreadPoolExecutor.cpp:293-350 | and so does a shutdown started with no thread still to stop |
| `PoolRuns.ConstructedInv` | ThreadPool/executors/CPUThreadPoolExecutor.cpp:66-83 | every constructor establishes it, the default one without threads included |
| `PoolRuns.RunInv` | ThreadPool/executors/ThreadPoolExecutor.cpp:172-586 | so these hold in every state of every run from any constructor |
| `PoolRuns.RunJobsApart` | ThreadPool/executors/CPUThreadPoolExecutor.cpp:223-270 | in every run each submitted task is in one place: with its adder, queued once, run by one worker, or finished |
| `TaskOrder.TasksTakenInOrder` | ThreadPool/executors/CPUThreadPoolExecutor.cpp:320-391 | in every run, of two queued tasks the one behind is taken only after the one ahead |
| `TaskOrder.NewTaskIsLast` | ThreadPool/executors/CPUThreadPoolExecutor.cpp:253-263 | add() queues its task behind all those already there |
| `FastPaths.WorkersGoOnUnlocked` | ThreadPool/executors/CPUThreadPoolExecutor.cpp:382-389 | in every run, as long as no thread has been asked to stop, no worker asks for the lock between tasks |
| `FastPaths.FullPoolAddsUnlocked` | ThreadPool/executors/CPUThreadPoolExecutor.cpp:245-269 | as long as all threads allowed are active, no call of add() enters ensureActiveThreads |
| `FastPaths.EnsureLeavesUnlocked` | ThreadPool/executors/ThreadPoolExecutor.cpp:562-575 | and one that has entered it leaves without the lock |
| `PoolShutdown.ThreadsConserved` | ThreadPool/executors/ThreadPoolExecutor.cpp:172-350 | at each release of the lock: list = active + to stop, stopped + to stop = to join + joins owed, active at most the maximum |
| `PoolShutdown.PoisonForEveryStop` | ThreadPool/executors/CPUThreadPoolExecutor.cpp:349-406 | with the lock free, threads to stop never outnumber poison tasks queued or held |
| `PoisonCounts.PoisonPerStop` | ThreadPool/executors/CPUThreadPoolExecutor.cpp:394-406 | in every run poison queued, held, to be queued and used equals threads to stop and stopped: one poison task for each thread asked to stop |
| `PoolShutdown.MinimumKept` | ThreadPool/executors/ThreadPoolExecutor.cpp:520-556 | once the active count has reached the minimum, idle timeouts never take it below, not even in between, over all resizes until a shutdown |
| `PoolShutdown.JoinsStayOwed` | ThreadPool/executors/ThreadPoolExecutor.cpp:293-350 | in every continuation of a shutdown, joins owed = threads live + threads stopped + threads that were still to stop when it began |
| `PoolShutdown.ShutdownNeverReturns` | ThreadPool/executors/ThreadPoolExecutor.cpp:285-290 | a shutdown with threads still to stop and nobody else joining never returns, in any continuation |
| `PoolShutdown.ShutdownReturnsIff` | ThreadPool/executors/ThreadPoolExecutor.cpp:293-350 | a shutdown nobody else's join mixes with can return if and only if no thread was still to stop |
| `PoolShutdown.ShutdownLeavesNothing` | ThreadPool/executors/CPUThreadPoolExecutor.cpp:143-146 | if stop or join returns then nothing was left to stop at its start, and now no thread is live, none stopped unjoined, none to stop, none active |
| `PoolShutdown.OwedMeansWork` | ThreadPool/executors/ThreadPoolExecutor.cpp:280-290 | while joins are owed, a stopped thread waits or a worker and a poison task remain |
| `PoolShutdown.ShutdownMeasureFalls` | ThreadPool/executors/CPUThreadPoolExecutor.cpp:320-391 | with no new tasks no step raises the measure; each take, finished task, stop, discarded poison and join lowers it |
| `PoolShutdown.ShutdownCanProgress` | ThreadPool/executors/ThreadPoolExecutor.cpp:285-290 | while joins are owed and no add is in flight, a step that lowers the measure is enabled |
| `PoolShutdown.RunToReturn` | ThreadPool/executors/ThreadPoolExecutor.cpp:280-350 | from every state of a shutdown that has the lock or finds it free there is a run to its return, pending adds and the poisoning included |
| `StopDiscards.StopFinishesOneEach` | ThreadPool/executors/ThreadPoolExecutor.cpp:293-329 | after stop() each worker finishes at most one more task, in every run and however many are queued |
| `StopDiscards.FlagOffUntilJoin` | ThreadPool/executors/CPUThreadPoolExecutor.cpp:382-389 | as long as nobody calls join(), shrinks and stop() leave isJoin_ off |
| `StopDiscards.ShrinkClearsFlag` | ThreadPool/executors/ThreadPoolExecutor.cpp:280-283 | a shrink switches it off also after a join() |
| `UnfinishedShrink.StopMayHang` | ThreadPool/executors/ThreadPoolExecutor.cpp:172-235 | a reachable state with every call returned from which every stop and join stays in its joins forever |
| `JoinDrain.JoinFinishesTasks` | ThreadPool/executors/ThreadPoolExecutor.cpp:335-350 | a task running, or queued with fewer unposted adds than tasks from it on and one worker not on its way to stopping, has finished when join returns, also if takes time out meanwhile |
| `JoinDrain.JoinLeftoverPoison` | ThreadPool/executors/ThreadPoolExecutor.cpp:335-350 | poison left in the queue when join returns = workers on their way to stopping at its start + takes timed out since |
| `JoinDrain.JoinLeavesNoPoisonIff` | ThreadPool/executors/ThreadPoolExecutor.cpp:280-290 | no poison is left over if and only if no worker was on its way to stopping and no take timed out |
| `JoinDrain.JoinLeavesOnlyPoison` | ThreadPool/executors/CPUThreadPoolExecutor.cpp:349-406 | with every add posted and one such worker, nothing but that poison is in the queue at the return |
| `JoinDrain.JoinFinishesTaskIff` | ThreadPool/executors/CPUThreadPoolExecutor.cpp:303-391 | a queued task is certain to have run at the return if and only if fewer adds have still to post than tasks are queued from it on and some worker is not already on its way to stopping |
| `JoinDrain.PostedIsFunded` | ThreadPool/executors/CPUThreadPoolExecutor.cpp:253-269 | the first condition holds of every queued task once all adds have posted |
| `JoinDrain.JoinMayAbandonTask` | ThreadPool/executors/CPUThreadPoolExecutor.cpp:349-391 | a reachable state and a run of join that returns with the task still queued |
| `JoinDrain.JoinMayAbandonPostedTask` | ThreadPool/executors/CPUThreadPoolExecutor.cpp:253-269 | a reachable state with a worker ready and the task's own add returned, and a run of join that returns with the task still queued |
| `NoStrandedTask.OpenRunInv` | ThreadPool/executors/ThreadPoolExecutor.cpp:562-586 | in every run from a state at rest that keeps at least one thread allowed, a queued task has an active worker, a worker deciding on its timeout, or an adder bound to start one |
| `NoStrandedTask.ConstructedAtRest` | ThreadPool/executors/CPUThreadPoolExecutor.cpp:66-83 | every constructor that allows a thread leaves such a state |
| `NoStrandedTask.DefaultPoolIsEmpty` | ThreadPool/executors/CPUThreadPoolExecutor.cpp:54-63 | the default one with minimum 1 and no thread at all |
| `NoStrandedTask.MinimumMayBeZero` | ThreadPool/executors/ThreadPoolExecutor.cpp:172-235 | so does resizing to 0 and back, with minimum 0 |
| `NoStrandedTask.QueuedTaskHasWorker` | ThreadPool/executors/CPUThreadPoolExecutor.cpp:253-269 | no stranded task: once no adder is before the end of ensureActiveThreads and no worker in tryTimeoutThread, a queued task has an active worker |
| `NoStrandedTask.QueuedTaskIsServed` | ThreadPool/executors/ThreadPoolExecutor.cpp:520-586 | and its wakeup is not lost: some worker is awake and can step |
| `NoStrandedTask.QueuedTasksFinish` | ThreadPool/executors/CPUThreadPoolExecutor.cpp:320-391 | and from there the workers, with no take timing out and nobody's help, have a run that finishes every queued task |

## Left out

- Weak memory orders, fences, padding, adaptive spinning, `MemoryIdler` and the futex itself: memory is sequentially consistent, spinning is waiting, and the futex sleeps iff the value is the expected one, with spurious wakes.
- Counter wrap-around: tickets, turns and counts are unbounded; `Stride.MachineArithmeticExact` gives the bounds under which index and turn are exact, and `DynamicQueue` assumes offsets below 2^58 and that the product in `initQueue` does not wrap.
- `TurnSequencer`, `LifoSem`, `SharedMutex` and the unbounded queues are not part of the source: a turn counter per slot, a value with a waiter list, a lock, and a FIFO with a semaphore stand for them.
- DynamicQueue.StepInv: the steps are more permissive than the code in two places, so its results cover more interleavings: a thread may start its read section again, or take the ticket it has peeked, without the readiness test of the particular function, and a writer may try to expand whenever it holds the current array. The four stores to a closed_ entry are one step, since no operation reads an entry before the seqlock is released. That promised tickets drain is proved for the static queue only.
- TicketFunctions.MpmcQueue.TryObtainReadyPushTicket: takes a bound on the tickets handed out while it runs, for termination; so do the other ticket functions and `Size`. Baton.SharedBaton and KeepAlive.ControlBlock bound the number of interfering steps the same way.
- `tryWriteUntil`/`tryReadUntil`, `MPMCPipeline`, move construction and destruction of queues, exceptions and relocation in `SingleElementQueue`: easy variants of what is modelled; a slot holds an optional value.
- Slots.AdvanceSlotInv: a pop takes the element out and destroys it in one step.
- PriorityQueue.UnclaimedAlwaysCovered: each queue is its two ticket counters; that promised tickets carry their elements through is the static queue's result. The constructor's `int8_t` loop, which cannot count beyond 127, is not modelled.
- PoolRuns.StepKeeps: what a thread does under `threadListLock_` is one step, except that `tryTimeoutThread` is split where lock-free readers can see it and poison tasks are added one by one. Which sleeper a post wakes is left open, which covers the LIFO choice. The pool's task queue is one FIFO. The KeepAlive an adder holds is not part of the pool's state.
- PoolRuns.RunInv: covers shutdowns that start with no thread still to stop; the others are the subject of `PoolShutdown.JoinsStayOwed`. The number of observers is fixed over a run.
- JoinDrain.JoinFinishesTaskIff: assumes that from the start of `join()` on no task is added and nobody resizes, and that no poison task is about at its start.
- Baton.AssertsHold: that a futex without a deadline reports no timeout is an assumption about the futex.
- Baton, KeepAlive and the worker loop of the pool are step systems on values besides the classes named above; `tryExpand`, `threadRun` and the loops of `take` and `try_take_for` around the scan appear only as steps.
- Task expiration, statistics, observers' callbacks, thread factories and names, logging, `ExecutorBlockingGuard`, `QueueObserver`: no deep property.
