# FreeRTOS kernel, timers, event groups and TetriSaraj: a verified model

The repository runs the FreeRTOS V10.5.1 kernel on a small RISC-V core, with a falling-block game and a
schedulability calculator on top.  This project models that code in Dafny and proves what it is for: that no task
is lost or woken at the wrong time, that no wake-up on a queue is lost, that priorities are lent and given back,
that timers and delays are exact although every clock is a 32-bit count that wraps, and that the game keeps its
pieces and its field in order.

`dafny verify dfyconfig.toml` checks all of it.

## How it is built

Each part that the C or Python code updates in place is a class or a method with loops, in the code's branches and
order; each is proved equal to a function or to a step of a reference model, and the main results are lemmas about
those, over every input, every run or every interleaving.  `Identifiers` and `Options` are the few names all share.

- `Ticks`: the 32-bit tick count against an unbounded clock.  All timing results are stated on that clock.
- `CursorLists`, `PointerRings`, `RoundRobin`: list.c.  A list is a sequence of items with a cursor; the ring of
  pointers is proved to implement it; and the sharing of the processor among equal priorities follows from it.
- `Kernels`, `KernelInvariants`, `KernelRuns`: a reference scheduler.  One list of blocked tasks ordered by the moment
  each is due, an unbounded clock, no caches.  Its steps are the critical sections of tasks.c; tasks and interrupts may
  take them in any order the code's own conditions allow.  `KernelFairness`, `EventOrder`, `Suspensions`: who runs, who
  is woken, and what stays suspended, over runs of it.
- `Schedulers`: tasks.c as it is, with wrapped ticks, two delayed lists that change places, the cached unblock time and
  the cached ready priority.  Every method is proved to be the reference step of the same name.
- `TimeOuts`: the time-out state of blocking calls, and periodic delays.
- `Mutexes`: priority inheritance.  The waiting tasks that have blocked on a mutex since its present holder took it
  are recorded beside the waiting list as `covered`; the code has no such field, and nothing but the results reads it.
- `QueueBuffers`: the byte ring of a queue; `QueueOrder`: in which order it hands out items.  `QueueSides`,
  `QueueProtocol`, `Queues`: the waiting lists and lock counts, the protocol of tasks and interrupts on them, and the
  critical sections in place.
- `Timers`: the timer daemon.  `EventGroups`: event groups.
- `Tetrominoes`, `ColumnClearing`, `Fields`, `Games`: the game.
- `ResponseTimes`: the schedulability calculator.

## Where the code does not do what one would expect

Each of these is proved, by a run or an input that shows it, next to the exact condition under which it does.

- Round robin is not always fair: a task on which the walking pointer falls back, because the tasks after it have
  left, is overtaken by every arrival from then on.  That can happen to exactly those tasks that are not behind the
  pointer, and then without bound (`RoundRobin.BoundedWaitingExactly`; a small run is `RoundRobin.OvertakingExample`).
- A time-out check sees only whether the count has wrapped and what it shows: it misses a time-out exactly when the
  count has wrapped twice or more and shows little (`TimeOuts.CheckIsRightUnless`).
- A holder's priority can be below that of a task waiting for it (`Mutexes.PrioritySetBreaks`).  `Mutexes.BoundExactly`
  says by which steps that comes about, and that by no others.
- The assertion in vTaskPriorityDisinheritAfterTimeout that a task that times out is not the holder can fail when a
  task blocks on a mutex of which it is the holder, and of no other (`Mutexes.CallTripsExactly`,
  `Mutexes.WaitTripsExactly`; a run from the start is `Mutexes.SelfWaitAsserts`).  It never does otherwise
  (`Mutexes.NeverAsserts`).
- The assertion on a queue's lock counts can fail from 128 tasks on (`QueueProtocol.LockCountMayOverflow`), and with
  fewer it cannot (`QueueProtocol.LockCountFits`).
- Resetting a queue wakes one sender although it frees every place (`QueueProtocol.ResetLosesWakeUp`,
  `QueueProtocol.ResetExactly`).
- Overwriting a full queue that holds no data, a semaphore of length one, counts past the length; nothing else does
  (`QueueBuffers.QueueBuffer.CopyDataToQueue`).
- Clearing columns in the game leaves copies of the outermost column behind, unless it is empty or goes itself
  (`ColumnClearing.ClearedIsRemoval`, `Games.LockingIsRemoval`; a field is `Games.LockingCopies`).
- The calculator stops after 100 rounds, and can then call an overloaded set schedulable
  (`ResponseTimes.BudgetIsTooSmall`); its verdict for every set is `ResponseTimes.SchedulableIsExact`, and when the
  rounds run out is `ResponseTimes.RunsOutExactly`.

## Model

| member | source | states |
|---|---|---|
| CursorLists.InsertKeepsSorted | FreeRTOS-TetriSaraj/2.sw/freertos/list.c:128-196 | on a sorted list the search position keeps it sorted, and is behind every equal value: everything after it is greater |
| CursorLists.InsertPosUnique | FreeRTOS-TetriSaraj/2.sw/freertos/list.c:128-196 | that position is the only one with no greater value before it and a greater value at it |
| PointerRings.List.constructor | FreeRTOS-TetriSaraj/2.sw/freertos/list.c:50-83 | a new list is the ring of its end marker alone, denoting the empty list |
| PointerRings.List.InsertEnd | FreeRTOS-TetriSaraj/2.sw/freertos/list.c:98-125 | linking in front of the walking pointer keeps the ring consistent and is insertion at the cursor, which comes to the item last |
| PointerRings.List.Insert | FreeRTOS-TetriSaraj/2.sw/freertos/list.c:128-196 | the search terminates, also for the largest tick, and the ring then denotes the stable insertion by value |
| PointerRings.List.Remove | FreeRTOS-TetriSaraj/2.sw/freertos/list.c:199-225 | unlinking keeps next and previous inverse and the count exact, moves the walking pointer back only if it stood on the item, and returns what remains |
| PointerRings.List.NextEntry | FreeRTOS-TetriSaraj/2.sw/freertos/include/list.h:285-295 | advancing skips the end marker and hands out the item after the cursor |
| PointerRings.List.ItemsAreDistinct | FreeRTOS-TetriSaraj/2.sw/freertos/list.c:98-225 | no item is on a list twice |
| RoundRobin.SelectStep | FreeRTOS-TetriSaraj/2.sw/freertos/tasks.c:136-151 | a selection chooses an item whose wait is one, and brings every other one selection nearer |
| RoundRobin.JoinStep | FreeRTOS-TetriSaraj/2.sw/freertos/list.c:98-125 | an arrival at the end delays nobody, except an item the walking pointer stands on |
| RoundRobin.LeaveStep | FreeRTOS-TetriSaraj/2.sw/freertos/list.c:199-225 | a departure delays nobody, and brings nearer exactly those that had to wait for the one that left |
| RoundRobin.NewcomerWait | FreeRTOS-TetriSaraj/2.sw/freertos/list.c:98-125 | a newcomer is chosen after every other item but the one under the walking pointer, which has had its turn; with the pointer on the end marker, after every item |
| RoundRobin.WaitingAccounted | FreeRTOS-TetriSaraj/2.sw/freertos/tasks.c:136-151 | over any run that passes an item over, the selections made, the departures that brought it nearer and the wait that remains add up to its initial wait and the arrivals that overtook it |
| RoundRobin.ServedWithinLength | FreeRTOS-TetriSaraj/2.sw/freertos/tasks.c:136-151 | an item behind the walking pointer is passed over fewer times than its wait, which is at most the number of items when it starts to wait |
| RoundRobin.OvertakenWithoutBound | FreeRTOS-TetriSaraj/2.sw/freertos/tasks.c:136-151 | any other item is passed over as often as one likes in some run: the items the pointer stands on leave until it has fallen back on that one, and each arrival is then selected first |
| RoundRobin.BoundedWaitingExactly | FreeRTOS-TetriSaraj/2.sw/freertos/tasks.c:136-151 | no run passes a task over as often as there are tasks on the list, or any larger number of times, if and only if it is behind the walking pointer at the start |
| RoundRobin.OvertakingExample | FreeRTOS-TetriSaraj/2.sw/freertos/tasks.c:136-151 | a small run of that kind: the walking pointer falls back on an item that has not run, two tasks arrive, and it is passed over by three selections with three items ready |
| Ticks.AddFollowsClock | FreeRTOS-TetriSaraj/2.sw/freertos/tasks.c:5297-5407 | the wrapped sum shows the moment that many ticks on, and is below the start exactly when the count wraps in between |
| Ticks.SubMeasures | FreeRTOS-TetriSaraj/2.sw/freertos/tasks.c:3306-3368 | the wrapped difference is the time that has passed, for less than one wrap |
| KernelInvariants.StepKeepsInv | FreeRTOS-TetriSaraj/2.sw/freertos/tasks.c:1026-3714 | every critical section of the scheduler keeps the whole invariant: list partition, priorities, order of the delayed list, tick accounting, the two counters of tasks, the idle task ready |
| KernelInvariants.ReadyAllKeeps | FreeRTOS-TetriSaraj/2.sw/freertos/tasks.c:2757-2834 | waking a sequence of tasks makes exactly those ready, each at its priority, and waiting for nothing |
| KernelInvariants.ExpiredExactly | FreeRTOS-TetriSaraj/2.sw/freertos/tasks.c:2757-2834 | the leading part of the delayed list that the tick takes is exactly the set of tasks that are due |
| KernelInvariants.OneTickExact | FreeRTOS-TetriSaraj/2.sw/freertos/tasks.c:2720-2834 | a tick makes ready exactly the tasks due at the new moment and moves nothing else |
| KernelInvariants.TickTimesExact | FreeRTOS-TetriSaraj/2.sw/freertos/tasks.c:2229-2259 | n pended ticks make ready exactly the tasks due within them |
| KernelInvariants.ResumeAllExact | FreeRTOS-TetriSaraj/2.sw/freertos/tasks.c:2174-2283 | ending the last suspension readies exactly the pending tasks and those the pended ticks made due, and leaves nothing pending |
| KernelInvariants.DelayKeeps | FreeRTOS-TetriSaraj/2.sw/freertos/tasks.c:5297-5407 | blocking a task keeps the lists partitioned and the delayed list in order, for a timed wait and for an indefinite one |
| KernelRuns.PartitionOverRuns | FreeRTOS-TetriSaraj/2.sw/freertos/tasks.c:1026-3714 | over every run: each task is on the one list its container names, once, a ready one at its current priority; uxCurrentNumberOfTasks is the sum of the lengths and positive; uxDeletedTasksWaitingCleanUp is the length of the termination list, so that the clean-up loop finds a head; nothing is pending unless the scheduler is suspended |
| KernelRuns.LengthsSumToTasks | FreeRTOS-TetriSaraj/2.sw/freertos/tasks.c:1026-1207 | uxCurrentNumberOfTasks is the sum of the lengths of the ready, delayed, suspended and termination lists, and uxDeletedTasksWaitingCleanUp the length of the last |
| KernelRuns.DelayIsExact | FreeRTOS-TetriSaraj/2.sw/freertos/tasks.c:2720-2834 | a task delayed by d at moment T, over any run that does not wake, suspend or delete it, is blocked as long as the clock is before T + d, and ready from the step that reaches it; unless that step ends a suspension the clock is then exactly T + d |
| KernelRuns.NoTickLost | FreeRTOS-TetriSaraj/2.sw/freertos/tasks.c:2720-2894 | tick count plus pended ticks is the number of tick interrupts modulo 2^32 under any nesting of suspensions, and no tick is pended while the scheduler runs |
| KernelRuns.AlwaysATask | FreeRTOS-TetriSaraj/2.sw/freertos/tasks.c:136-151 | whenever the scheduler is not suspended a context switch finds a task, and no ready task has a higher priority than the one it selects |
| KernelFairness.SwitchTakesTurns | FreeRTOS-TetriSaraj/2.sw/freertos/tasks.c:136-151 | a context switch chooses the task of its priority whose wait is one, brings every other one nearer, and changes no other list |
| KernelFairness.JoinsLast | FreeRTOS-TetriSaraj/2.sw/freertos/tasks.c:221-225 | a task that is created, or has its priority set while ready, goes to the list of that priority and is served after every other but the one under the walking pointer |
| KernelFairness.KernelWaitingAccounted | FreeRTOS-TetriSaraj/2.sw/freertos/tasks.c:136-151 | over any run of the scheduler's critical sections that passes a ready task over: the context switches of its priority, the departures that brought it nearer and the wait that remains add up to its initial wait and the arrivals that overtook it |
| KernelFairness.ServedInTheKernel | FreeRTOS-TetriSaraj/2.sw/freertos/tasks.c:136-151 | over any such run, a ready task behind the walking pointer is moved or chosen within as many context switches of its priority as there are tasks on its list |
| EventOrder.PlacedInOrder | FreeRTOS-TetriSaraj/2.sw/freertos/tasks.c:3083-3105 | a task joins an event list behind every waiter of its priority or a higher one, and ahead of every other |
| EventOrder.StepKeepsOrder | FreeRTOS-TetriSaraj/2.sw/freertos/tasks.c:3083-3234 | no critical section puts the waiters out of the order of their priorities, but those that rewrite a waiter's priority or value in place or place a task by another value |
| EventOrder.EventWakesHighest | FreeRTOS-TetriSaraj/2.sw/freertos/tasks.c:3169-3234 | over any run without those, an event takes one task off its list, of a priority that no waiter exceeds, and makes it ready, or holds it pending while the scheduler is suspended |
| Suspensions.SuspensionsNest | FreeRTOS-TetriSaraj/2.sw/freertos/tasks.c:2090-2283 | after any run the scheduler is suspended as many times as it has been suspended and not resumed |
| Suspensions.SchedulerStands | FreeRTOS-TetriSaraj/2.sw/freertos/tasks.c:2090-2283 | until the last suspension ends the clock stands, the same task runs, and the ticks are counted |
| Suspensions.SuspendedUntilResumed | FreeRTOS-TetriSaraj/2.sw/freertos/tasks.c:1673-1948 | a suspended task stays suspended, and waits for nothing, over any run in which nobody resumes or deletes it; the first that resumes it makes it ready at its priority, or holds it pending from an interrupt while the scheduler is suspended |
| Suspensions.EndlessWait | FreeRTOS-TetriSaraj/2.sw/freertos/tasks.c:5344-5400 | a task that waits for an event without time-out goes on waiting, whatever time passes and however often it is resumed, until it is woken, suspended or deleted |
| Suspensions.EndlessDelay | FreeRTOS-TetriSaraj/2.sw/freertos/tasks.c:5344-5400 | a task that delays itself without end is blocked until it is resumed or deleted |
| Suspensions.ValueHandedOver | FreeRTOS-TetriSaraj/2.sw/freertos/tasks.c:3237-3283 | the value that a task is given on leaving an unordered event list is the one it reads, over any run that does not rewrite it; and then its item codes its priority again |
| Schedulers.PlaceInDelayed | FreeRTOS-TetriSaraj/2.sw/freertos/tasks.c:5344-5362 | searching the current list by wrapped wake time finds the place the moment has in the order of all moments |
| Schedulers.PlaceInOverflow | FreeRTOS-TetriSaraj/2.sw/freertos/tasks.c:5344-5350 | searching the overflow list does so behind the whole current list |
| Schedulers.Scheduler.constructor | FreeRTOS-TetriSaraj/2.sw/freertos/tasks.c:1954-2045 | the scheduler starts with the idle task alone and a valid state |
| Schedulers.Scheduler.AddCurrentTaskToDelayedList | FreeRTOS-TetriSaraj/2.sw/freertos/tasks.c:5297-5407 | on wrapped ticks and two lists: the task is blocked until the moment now + ticks, or suspended for an indefinite wait, and the cached unblock time stays a lower bound |
| Schedulers.Scheduler.ResetNextTaskUnblockTime | FreeRTOS-TetriSaraj/2.sw/freertos/tasks.c:3999-4017 | the cached time is a lower bound on every wake time of the current list again |
| Schedulers.Scheduler.EmptyAtWrap | FreeRTOS-TetriSaraj/2.sw/freertos/tasks.c:201-213 | the current delayed list is empty whenever the tick count is about to become zero, so the assertion at the switch holds |
| Schedulers.Scheduler.SwitchDelayedLists | FreeRTOS-TetriSaraj/2.sw/freertos/tasks.c:201-213 | exchanging the lists as the count wraps changes nothing of what they denote |
| Schedulers.Scheduler.UnblockExpired | FreeRTOS-TetriSaraj/2.sw/freertos/tasks.c:2757-2834 | the loop over the head of the current list wakes exactly the tasks due by now, in order, and leaves the cached time a lower bound |
| Schedulers.Scheduler.NothingExpired | FreeRTOS-TetriSaraj/2.sw/freertos/tasks.c:2748-2758 | below the cached time no task is due, so not looking loses nothing |
| Schedulers.Scheduler.ProcessTick | FreeRTOS-TetriSaraj/2.sw/freertos/tasks.c:2720-2834 | the fast tick, with cache, wrap and list switch, is one tick of the naive scheduler on an unbounded clock |
| Schedulers.Scheduler.TickInterrupt | FreeRTOS-TetriSaraj/2.sw/freertos/tasks.c:2720-2894 | ... and while the scheduler is suspended the tick is only counted |
| Schedulers.Scheduler.SuspendAll | FreeRTOS-TetriSaraj/2.sw/freertos/tasks.c:2090-2107 | suspensions nest, and change nothing else |
| Schedulers.Scheduler.DrainPending | FreeRTOS-TetriSaraj/2.sw/freertos/tasks.c:2196-2227 | the first loop of resuming readies every pending task in order, and refreshes the cached time |
| Schedulers.Scheduler.ProcessPended | FreeRTOS-TetriSaraj/2.sw/freertos/tasks.c:2229-2259 | the second loop takes every pended tick |
| Schedulers.Scheduler.ResumeAll | FreeRTOS-TetriSaraj/2.sw/freertos/tasks.c:2174-2283 | resuming is the reference step, at any nesting |
| Schedulers.Scheduler.HighestReadyPriority | FreeRTOS-TetriSaraj/2.sw/freertos/tasks.c:126-151 | the search down from the cached priority stops at the highest non-empty ready list; the assertion in its loop always holds |
| Schedulers.Scheduler.SwitchContext | FreeRTOS-TetriSaraj/2.sw/freertos/tasks.c:3009-3080 | when not suspended, the context switch of the reference, which takes the tasks of the highest ready priority in turn (KernelFairness.SwitchTakesTurns); when suspended, nothing changes |
| Schedulers.Scheduler.DelayCurrent | FreeRTOS-TetriSaraj/2.sw/freertos/tasks.c:1301-1338 | delaying the running task is the reference step |
| Schedulers.Scheduler.PlaceOnEventList | FreeRTOS-TetriSaraj/2.sw/freertos/tasks.c:3083-3105 | blocking on an event list in priority order is the reference step |
| Schedulers.Scheduler.PlaceOnUnorderedEventList | FreeRTOS-TetriSaraj/2.sw/freertos/tasks.c:3108-3131 | blocking on an event group's list, with its coded wait, is the reference step |
| Schedulers.Scheduler.RemoveFromEventList | FreeRTOS-TetriSaraj/2.sw/freertos/tasks.c:3169-3234 | the head of an event list is made ready, or held pending while the scheduler is suspended |
| Schedulers.Scheduler.RemoveFromUnorderedEventList | FreeRTOS-TetriSaraj/2.sw/freertos/tasks.c:3237-3283 | a chosen task is taken off an event list, given its value and made ready although the scheduler is suspended |
| Schedulers.Scheduler.ResetEventItemValue | FreeRTOS-TetriSaraj/2.sw/freertos/tasks.c:4658-4669 | the running task's item value is handed out and put back to its priority's code |
| Schedulers.Scheduler.SuspendTask | FreeRTOS-TetriSaraj/2.sw/freertos/tasks.c:1673-1772 | a task is taken off its lists and suspended; the cached time is refreshed |
| Schedulers.Scheduler.ResumeTask | FreeRTOS-TetriSaraj/2.sw/freertos/tasks.c:1825-1871 | a task is made ready exactly if it is suspended, and not merely waiting without time-out |
| Schedulers.Scheduler.ResumeFromISR | FreeRTOS-TetriSaraj/2.sw/freertos/tasks.c:1879-1948 | likewise from an interrupt, or held pending while the scheduler is suspended |
| Schedulers.Scheduler.DeleteTask | FreeRTOS-TetriSaraj/2.sw/freertos/tasks.c:1112-1207 | a task that deletes itself goes to the termination list and is counted as waiting for clean-up, another is forgotten at once and no longer counted |
| Schedulers.Scheduler.ReapTerminated | FreeRTOS-TetriSaraj/2.sw/freertos/tasks.c:3689-3714 | while any task waits for clean-up, the idle task finds a head on the termination list, forgets it, and counts both counters down |
| Schedulers.Scheduler.CreateTask | FreeRTOS-TetriSaraj/2.sw/freertos/tasks.c:1026-1107 | a new task joins the ready list of its priority and is counted |
| Schedulers.Scheduler.ChangePriority | FreeRTOS-TetriSaraj/2.sw/freertos/tasks.c:1590-1655 | a change of priority moves a ready task to the list of its new priority and leaves any other where it is |
| TimeOuts.BlockingCall.CheckForTimeOut | FreeRTOS-TetriSaraj/2.sw/freertos/tasks.c:3306-3368 | the check in place on the caller's time-out state and remaining ticks |
| TimeOuts.CheckIsExact | FreeRTOS-TetriSaraj/2.sw/freertos/tasks.c:3306-3368 | a check at most one wrap after the state was taken times out exactly when the wait is over, and else leaves exactly what remains |
| TimeOuts.CheckIsRightUnless | FreeRTOS-TetriSaraj/2.sw/freertos/tasks.c:3306-3368 | for any gap: never early, and right if and only if not (wrapped twice or more, showing less than it showed, by more than the wait falls short of a wrap) |
| TimeOuts.CheckMissesTimeOut | FreeRTOS-TetriSaraj/2.sw/freertos/tasks.c:3306-3368 | a wait of 10 that has lasted a wrap and 6 ticks is taken to have lasted 6 |
| TimeOuts.WaitIsConserved | FreeRTOS-TetriSaraj/2.sw/freertos/queue.c:1403-1517 | through any number of spurious wake-ups, time waited plus ticks left is the wait asked for; so the call times out exactly when that has passed since entry |
| TimeOuts.ForeverNeverTimesOut | FreeRTOS-TetriSaraj/2.sw/freertos/tasks.c:3330-3339 | a wait of portMAX_DELAY never times out |
| TimeOuts.TaskDelayUntil | FreeRTOS-TetriSaraj/2.sw/freertos/tasks.c:1214-1293 | the branches on wrapped ticks compute the next wake time, whether to wait, and how long |
| TimeOuts.DelayUntilIsExact | FreeRTOS-TetriSaraj/2.sw/freertos/tasks.c:1214-1293 | called less than a wrap after the previous wake time, it waits exactly if the next one is still to come, and exactly until then |
| TimeOuts.PeriodDoesNotDrift | FreeRTOS-TetriSaraj/2.sw/freertos/tasks.c:1214-1293 | however late a periodic task's calls are, the one after k others waits exactly until start + (k + 1) periods, or not at all if that has passed |
| Mutexes.MutexUsers.PriorityInherit | FreeRTOS-TetriSaraj/2.sw/freertos/tasks.c:4067-4147 | the holder's priority is then at least that of the task that wants the mutex, and the result is true exactly if its priority or its base was below it |
| Mutexes.MutexUsers.PriorityDisinherit | FreeRTOS-TetriSaraj/2.sw/freertos/tasks.c:4157-4227 | giving counts down, and restores the base priority with the last mutex and only then |
| Mutexes.MutexUsers.PriorityDisinheritAfterTimeout | FreeRTOS-TetriSaraj/2.sw/freertos/tasks.c:4237-4334 | a holder of one mutex falls back to its base or the highest priority still waiting; a holder of more does not |
| Mutexes.MutexUsers.PrioritySet | FreeRTOS-TetriSaraj/2.sw/freertos/tasks.c:1594-1623 | the base priority is set, the priority only if it is not inherited, the item value unless it is borrowed |
| Mutexes.MutexUsers.Take | FreeRTOS-TetriSaraj/2.sw/freertos/queue.c:1555-1575 | taking a free mutex records the holder and counts it, exactly |
| Mutexes.MutexUsers.Block | FreeRTOS-TetriSaraj/2.sw/freertos/queue.c:1636-1660 | blocking joins the waiting list by value, and leaves the holder with at least the priority of the task that blocks |
| Mutexes.MutexUsers.Give | FreeRTOS-TetriSaraj/2.sw/freertos/queue.c:2186-2201 | giving disinherits, frees the mutex and wakes the head of its list; a task that then holds none has its base priority |
| Mutexes.MutexUsers.GiveUp | FreeRTOS-TetriSaraj/2.sw/freertos/queue.c:1676-1717 | a timed-out wait that has lent its priority leaves the holder, if it holds nothing else, at the greater of its base and the highest priority still waiting |
| Mutexes.MutexUsers.FindTaken | FreeRTOS-TetriSaraj/2.sw/freertos/queue.c:1676-1686 | a call that has timed out gives up only if it then finds the mutex taken |
| Mutexes.GiveWakesOne | FreeRTOS-TetriSaraj/2.sw/freertos/queue.c:934-938 | a give takes exactly one task off the waiting list, if any waits, and no other |
| Mutexes.GiveWakesHighest | FreeRTOS-TetriSaraj/2.sw/freertos/queue.c:934-938 | over careful runs that task's priority is at least that of every task left waiting |
| Mutexes.FreeMutexIsTaken | FreeRTOS-TetriSaraj/2.sw/freertos/queue.c:1533-1717 | over any run, whenever tasks wait for a free mutex, some task that has been taken off its list is still in its call and can take the mutex at once |
| Mutexes.GiveUpFallsBack | FreeRTOS-TetriSaraj/2.sw/freertos/tasks.c:4237-4334 | over careful runs, a holder of this mutex alone then has exactly the greatest of its base priority and those of the tasks still waiting |
| Mutexes.PrioritySetTakesEffect | FreeRTOS-TetriSaraj/2.sw/freertos/tasks.c:1594-1623 | a priority that is set is the base from then on, and the priority at once if none is inherited, and at the latest when the task holds no mutex, over any run that does not set it again |
| Mutexes.StepKeepsCount | FreeRTOS-TetriSaraj/2.sw/freertos/tasks.c:4157-4334 | every step keeps the count of held mutexes exact, and leaves no task without a mutex at an inherited priority |
| Mutexes.NoPriorityLeftBehind | FreeRTOS-TetriSaraj/2.sw/freertos/tasks.c:4067-4334 | over every run, with priorities set as well: the count is the number of mutexes whose holder the task is, and zero means the base priority |
| Mutexes.HeadIsHighest | FreeRTOS-TetriSaraj/2.sw/freertos/queue.c:2150-2170 | while waiters hold no mutex, the head of a waiting list has the highest priority on it |
| Mutexes.CarefulStepKeepsInv | FreeRTOS-TetriSaraj/2.sw/freertos/tasks.c:4067-4334 | while tasks block only without mutexes and no priority is set: waiting lists stay sorted and every holder stays at or above the tasks it covers |
| Mutexes.HolderInherits | FreeRTOS-TetriSaraj/2.sw/freertos/tasks.c:4067-4334 | over such runs, from when a task blocks until it leaves the list or the mutex is given, the holder's priority is at least its own, with several mutexes held and other waiters timing out |
| Mutexes.CoverageLasts | FreeRTOS-TetriSaraj/2.sw/freertos/queue.c:1636-1717 | no other step ends that protection |
| Mutexes.BoundExactly | FreeRTOS-TetriSaraj/2.sw/freertos/tasks.c:4067-4334 | with no restriction on the runs: a step leaves some holder below a task that has blocked since it took the mutex if and only if it is one of three, told by a look at the priorities before it: blocking on a holder that itself waits for a lower one, falling back below a task still waiting or above one waited for, and vTaskPrioritySet in either direction |
| Mutexes.PrioritySetBreaks | FreeRTOS-TetriSaraj/2.sw/freertos/tasks.c:1594-1604 | a run from the start after which vTaskPrioritySet, on a task that waits for a mutex, leaves the holder below it |
| Mutexes.InheritanceExactly | FreeRTOS-TetriSaraj/2.sw/freertos/tasks.c:4067-4334 | over any run at all, every holder has inherited enough throughout if and only if no step was one of those |
| Mutexes.NeverAsserts | FreeRTOS-TetriSaraj/2.sw/freertos/tasks.c:4272-4275 | over any run in which no task blocks on a mutex it holds itself, a task that times out is never the holder, so that assertion holds |
| Mutexes.WaitTripsExactly | FreeRTOS-TetriSaraj/2.sw/freertos/tasks.c:4272-4275 | when a task blocks on a mutex, and does not try again, the assertion fails in some continuation if and only if it is the holder, holds nothing else, and its priority is above its base |
| Mutexes.CallTripsExactly | FreeRTOS-TetriSaraj/2.sw/freertos/tasks.c:4272-4275 | in the whole call, further attempts included, it fails in some continuation if and only if the task is the holder and holds nothing else |
| Mutexes.SelfWaitAsserts | FreeRTOS-TetriSaraj/2.sw/freertos/tasks.c:4272-4275 | it can fail: a run in which a task with an inherited priority waits for the mutex it holds, and times out |
| QueueBuffers.SlotIsModulo | FreeRTOS-TetriSaraj/2.sw/freertos/queue.c:2175-2276 | stepping with one comparison per wrap is arithmetic modulo the length |
| QueueBuffers.WriteBehind | FreeRTOS-TetriSaraj/2.sw/freertos/queue.c:2204-2216 | writing at the write offset appends, and disturbs no other item |
| QueueBuffers.WriteBefore | FreeRTOS-TetriSaraj/2.sw/freertos/queue.c:2217-2243 | writing at the read offset and stepping back prepends |
| QueueBuffers.ReadOne | FreeRTOS-TetriSaraj/2.sw/freertos/queue.c:2258-2276 | stepping the read offset on exposes the first item, and leaves the rest |
| QueueBuffers.QueueBuffer.constructor | FreeRTOS-TetriSaraj/2.sw/freertos/queue.c:494-527 | a new queue holds nothing |
| QueueBuffers.QueueBuffer.CopyIn | FreeRTOS-TetriSaraj/2.sw/freertos/queue.c:2206 | a byte loop writes exactly one slot |
| QueueBuffers.QueueBuffer.CopyOut | FreeRTOS-TetriSaraj/2.sw/freertos/queue.c:2274 | a byte loop reads exactly one slot |
| QueueBuffers.QueueBuffer.CopyDataToQueue | FreeRTOS-TetriSaraj/2.sw/freertos/queue.c:2175-2255 | for every length and item size: append, prepend, or replace the only item; the write slot stays as many places after the read slot as there are items. The count stays within the length if and only if the items have a size or there was room: overwriting a full queue without data counts past it |
| QueueBuffers.QueueBuffer.CopyDataFromQueue | FreeRTOS-TetriSaraj/2.sw/freertos/queue.c:2258-2276 | the slot after the one last read is the first item |
| QueueBuffers.QueueBuffer.Receive | FreeRTOS-TetriSaraj/2.sw/freertos/queue.c:1413-1418 | receiving takes the first item |
| QueueBuffers.QueueBuffer.Peek | FreeRTOS-TetriSaraj/2.sw/freertos/queue.c:1765-1776 | peeking hands out the first item and puts the read offset back |
| QueueBuffers.QueueBuffer.Reset | FreeRTOS-TetriSaraj/2.sw/freertos/queue.c:308-318 | resetting empties the ring, whatever its state |
| QueueOrder.FirstInFirstOut | FreeRTOS-TetriSaraj/2.sw/freertos/queue.c:2175-2276 | over any run of receives, peeks and sends to the back: what is received and then what is left is what was there and then what was sent, in that order |
| QueueOrder.FrontIsNext | FreeRTOS-TetriSaraj/2.sw/freertos/queue.c:2217-2243 | an item sent to the front is the next one received, and the others keep their order |
| QueueOrder.LastInFirstOut | FreeRTOS-TetriSaraj/2.sw/freertos/queue.c:2217-2243 | sends to the front alone come out last in, first out |
| QueueOrder.OverwriteIsAlone | FreeRTOS-TetriSaraj/2.sw/freertos/queue.c:2217-2252 | an overwrite leaves its item alone to be received |
| QueueOrder.OnlyPeeks | FreeRTOS-TetriSaraj/2.sw/freertos/queue.c:1765-1776 | peeks change nothing, and each shows the next item |
| QueueOrder.SemaphoreCounts | FreeRTOS-TetriSaraj/2.sw/freertos/queue.c:2175-2255 | without data the queue counts gives less takes |
| Queues.Queue.TrySend | FreeRTOS-TetriSaraj/2.sw/freertos/queue.c:859-970 | the critical section of a send: room or overwrite, the item in, one receiver woken |
| Queues.Queue.TryReceive | FreeRTOS-TetriSaraj/2.sw/freertos/queue.c:1405-1450 | the critical section of a receive: first item out, one sender woken |
| Queues.Queue.TryPeek | FreeRTOS-TetriSaraj/2.sw/freertos/queue.c:1757-1800 | the critical section of a peek: nothing out, the next waiting receiver woken in turn |
| Queues.Queue.SendFromISR | FreeRTOS-TetriSaraj/2.sw/freertos/queue.c:1084-1209 | a send from an interrupt wakes a receiver, or on a locked queue counts, up to the number of tasks |
| Queues.Queue.ReceiveFromISR | FreeRTOS-TetriSaraj/2.sw/freertos/queue.c:1908-1972 | a receive from an interrupt, dually |
| Queues.Queue.Reset | FreeRTOS-TetriSaraj/2.sw/freertos/queue.c:298-340 | a reset empties the queue, unlocks it and wakes one sender |
| Queues.Queue.LockQueue | FreeRTOS-TetriSaraj/2.sw/freertos/queue.c:251-263 | locking starts both counts |
| Queues.Queue.UnlockTx | FreeRTOS-TetriSaraj/2.sw/freertos/queue.c:2287-2364 | the unlocking loop wakes as many receivers as were counted, as long as any wait |
| Queues.Queue.UnlockRx | FreeRTOS-TetriSaraj/2.sw/freertos/queue.c:2366-2395 | likewise the senders |
| QueueSides.EventKeeps | FreeRTOS-TetriSaraj/2.sw/freertos/queue.c:1047-1209 | an event keeps every available item promised to a woken task or to the unlocking |
| QueueSides.UnlockWakesOnePerEvent | FreeRTOS-TetriSaraj/2.sw/freertos/queue.c:270-293 | capping the count at the number of tasks changes nothing: unlocking wakes one waiting task for each event |
| QueueSides.UnlockKeeps | FreeRTOS-TetriSaraj/2.sw/freertos/queue.c:2279-2396 | unlocking keeps every available item promised |
| QueueSides.RerunKeeps | FreeRTOS-TetriSaraj/2.sw/freertos/queue.c:1405-1450 | a woken task's critical section uses up what it was promised, or finds nothing, or passes the promise on |
| QueueProtocol.StepKeepsInv | FreeRTOS-TetriSaraj/2.sw/freertos/queue.c:835-2396 | every critical section of senders, receivers, peekers, interrupts, time-outs and the unlocking keeps the invariant of the protocol, with items of any size or none |
| QueueProtocol.NoLostWakeUp | FreeRTOS-TetriSaraj/2.sw/freertos/queue.c:835-2396 | under every interleaving, on an unlocked queue with a task waiting to receive, the items are at most the receivers woken that have yet to run; dually for senders and free places; and the queue is unlocked whenever no call is inside |
| QueueProtocol.AttemptExactly | FreeRTOS-TetriSaraj/2.sw/freertos/queue.c:835-1517 | a call succeeds, with one item come, gone or looked at, exactly if there is something to be had; if not it returns at once or waits |
| QueueProtocol.GivesUpOnNothing | FreeRTOS-TetriSaraj/2.sw/freertos/queue.c:1484-1517 | a receiver whose time is up fails only on an empty queue; else it tries again, and succeeds if it is not overtaken |
| QueueProtocol.WokenWillRun | FreeRTOS-TetriSaraj/2.sw/freertos/queue.c:1403-1517 | a task counted as woken is on no list, and runs its critical section next |
| QueueProtocol.ResetExactly | FreeRTOS-TetriSaraj/2.sw/freertos/queue.c:298-340 | resetting a queue in use, which wakes one sender only, keeps the invariant if and only if at most one sender waits or enough have been woken before; otherwise it leaves a sender waiting beside a free place |
| QueueProtocol.ResetLosesWakeUp | FreeRTOS-TetriSaraj/2.sw/freertos/queue.c:325-333 | a run to a full queue on which two senders wait; a reset frees both places and leaves one of them waiting |
| QueueProtocol.CappingChangesNothing | FreeRTOS-TetriSaraj/2.sw/freertos/queue.c:270-293 | in every run the capped counts wake as many tasks as uncapped ones would |
| QueueProtocol.LockCountFits | FreeRTOS-TetriSaraj/2.sw/freertos/queue.c:270-293 | with at most 127 tasks the assertion that a count has not reached the largest signed byte holds in every run |
| QueueProtocol.LockCountMayOverflow | FreeRTOS-TetriSaraj/2.sw/freertos/queue.c:270-293 | with 128 or more it fails in some run |
| Timers.DecisionIsExact | FreeRTOS-TetriSaraj/2.sw/freertos/timers.c:716-757 | for a command less than a wrap old: process now if and only if the expiry has passed, else the list of the epoch of the expiry |
| Timers.CountIsQuotient | FreeRTOS-TetriSaraj/2.sw/freertos/timers.c:522-538 | the expiry points up to a moment number the elapsed time divided by the period |
| Timers.PacedIsExact | FreeRTOS-TetriSaraj/2.sw/freertos/timers.c:522-565 | a paced timer that is not due has fired exactly once for every period that has ended |
| Timers.TimerService.CreateTimer | FreeRTOS-TetriSaraj/2.sw/freertos/timers.c:355-383 | a new timer is inactive and on no list |
| Timers.TimerService.SetReloadMode | FreeRTOS-TetriSaraj/2.sw/freertos/timers.c:451-469 | the reload mode changes nothing else |
| Timers.TimerService.InsertTimer | FreeRTOS-TetriSaraj/2.sw/freertos/timers.c:716-757 | the timer is listed in order in the right list, or found to have expired |
| Timers.TimerService.ReloadTimer | FreeRTOS-TetriSaraj/2.sw/freertos/timers.c:522-538 | the catch-up loop terminates, fires once for each further expiry passed, and lists the timer for the first that has not |
| Timers.TimerService.Expire | FreeRTOS-TetriSaraj/2.sw/freertos/timers.c:547-564 | an expired timer fires; it is then listed beyond now, or inactive |
| Timers.TimerService.ProcessExpiredTimer | FreeRTOS-TetriSaraj/2.sw/freertos/timers.c:541-565 | processing the head keeps every timer at its pace |
| Timers.TimerService.SwitchTimerLists | FreeRTOS-TetriSaraj/2.sw/freertos/timers.c:908-931 | every timer left from the old epoch is processed as of its end; the loop terminates, and the lists are exchanged with nothing left behind |
| Timers.TimerService.SampleTimeNow | FreeRTOS-TetriSaraj/2.sw/freertos/timers.c:693-713 | sampling at least once per wrap, or with no timer listed, keeps the lists those of the present epoch |
| Timers.TimerService.StartTimer | FreeRTOS-TetriSaraj/2.sw/freertos/timers.c:822-850 | a start or reset counts from when it was sent, catching up if the command comes late |
| Timers.TimerService.RestartWithPeriod | FreeRTOS-TetriSaraj/2.sw/freertos/timers.c:858-873 | a new period counts from now, and cannot have expired |
| Timers.TimerService.StopTimer | FreeRTOS-TetriSaraj/2.sw/freertos/timers.c:852-898 | stopping, or deleting |
| Timers.TimerService.ProcessCommand | FreeRTOS-TetriSaraj/2.sw/freertos/timers.c:795-905 | each command has its effect on its timer and keeps all the others at their pace |
| Timers.TimerService.ProcessTimerOrBlockTask | FreeRTOS-TetriSaraj/2.sw/freertos/timers.c:604-690 | when the daemon blocks, no listed timer is due, each has fired exactly once for each period that has ended since its start, and it blocks until no later than the next expiry or wrap, indefinitely only with no timer listed; it asks for a wait of zero ticks, which lasts one, only at the very tick of a wrap. When it does not block, the timer at the head was due, has fired, and is due no more, unless it had the lists to switch, which it has once a tick; no timer is touched that was not due |
| Timers.TimerService.RunUntilBlocked | FreeRTOS-TetriSaraj/2.sw/freertos/timers.c:588-600 | at one tick, with no command waiting, the daemon blocks after one round for each timer that was due and at most two more; each timer has then fired once for each period that has ended, or once and is inactive, and one that was not due is untouched |
| EventGroups.CodedReadsBack | FreeRTOS-TetriSaraj/2.sw/freertos/event_groups.c:397-424 | bits and flags can be read back from a waiting task's item value, which does not look like a wake-up |
| EventGroups.DeliveredReadsBack | FreeRTOS-TetriSaraj/2.sw/freertos/event_groups.c:596-601 | so can the bits from a woken task's |
| EventGroups.ClearingSatisfiesNobody | FreeRTOS-TetriSaraj/2.sw/freertos/event_groups.c:693-727 | clearing bits makes no condition true |
| EventGroups.MetExactly | FreeRTOS-TetriSaraj/2.sw/freertos/event_groups.c:693-727 | the test is met by any if and only if some single bit is both waited for and there, and by all if and only if each bit waited for is there |
| EventGroups.SetIsExact | FreeRTOS-TetriSaraj/2.sw/freertos/event_groups.c:533-626 | a set wakes exactly the tasks for which any bit, or every bit, as each has asked, is among the old ones and the new, whatever the order of the list, and leaves a bit if and only if it was there or set and no woken task clears it |
| EventGroups.WaitIsExact | FreeRTOS-TetriSaraj/2.sw/freertos/event_groups.c:339-407 | a wait returns at once if and only if any of its bits, or all, as asked, are there; it takes its own bits away if and only if asked to, and changes no other; else it waits if it may |
| EventGroups.SyncIsExact | FreeRTOS-TetriSaraj/2.sw/freertos/event_groups.c:194-255 | a rendezvous call sets its bits, and returns at once if and only if all the bits of the rendezvous have then come, and takes them away |
| EventGroups.SetKeepsQuiescent | FreeRTOS-TetriSaraj/2.sw/freertos/event_groups.c:533-626 | after a set no listed task's condition holds |
| EventGroups.WaitKeepsQuiescent | FreeRTOS-TetriSaraj/2.sw/freertos/event_groups.c:317-405 | nor after a wait that returns or blocks |
| EventGroups.SyncKeepsQuiescent | FreeRTOS-TetriSaraj/2.sw/freertos/event_groups.c:194-254 | nor after a rendezvous call |
| EventGroups.FinishKeepsQuiescent | FreeRTOS-TetriSaraj/2.sw/freertos/event_groups.c:425-464 | nor after a wait that timed out |
| EventGroups.OpKeepsQuiescent | FreeRTOS-TetriSaraj/2.sw/freertos/event_groups.c:194-626 | nor after any operation, time-outs included |
| EventGroups.FateIs | FreeRTOS-TetriSaraj/2.sw/freertos/event_groups.c:317-470 | over any run of other operations, a task that blocks waits until the first set that makes its condition true or its time-out, and while it waits its condition does not hold |
| EventGroups.BlockedCallReturns | FreeRTOS-TetriSaraj/2.sw/freertos/event_groups.c:407-470 | whatever others do on the group before it runs again: a woken task returns the bits as they stood when its condition came true, and it did; one that timed out returns the present bits, and takes its own if they meet its condition now |
| EventGroups.ReleasedTogether | FreeRTOS-TetriSaraj/2.sw/freertos/event_groups.c:194-312 | tasks that wait for the same rendezvous and do not time out are released by the same operation, with the same bits |
| EventGroups.RendezvousReleasesAll | FreeRTOS-TetriSaraj/2.sw/freertos/event_groups.c:194-312 | after any run, with any other tasks waiting: the call that completes a rendezvous returns at once with all its bits, every task that had joined is off the list and has been handed the same bits, and none of the rendezvous bits is left set |
| EventGroups.RendezvousReturns | FreeRTOS-TetriSaraj/2.sw/freertos/event_groups.c:257-312 | whatever happens on the group after that, each of those calls returns those bits |
| EventGroups.EventGroup.constructor | FreeRTOS-TetriSaraj/2.sw/freertos/event_groups.c:145-187 | a new group has no bits and no waiters |
| EventGroups.EventGroup.WakeSatisfied | FreeRTOS-TetriSaraj/2.sw/freertos/event_groups.c:555-617 | the walk that takes tasks off the list under it visits each once |
| EventGroups.EventGroup.SetBits | FreeRTOS-TetriSaraj/2.sw/freertos/event_groups.c:533-626 | setting bits in place is that set; the bits it returns are read after other tasks may have run, and are not part of it |
| EventGroups.EventGroup.WaitBits | FreeRTOS-TetriSaraj/2.sw/freertos/event_groups.c:317-405 | the first half of a wait |
| EventGroups.EventGroup.Sync | FreeRTOS-TetriSaraj/2.sw/freertos/event_groups.c:194-254 | the first half of a rendezvous call |
| EventGroups.EventGroup.TimeOut | FreeRTOS-TetriSaraj/2.sw/freertos/tasks.c:2795-2808 | a time-out takes one task off the list |
| EventGroups.EventGroup.FinishWait | FreeRTOS-TetriSaraj/2.sw/freertos/event_groups.c:407-470 | the second half of either, for a woken and for a timed-out task |
| EventGroups.EventGroup.ClearBits | FreeRTOS-TetriSaraj/2.sw/freertos/event_groups.c:473-498 | clearing returns the bits of before |
| Tetrominoes.RotateIsOneToOne | FreeRTOS-TetriSaraj/2.sw/tetrisaraj_game.c:14-23 | each rotation is a permutation of the box |
| Tetrominoes.TurnsClockwise | FreeRTOS-TetriSaraj/2.sw/tetrisaraj_game.c:14-23 | every turn is the same quarter turn, clockwise |
| Tetrominoes.CellsAre | FreeRTOS-TetriSaraj/2.sw/tetrisaraj_game.c:3-23 | a piece has the four cells its table marks, in every rotation |
| Tetrominoes.NothingLeftOut | FreeRTOS-TetriSaraj/2.sw/tetrisaraj_game.c:3-23 | in every rotation a piece leaves out no row or column between two of its own |
| Tetrominoes.TurnIsNear | FreeRTOS-TetriSaraj/2.sw/tetrisaraj_game.c:3-23 | turning moves no piece far enough to jump a wall |
| Fields.StepConfined | FreeRTOS-TetriSaraj/2.sw/tetrisaraj_game.c:382-436 | a piece that fits after one step is still in its half |
| Fields.TurnConfined | FreeRTOS-TetriSaraj/2.sw/tetrisaraj_game.c:413-420 | nor does turning take it out |
| Fields.PlacedCells | FreeRTOS-TetriSaraj/2.sw/tetrisaraj_game.c:204-218 | locking writes four cells, all of them empty before, in the piece's half |
| Fields.FullLineIsOwn | FreeRTOS-TetriSaraj/2.sw/tetrisaraj_game.c:220-249 | after locking, a full column is one of the piece's box and half |
| Fields.ShiftedHalf | FreeRTOS-TetriSaraj/2.sw/tetrisaraj_game.c:271-302 | a shift takes one column out of a half, moves the outer ones in, and leaves the outermost as it was |
| ColumnClearing.DoneStep | FreeRTOS-TetriSaraj/2.sw/tetrisaraj_game.c:271-302 | one round of the shifting loop, as a function of the half |
| ColumnClearing.ClearedHasNoFull | FreeRTOS-TetriSaraj/2.sw/tetrisaraj_game.c:202-302 | a cleared half has no full column |
| ColumnClearing.KeptExactly | FreeRTOS-TetriSaraj/2.sw/tetrisaraj_game.c:202-302 | the columns kept are those that are not full, each once and in their order |
| ColumnClearing.ClearedCells | FreeRTOS-TetriSaraj/2.sw/tetrisaraj_game.c:202-302 | clearing k columns takes 22 k cells away and adds k times those of the outermost column |
| ColumnClearing.OutermostIsCopied | FreeRTOS-TetriSaraj/2.sw/tetrisaraj_game.c:275-286 | in any half, an outermost column that is not full is there once more for each column that has gone |
| ColumnClearing.ClearedIsRemoval | FreeRTOS-TetriSaraj/2.sw/tetrisaraj_game.c:202-302 | clearing is plain removal of the full columns if and only if there are none, or the outermost is one of them or empty |
| Games.FreshIsSound | FreeRTOS-TetriSaraj/2.sw/tetrisaraj_game.c:54-67 | a fresh field has its walls and no full column |
| Games.SteeredConfined | FreeRTOS-TetriSaraj/2.sw/tetrisaraj_game.c:382-424 | no input takes the piece off its half or through a wall |
| Games.SteeredByOne | FreeRTOS-TetriSaraj/2.sw/tetrisaraj_game.c:382-424 | with nothing pressed nothing moves; one button moves the piece one cell its way, or turns it if the button was up, exactly if it fits there |
| Games.FallsEvery | FreeRTOS-TetriSaraj/2.sw/tetrisaraj_game.c:375-380 | from its start a piece falls at every step that is a multiple of the speed |
| Games.TallyExactly | FreeRTOS-TetriSaraj/2.sw/tetrisaraj_game.c:251-269 | over a game: the score is a point for each piece and twenty times two to the number of columns it cleared, in sixteen bits; the pieces fall faster after every fifty, from every fifteenth step to every ninth |
| Games.LinesFound | FreeRTOS-TetriSaraj/2.sw/tetrisaraj_game.c:220-249 | the columns found full in the box are the full ones of the half, all of them |
| Games.LockingIsRemoval | FreeRTOS-TetriSaraj/2.sw/tetrisaraj_game.c:202-302 | so locking a piece is plain removal of the full columns under that same condition, on the half as it is with the piece in it |
| Games.CopyingIsSound | FreeRTOS-TetriSaraj/2.sw/tetrisaraj_game.c:202-302 | a field and a piece in place on it that cannot fall |
| Games.LockingCopies | FreeRTOS-TetriSaraj/2.sw/tetrisaraj_game.c:275-286 | on which locking leaves the cell of the outermost column there twice |
| Games.Game.FieldInit | FreeRTOS-TetriSaraj/2.sw/tetrisaraj_game.c:54-67 | the nested loops write the fresh field |
| Games.Game.WriteScore | FreeRTOS-TetriSaraj/2.sw/tetrisaraj_game.c:110-160 | drawing the score changes nothing of the playing field |
| Games.Game.PieceFits | FreeRTOS-TetriSaraj/2.sw/tetrisaraj_game.c:162-185 | a piece fits if and only if no cell it covers on the field is occupied |
| Games.Game.WritePiece | FreeRTOS-TetriSaraj/2.sw/tetrisaraj_game.c:204-218 | locking writes the piece's four cells |
| Games.Game.EmptyFullColumns | FreeRTOS-TetriSaraj/2.sw/tetrisaraj_game.c:220-249 | the full columns of the box are found, in order, and emptied |
| Games.Game.ShiftColumns | FreeRTOS-TetriSaraj/2.sw/tetrisaraj_game.c:271-302 | the shifting loops leave the half's non-full columns in order behind as many copies of its outermost column, emptied if it was full |
| Games.Game.SpawnPiece | FreeRTOS-TetriSaraj/2.sw/tetrisaraj_game.c:187-200 | the next piece is in its half, or the game is over because it does not fit |
| Games.Game.LockPiece | FreeRTOS-TetriSaraj/2.sw/tetrisaraj_game.c:202-307 | locking overwrites only empty cells, clears the piece's half and leaves the other, adds 4 - 22 k + k times the outermost column's cells, at most four columns at a time, and scores and counts |
| Games.Game.TryMove | FreeRTOS-TetriSaraj/2.sw/tetrisaraj_game.c:384-395 | a move is made exactly if the piece fits there |
| Games.Game.TryTurn | FreeRTOS-TetriSaraj/2.sw/tetrisaraj_game.c:413-424 | a turn needs a newly pressed button and a piece that fits |
| Games.Game.Steer | FreeRTOS-TetriSaraj/2.sw/tetrisaraj_game.c:382-424 | the order of the moves of each half |
| Games.Game.Fall | FreeRTOS-TetriSaraj/2.sw/tetrisaraj_game.c:426-442 | a piece falls one column inwards if it fits there, and is locked exactly if it does not |
| Games.Game.Step | FreeRTOS-TetriSaraj/2.sw/tetrisaraj_game.c:338-445 | after any step: walls stand, no column is full, and while the game is on the piece is on empty cells of rows 1 to 22 of its own half; it is where the buttons and, when its time has come, the fall have taken it, or is locked exactly if it cannot fall |
| Games.Game.Init | FreeRTOS-TetriSaraj/2.sw/tetrisaraj_game.c:309-336 | a game starts with a fresh field and its first piece in place |
| ResponseTimes.InterferenceAtLeast | FreeRTOS-TetriSaraj/tools/rms_overload_demo.py:36-39 | tasks demand at least their share of any time |
| ResponseTimes.ResponseIsLeast | FreeRTOS-TetriSaraj/tools/rms_overload_demo.py:32-50 | a response that repeats is the least time that meets the demand; if it overruns, no time within the period does |
| ResponseTimes.ResponseTimeAnalysis | FreeRTOS-TetriSaraj/tools/rms_overload_demo.py:29-53 | the program's loops compute these responses and the verdict |
| ResponseTimes.RunsOutExactly | FreeRTOS-TetriSaraj/tools/rms_overload_demo.py:35-50 | the rounds run out if and only if the demand, iterated a hundred times from the task's own time, is still growing and still within the period |
| ResponseTimes.RoundsSuffice | FreeRTOS-TetriSaraj/tools/rms_overload_demo.py:35-50 | they do not if fewer than 99 jobs of the tasks above come in between the task's own time and its period |
| ResponseTimes.VerdictIsExact | FreeRTOS-TetriSaraj/tools/rms_overload_demo.py:29-53 | for every task: its response is within its period if and only if some time within it meets its demand, or the rounds run out in that sense |
| ResponseTimes.SchedulableIsExact | FreeRTOS-TetriSaraj/tools/rms_overload_demo.py:29-53 | for every set: schedulable if and only if each task has a time within its period that meets its demand or runs out of rounds; with few jobs, if and only if each has such a time |
| ResponseTimes.OverloadIsNotSchedulable | FreeRTOS-TetriSaraj/tools/rms_overload_demo.py:61-66 | a utilization above one is found schedulable only if the last task runs out of rounds, which takes many jobs |
| ResponseTimes.BudgetIsTooSmall | FreeRTOS-TetriSaraj/tools/rms_overload_demo.py:35 | they do run out: periods 1 and 1000 with times 1 and 0.5 are found schedulable at a utilization above one |
| ResponseTimes.RegionsAreExact | FreeRTOS-TetriSaraj/tools/rms_overload_demo.py:65-72 | the regions of the chart, for every set; with few jobs they separate the sets in which every task is in time from the others |
| ResponseTimes.RegionsMean | FreeRTOS-TetriSaraj/tools/rms_overload_demo.py:65-72 | for every set and each region, which sets it holds: overload, a miss that no rounds would mend, and the rest below and above the bound |
| ResponseTimes.ChartIsRight | FreeRTOS-TetriSaraj/tools/rms_overload_demo.py:20-26 | for the tasks of the program itself they do, at every scale |

## Left out

- Schedulers.Scheduler.SwitchContext: does not model xYieldPending, xSwitchRequired or who asks for a switch; a context switch may happen whenever the scheduler is not suspended, so that a running task may lag behind the highest ready priority, as it may in the code.
- Schedulers.Scheduler.SuspendTask: does not model suspending tasks before the scheduler starts.
- Schedulers.Scheduler.SwitchDelayedLists: does not model the two list pointers; the lists are two fields that exchange their values, and tasks' control blocks are entries of maps, so that aliasing of list items is covered by PointerRings alone.
- Schedulers.Scheduler.CreateTask: does not model a start without any task, or a task that replaces the current one before the scheduler starts.
- TimeOuts.BlockingCall.CheckForTimeOut: does not model the overflow of xNumOfOverflows itself, after 2^31 wraps, nor aborted delays, which are configured off.
- Mutexes.MutexUsers.Give: does not model giving a mutex one does not hold, deleting a holder or resetting a mutex, nor recursive mutexes, which are configured off.
- Mutexes.MutexUsers.Block: does not move the holder between ready lists; that is Schedulers.Scheduler.ChangePriority.
- QueueProtocol.NoLostWakeUp: leaves out suspending or deleting a task inside a call, which loses wake-ups by design, and resets that may lose one (QueueProtocol.ResetExactly says which), as well as queue sets, which are configured off; the order of waiting tasks is arbitrary, so that any priorities are covered.
- QueueBuffers.QueueBuffer.Reset: leaves the waking of a sender to Queues.Queue.Reset, and the emptying of the waiting lists of a new queue to its constructor.
- Timers.TimerService.ProcessCommand: does not model pended function calls; messages arrive with the tick at which they were sent, from the command queue, which is a queue of the kind above.
- EventGroups.EventGroup.SetBits: leaves out the bits it returns, which are read once the scheduler has resumed.
- EventGroups.EventGroup.WaitBits: leaves the blocking itself to Schedulers; the item values are those that pass between the two.
- Games.Game.WriteScore: does not model the glyphs, which are a parameter, nor the conversion to digits.
- Games.Game.SpawnPiece: takes its random draws as parameters, any row from 2 to 19 and either side; that the generator ever yields one is not shown.
- ResponseTimes.ResponseTimeAnalysis: uses exact numbers where the program rounds, and leaves out the Liu-Layland bound itself, which is a parameter, and the files it writes.
- Critical sections are atomic; what the port layer does to make them so, the context-switch assembly and the stacks are not modelled.
- Task notifications, stream buffers, co-routines, tickless idle, run-time statistics, tracing, MPU wrappers and memory allocation.
- Deleting queues and event groups.
- The drivers, the video and serial output, the benchmark and demonstration programs, and the hardware.
