# Verification of the FreeRTOS kernel

A Dafny model of the kernel under `FreeRTOS/`: the scheduler's tick machine, task states and
priorities, mutexes, queues, stream and message buffers, event groups, software timers and block
times. Wrapped 32-bit time is always proved against a clock that never wraps, rings of bytes and
linked rings of list items against plain sequences, and interrupts against tasks as state machines
over single steps.

The configuration is the repository's (`include/FreeRTOSConfig.h`): one core, preemption with time
slicing, 32-bit ticks, five priorities, `INCLUDE_vTaskSuspend`, mutexes and recursive mutexes; no
queue sets, tickless idle, delay aborts or MPU. Task selection is the generic form of
`FreeRTOS/tasks.c:175-222`. Software timers are modelled although `configUSE_TIMERS` is 0 here.

## How the model is laid out

- `Lists`, `ListHeap`: `list.c`, once as a sequence with the place of `pxIndex` and once as the
  pointer structure that refines it; rotation, fairness and stable sorted insertion.
- `Words`, `Kernel`, `Ticks`, `Suspension`, `Tasks`, `Lifecycle`, `Priorities`, `Notify`: the file-static
  variables and TCBs of `tasks.c` as one state, and each critical section as one step. `Sound` is the
  invariant: where items are, which list a ready task is on, exact counters, and `Clocked`, which says
  that the wrapped tick count, the two delayed lists and the cached unblock time are those of an
  unbounded clock with true deadlines. `Runs` puts the steps together into arbitrary interleavings of
  calls and interrupts, and `Effects` states in fields and lists what each of them leaves in every
  reachable state. `Sleeping` proves that blocked tasks wake exactly on time, `Preemption` that no
  switch is missed, `NotifyRuns` that no notification is lost, before or after the task sleeps;
  `Yields`, `Turns`, `Population`, `Transparency` and `Evolution` prove further properties of runs.
- `SchedulerObject`: the same state as an object updated in place, with the loops of `tasks.c`; each
  method is proved to compute the step of the value model.
- `Mutexes`: mutexes of `queue.c` over the scheduler, interleaved with all its other steps;
  `MutexEffects` states in fields what inheritance and each operation leave; `MissedSwitches`,
  `Inheritance`, `WaitOrder` and `Snapshots` prove properties of these larger runs, and `Scenarios` has
  runs from the first state on which some of them fail.
- `Queues`, `QueueLocks`: the byte ring as a deque of items, and the lock counts between interrupts
  and a task that blocks.
- `StreamBuffers`, `StreamRuns`, `MessageRuns`: the ring of bytes with message framing, one writer and one
  reader interleaved byte by byte, and both together.
- `EventGroups`: conditions, the walk that releases waiters, and the rendezvous over whole runs. A word
  of event bits is the set of the numbers of its one bits.
- `Timers`, `TimeOuts`, `Clock`: the timer daemon, `xTaskCheckForTimeOut`, and wrapped time.

Calls of the source that block and retry appear as their critical sections: the loop around them is
the run. A precondition of a step is what the source asserts or documents of its caller.

Where the code does less than one might expect, the model follows the code:

- A block time measured over more than one wrap of the tick count can be reported as not over
  (`TimeOuts.ReportIsExactWhen` gives the exact condition, `TimeOuts.TwoWrapsFoolTheCheck` an input).
- `xQueueGenericReset` frees every place of a full queue but wakes one waiting sender
  (`QueueLocks.ResetForgetsSenders`, `QueueLocks.ResetExample`).
- `vListInsertEnd` puts an item just before the one that `pxIndex` is on, so a new item need not come
  last in its rotation (`Lists.RotationOfInsert`).
- An overwrite of a given semaphore counts it twice: the adjustment for overwriting is made for queues
  with a non-zero item size only (`Queues.OverwriteIsExact`, `Queues.OverwriteExample`).
- Deleting a task that holds a mutex leaves the mutex with a holder that is gone
  (`Mutexes.KernelStepOwned`, `Scenarios.HolderDeleted`).
- A give that ends inheritance asks for a switch on that account only if nobody waits for the mutex
  (`FreeRTOS/queue.c:1047-1068`), so a low waiter can hide it while a higher task is ready
  (`MissedSwitches.GiveSettles`, `Scenarios.GiveExample`).
- A waiter whose priority is raised while it waits does not raise the holder then, but the timeout of
  another waiter does, and asks for no switch (`MissedSwitches.ExpireSettles`,
  `Scenarios.ExpireExample`).
- Inheritance goes one mutex deep, and `vTaskPrioritySet` looks neither at the waiters of its task nor at
  the holder that its task waits for; a free mutex goes to the first task that takes it. So a waiter can
  outrank a holder (`Inheritance.CoveredUnless`, `Scenarios.RaiseExample`).
- Item values are rewritten in place, so the waiters of a mutex need not be in the order of their
  priorities (`WaitOrder.OrderedUnless`, `Scenarios.RaiseExample`).
- A woken task that is suspended or deleted before it runs takes the wake-up with it
  (`QueueLocks.NoLostWakeUp`, `QueueLocks.AbandonExample`).
- The timer daemon cannot tell a wrap by the full range from none: sampling once in every epoch is not
  enough (`Timers.SwitchesMatchEpochs`, `Timers.SampleMissesEpoch`).

## Model

| member | source | states |
|---|---|---|
| `Lists.InsertPosition` | FreeRTOS/list.c:139-213 | a key is put before the first greater one, so behind its equals |
| `Lists.InsertKeepsSorted` | FreeRTOS/list.c:139-213 | sorted insertion keeps the list sorted and is stable: exactly the keys up to the new one stay in front |
| `Lists.InsertAtMembers` | FreeRTOS/list.c:105-136 | an insertion adds its item and loses none |
| `Lists.RemoveMembers` | FreeRTOS/list.c:217-247 | a removal takes out its item and no other |
| `Lists.PickRotates` | FreeRTOS/include/list.h:286-297 | a pick serves the head of the rotation and sends it to the back |
| `Lists.PicksRotate` | FreeRTOS/include/list.h:286-297 | k picks return the first k items of the rotation, in order, and move them to its back |
| `Lists.FullTurn` | FreeRTOS/include/list.h:286-297 | n picks from an unchanged list of n return every item exactly once and restore the rotation |
| `Lists.RotationOfRemove` | FreeRTOS/list.c:217-247 | a removal, wherever pxIndex is, keeps the order in which the others will be picked |
| `Lists.RotationOfInsert` | FreeRTOS/list.c:105-136 | a new item goes to the back of the rotation, or in front of the one item that pxIndex is on |
| `Lists.NoStarvation` | FreeRTOS/list.c:105-247 | over any interleaving of inserts, removals and picks, an item of a list that never has more than b items is picked before 2b picks of others have passed |
| `ListHeap.List.constructor` | FreeRTOS/list.c:49-86 | an initialised list is the empty ring of its end marker |
| `ListHeap.List.InsertAtEnd` | FreeRTOS/list.c:105-136 | the pointer writes refine insertion just before pxIndex and keep next and previous inverse, containers and count |
| `ListHeap.List.FindPosition` | FreeRTOS/list.c:139-196 | the scan ends at the end marker at the latest, portMAX_DELAY included, at the stable sorted position |
| `ListHeap.List.Insert` | FreeRTOS/list.c:139-213 | vListInsert refines stable sorted insertion and keeps a sorted list sorted |
| `ListHeap.List.RemoveItem` | FreeRTOS/list.c:217-247 | uxListRemove refines removal, steps pxIndex back if it was on the item, and returns the items left |
| `ListHeap.List.GetNext` | FreeRTOS/include/list.h:286-297 | the pointer walk refines one pick of the rotation |
| `ListHeap.MoveItem` | FreeRTOS/tasks.c:284-290 | moving an item from one list to another leaves both valid, each changed by its own operation only |
| `ListHeap.DisjointLists` | FreeRTOS/list.c:105-136 | two valid lists share no node |
| `Ticks.EmptyAtWrap` | FreeRTOS/tasks.c:264-276 | the current delayed list is empty whenever the tick count wraps: the assertion of the list switch holds |
| `Ticks.NothingDue` | FreeRTOS/tasks.c:4742-4770 | while the count is below xNextTaskUnblockTime, skipping the scan misses no deadline |
| `Ticks.DrainKeeps` | FreeRTOS/tasks.c:4771-4856 | the unblocking loop wakes exactly the tasks that are due and leaves the unblock time at or below the next head |
| `Ticks.TickIsExact` | FreeRTOS/tasks.c:4742-4856 | one tick of the wrapped two-list machine wakes exactly the tasks whose unbounded deadline is the new time, changes nothing else of any task, and keeps the clock invariant |
| `Preemption.DrainReports` | FreeRTOS/tasks.c:4813-4835 | the loop reports a switch iff a task that it wakes outranks the running one |
| `Preemption.SwitchRequiredWhen` | FreeRTOS/tasks.c:4813-4930 | a tick asks for a context switch iff a woken task outranks the running one, two tasks are then ready at its priority, or a yield was pending |
| `Preemption.AsksWhen` | FreeRTOS/tasks.c:81-95 | exactly which calls and ticks ask for a switch, in terms of the state before and of the tasks that a tick wakes |
| `Turns.TickInOrder` | FreeRTOS/tasks.c:4771-4856 | the tasks that a tick wakes are the first ones of the delayed list of its epoch; they join the ready lists of their priorities in that order, and the next unblock time is then that of the head or ahead of the tick count |
| `Turns.ResumeInOrder` | FreeRTOS/tasks.c:4030-4140 | the outermost resumption is the release of the pending tasks to their ready lists in the order in which they were woken, with an exact next unblock time and a yield iff one of them outranks, followed by exactly the pended ticks |
| `Yields.ResumeYields` | FreeRTOS/tasks.c:4030-4140 | after the outermost resumption a yield is pending iff one was, a task that it readies outranks the running one, or it replays ticks and two tasks are then ready at the running task's priority |
| `Tasks.WakeTime` | FreeRTOS/tasks.c:8624-8656 | the wrapped wake time is below the count iff the true deadline lies in the next epoch |
| `Tasks.BlockKeeps` | FreeRTOS/tasks.c:8579-8656 | blocking for any 0 < w < 2^32 ticks keeps the clock invariant with deadline now + w, or none when waiting indefinitely |
| `Tasks.PlaceKeeps` | FreeRTOS/tasks.c:5296-5352 | joining an event list and blocking keeps the invariant |
| `Tasks.EventWakeKeeps` | FreeRTOS/tasks.c:5394-5439 | a wake-up through an event list keeps the invariant, whether or not the scheduler is suspended |
| `Tasks.UnorderedWakeKeeps` | FreeRTOS/tasks.c:5487-5521 | a wake-up from an unordered event list keeps the invariant |
| `Suspension.PendTicksCounts` | FreeRTOS/tasks.c:4933-4950 | ticks under suspension change xPendedTicks only, by their number modulo 2^32 |
| `Suspension.MovePendingKeeps` | FreeRTOS/tasks.c:4043-4075 | the loop over xPendingReadyList readies exactly its tasks and empties it |
| `Suspension.ReplayIsExact` | FreeRTOS/tasks.c:4101-4131 | the replayed ticks wake exactly the tasks whose deadline they cover |
| `Suspension.OutermostResume` | FreeRTOS/tasks.c:4011-4150 | the outermost resume readies exactly the pending tasks and those whose deadline lies within the pended ticks, and leaves nothing pending |
| `Transparency.ReplayIsDirect` | FreeRTOS/tasks.c:4101-4131 | the replay is the direct ticks, with a yield pended iff one was or some direct tick asked for one |
| `Transparency.SuspensionIsTransparent` | FreeRTOS/tasks.c:4011-4150 | k < 2^32 ticks pended and replayed give the very state of k direct ticks, with a yield pended iff one was or some direct tick asked for one |
| `Lifecycle.SwitchPicksHighest` | FreeRTOS/tasks.c:183-203 | the downward search ends, and the task it picks is ready, outranked by no ready task, and next in its rotation |
| `Lifecycle.HighestReady` | FreeRTOS/tasks.c:183-203 | the search yields the highest non-empty ready list at or below uxTopReadyPriority |
| `Lifecycle.CleanUpKeeps` | FreeRTOS/tasks.c:6099-6170 | the idle clean-up empties the termination list, keeps the invariant, and takes exactly the deleted tasks off uxCurrentNumberOfTasks |
| `Lifecycle.CreateKeeps` | FreeRTOS/tasks.c:2041-2115 | creation keeps the invariant |
| `Lifecycle.DeleteKeeps` | FreeRTOS/tasks.c:2213-2359 | deletion keeps the invariant, for the running task and for any other |
| `Lifecycle.SuspendTaskKeeps` | FreeRTOS/tasks.c:3149-3305 | suspending a task keeps the invariant |
| `Effects.ResumeEffect` | FreeRTOS/tasks.c:3382-3435 | over a step of a run: a task that is not running, is on the suspended list, on no event list and does not wait for a notification goes to the back of the ready list of its priority, and nothing else changes; in every other case nothing changes |
| `Effects.ResumeInterruptEffect` | FreeRTOS/tasks.c:3443-3535 | from an interrupt such a task is readied, with a yield pended iff one was or it outranks the running task, or while the scheduler is suspended put at the end of the pending-ready list; otherwise nothing changes |
| `Lifecycle.SwitchKeeps` | FreeRTOS/tasks.c:5109-5192 | the context switch keeps the invariant and always finds a ready list |
| `Effects.SwitchEffect` | FreeRTOS/tasks.c:5109-5192 | a switch picks the highest non-empty ready list, runs the head of its rotation and moves it to the back, and clears the pended yield; while the scheduler is suspended it only pends one |
| `Effects.SuspendEffect` | FreeRTOS/tasks.c:3149-3305 | a suspended task leaves the lists of both items, and the pending-ready list, for the end of the suspended list; its wait for a notification ends, and the next unblock time is that of the head |
| `Effects.NewTaskEffect` | FreeRTOS/tasks.c:2041-2115 | a new task has the given priority, capped, and goes to the back of its ready list |
| `Effects.DeleteEffect` | FreeRTOS/tasks.c:2213-2359 | deleting another task frees it at once; the running task goes to the end of the termination list |
| `Effects.CleanUpEffect` | FreeRTOS/tasks.c:6099-6170 | the idle clean-up frees exactly the tasks on the termination list and changes no other |
| `Effects.DelayEffect` | FreeRTOS/tasks.c:8579-8656 | a delay puts the running task on the list of its deadline's true epoch, behind all that wake no later and before all that wake later, and lowers the next unblock time iff it wakes first in this epoch; without a timeout it goes to the suspended list |
| `Effects.WaitForEventEffect` | FreeRTOS/tasks.c:5296-5352 | a task that waits for an event does the same and is on the event list with the given item value |
| `Effects.EventEffect` | FreeRTOS/tasks.c:5394-5439 | the waiter is ready, or held pending while the scheduler is suspended, with a yield pended iff one was or it outranks the running task |
| `Effects.UnorderedEventEffect` | FreeRTOS/tasks.c:5487-5521 | the waiter gets its item value and is ready at once, though the scheduler is suspended |
| `Effects.ReadEventValueEffect` | FreeRTOS/tasks.c:7646-7661 | the item value is returned and becomes that of the task's priority again |
| `Effects.ControlEffect` | FreeRTOS/tasks.c:3837-3880 | suspending the scheduler nests, and a tick meanwhile is only counted |
| `Priorities.ReprioritiseKeeps` | FreeRTOS/tasks.c:2899-2957 | a priority change moves a ready task to the list of its new priority and keeps every other task and list |
| `Priorities.SetPriorityKeeps` | FreeRTOS/tasks.c:2796-2985 | vTaskPrioritySet keeps the invariant, the mutex count and every other task |
| `Effects.PrioritiseEffect` | FreeRTOS/tasks.c:2796-2985 | the base priority becomes the wanted one, capped; the effective one follows it iff it was the base priority or is lower than the new one; a ready task goes to the back of its list, and an item value in use stays |
| `Priorities.InheritKeeps` | FreeRTOS/tasks.c:6639-6735 | inheritance gives the holder the higher of the two priorities, and touches no base priority, mutex count, other task or event value in use |
| `Priorities.DisinheritKeeps` | FreeRTOS/tasks.c:6742-6827 | giving lowers the count by one and keeps the invariant, so the last give returns the task to its base priority |
| `Priorities.DisinheritAfterTimeoutKeeps` | FreeRTOS/tasks.c:6836-6950 | with one mutex held the holder falls exactly to the higher of its base and the highest waiting priority |
| `Effects.NotifyEffect` | FreeRTOS/tasks.c:7907-8020 | a notification is recorded as its action says, bit by bit, and a task that waits for it goes to the back of its ready list at once; nothing else changes |
| `Effects.NotifyInterruptEffect` | FreeRTOS/tasks.c:8027-8334 | from an interrupt a waiting task is readied, or while the scheduler is suspended held on the pending-ready list; in both cases a yield is pending afterwards iff one was or the task outranks the running one |
| `Effects.NotifiedIsWritten` | FreeRTOS/tasks.c:7932-7967 | bits are joined, a count goes up modulo 2^32, a value is overwritten, or not if a notification has been received already |
| `Effects.RefusedWhen` | FreeRTOS/tasks.c:7948-7960 | only a write without overwriting to a task with a received notification is refused, and then leaves the value |
| `Effects.StartTakeEffect` | FreeRTOS/tasks.c:7704-7740 | a task starts to wait for a count iff the count is 0 in the critical section |
| `Effects.StartWaitEffect` | FreeRTOS/tasks.c:7809-7840 | a task starts to wait iff no notification has been received, and only then clears the entry bits |
| `Effects.TakeEffect` | FreeRTOS/tasks.c:7757-7781 | a take returns the count that it finds and leaves one less, or 0 if it clears or finds 0; the task no longer waits |
| `Effects.WaitEffect` | FreeRTOS/tasks.c:7868-7895 | a wait reports success iff a notification was received, and only then clears the exit bits; the task no longer waits |
| `Effects.ClearEffect` | FreeRTOS/tasks.c:8341-8410 | clearing the state withdraws a received notification and stops no wait; clearing bits changes the value only |
| `Words.JoinOfBits` | FreeRTOS/tasks.c:7936-7938 | a word joined with another has exactly the bits of both |
| `Words.ClearOfBits` | FreeRTOS/tasks.c:8396-8401 | a word cleared by a mask has exactly its bits outside the mask |
| `NotifyRuns.WaiterSleeps` | FreeRTOS/tasks.c:7744-7756 | a waiting task that was not notified before it resumes the scheduler sleeps, and still waits, after the switch that follows |
| `NotifyRuns.LateNotification` | FreeRTOS/tasks.c:7907-8202 | a task that sleeps and waits for a notification sleeps on through any run of other steps before its deadline, and the first notification, from a task or an interrupt, readies it at once or holds it pending if an interrupt finds the scheduler suspended |
| `NotifyRuns.HeldUntilResumed` | FreeRTOS/tasks.c:4043-4075 | a task on the pending-ready list stays there through any run while the scheduler is suspended, unless it is suspended or deleted, and the resumption that ends the suspension readies it |
| `NotifyRuns.CountsAreConserved` | FreeRTOS/tasks.c:7691-7786 | over any run in which a value is only given and taken, value = initial + gives - consumed modulo 2^32 |
| `NotifyRuns.NoLostNotification` | FreeRTOS/tasks.c:7793-7900 | a task notified by an interrupt at any point between marking itself as waiting and resuming the scheduler is ready once the scheduler runs |
| `NotifyRuns.StaysPoised` | FreeRTOS/tasks.c:8067-8195 | through any ticks, event wake-ups, notifications and its own move to a delayed list, the waiting task is either unnotified or held pending |
| `Runs.TimeStepKeeps` | FreeRTOS/tasks.c:4011-4150 | a tick, a suspension or a resumption wakes exactly the tasks whose deadline it reaches and, on resumption, pending ones |
| `Runs.CallFrame` | FreeRTOS/tasks.c:2213-3435 | a call changes no task but the ones it concerns, no mutex count, and nobody else's notification value |
| `Runs.StepKeeps` | FreeRTOS/tasks.c:2041-8656 | every modelled call and interrupt keeps the scheduler's invariant |
| `Runs.AlwaysGood` | FreeRTOS/tasks.c:2041-8656 | in every state that a run of the modelled calls and interrupts reaches, each state item is on one list, ready tasks on that of their priority, delayed tasks on that of their epoch, and nothing is pending while the scheduler runs |
| `Sleeping.SleepsExactly` | FreeRTOS/tasks.c:4742-4856 | a task that blocks at T for w ticks sleeps until, and is ready from, exactly T + w, over any run without a step that really wakes, blocks, suspends or deletes it: priority changes, needless resumptions and notifications that it does not wait for are allowed |
| `Sleeping.BlockingSleeps` | FreeRTOS/tasks.c:8579-8656 | a delay, or a wait for an event, of finitely many ticks puts the task to sleep until now + w |
| `Sleeping.HolderSleepsExactly` | FreeRTOS/tasks.c:6639-6950 | over any run of the scheduler and its mutexes a sleeping task wakes at exactly its deadline, while it inherits and loses priorities as others block on its mutexes and time out |
| `Sleeping.MutexWaitSleeps` | FreeRTOS/queue.c:1786-1825 | a task that blocks on a held mutex is asleep until now + w |
| `Sleeping.SuspendedStaysOut` | FreeRTOS/tasks.c:3149-3435 | a suspended task stays suspended and is never switched in, over any run in which it is neither resumed nor deleted |
| `Preemption.TickSettles` | FreeRTOS/tasks.c:4742-4930 | a tick that asks for no switch leaves no ready task above the running one |
| `Preemption.ResumeSettles` | FreeRTOS/tasks.c:4030-4140 | a resume that pends no yield leaves no ready task above the running one, through the pended tasks and the replayed ticks |
| `Preemption.StepSettles` | FreeRTOS/tasks.c:2041-8656 | every modelled call, tick and interrupt either leaves no ready task above the running one, or pends or asks for a switch |
| `Preemption.SwitchSettles` | FreeRTOS/tasks.c:5109-5192 | a switch puts a task that no ready one outranks in charge, or is pended while the scheduler is suspended |
| `Preemption.NoMissedSwitch` | FreeRTOS/tasks.c:81-95 | over any run: no ready task outranks the running one, unless a switch is pending, or was asked for and has not been made |
| `Evolution.StepEvolves` | FreeRTOS/tasks.c:2213-3435 | a step ends a task only by its deletion or clean-up, puts it on an event list only by its own wait, changes no mutex count, moves no task that it does not disturb, and rewrites an event value in use only where the source does |
| `Population.LengthsSum` | FreeRTOS/tasks.c:6099-6170 | in every reachable state the list lengths sum to uxCurrentNumberOfTasks, and uxDeletedTasksWaitingCleanUp is the termination list's length |
| `Population.LengthsCountTasks` | FreeRTOS/tasks.c:2041-2115 | any selection of lists holds exactly as many items as there are tasks on them |
| `Population.StartsGood` | FreeRTOS/tasks.c:6067-6095 | the state that the scheduler starts in, with its idle task, satisfies the invariant of all runs |
| `SchedulerObject.Scheduler.ResetNextTaskUnblockTime` | FreeRTOS/tasks.c:6515-6533 | the cached unblock time becomes the head's wake time, or portMAX_DELAY |
| `SchedulerObject.Scheduler.AdvanceTickCount` | FreeRTOS/tasks.c:4742-4768 | the in-place increment, with the list switch on a wrap, computes the value model's step |
| `SchedulerObject.Scheduler.UnblockExpiredTasks` | FreeRTOS/tasks.c:4771-4856 | the in-place loop computes the value model's drain and its switch flag |
| `SchedulerObject.Scheduler.IncrementTick` | FreeRTOS/tasks.c:4725-4972 | the in-place tick computes the step whose exactness is proved |
| `SchedulerObject.Scheduler.MovePendingTasks` | FreeRTOS/tasks.c:4043-4075 | the loop over the pending-ready list computes the value model's step |
| `SchedulerObject.Scheduler.ReplayTicks` | FreeRTOS/tasks.c:4101-4131 | the replay loop computes the value model's replay |
| `SchedulerObject.Scheduler.ResumeAll` | FreeRTOS/tasks.c:4011-4150 | xTaskResumeAll computes the step of the value model and reports a yield iff one is pending |
| `SchedulerObject.Scheduler.SuspendAll` | FreeRTOS/tasks.c:3837-3880 | suspension nests by counting |
| `SchedulerObject.Scheduler.AddCurrentTaskToDelayedList` | FreeRTOS/tasks.c:8579-8656 | the in-place move computes the value model's blocking step |
| `SchedulerObject.Scheduler.RemoveFromEventList` | FreeRTOS/tasks.c:5394-5439 | the in-place wake-up computes the value model's step and reports whether the task outranks the running one |
| `SchedulerObject.Scheduler.GenericNotifyFromIsr` | FreeRTOS/tasks.c:8027-8202 | the in-place notification leaves the value that its action says; a waiting task is on the ready list of its priority afterwards, or pending while the scheduler is suspended; a yield is pending iff one was or such a task outranks the running one, and acceptance and wake-up are reported |
| `SchedulerObject.Scheduler.PrioritySet` | FreeRTOS/tasks.c:2796-2985 | the in-place change computes the value model's step |
| `SchedulerObject.Scheduler.PriorityInherit` | FreeRTOS/tasks.c:6639-6735 | the in-place inheritance computes the value model's step and result |
| `SchedulerObject.Scheduler.PriorityDisinherit` | FreeRTOS/tasks.c:6742-6827 | the in-place disinheritance computes the value model's step and result |
| `SchedulerObject.Scheduler.PriorityDisinheritAfterTimeout` | FreeRTOS/tasks.c:6836-6950 | the in-place disinheritance computes the value model's step |
| `SchedulerObject.Scheduler.SwitchContext` | FreeRTOS/tasks.c:5109-5192 | the search loop never reaches below priority 0 and computes the value model's switch |
| `SchedulerObject.Scheduler.CheckTasksWaitingTermination` | FreeRTOS/tasks.c:6099-6170 | the clean-up loop computes the value model's clean-up |
| `Mutexes.AlwaysGoodSystem` | FreeRTOS/queue.c:1659-1880 | over any run of take, give, wait, timeout and the steps of the scheduler, the mutex books are in order at every moment iff no task is deleted while it holds a mutex |
| `Mutexes.MutexBooks` | FreeRTOS/queue.c:1696-1717 | in every state reached without the deletion of a holder uxMutexesHeld is the number of mutexes naming the task, a held mutex has count 0 and a holder that is not deleted, base <= priority < configMAX_PRIORITIES, and a task that holds none runs at its base |
| `Mutexes.MutexStepKeeps` | FreeRTOS/queue.c:1659-1880 | a single step keeps the mutex books iff it is not the deletion of a holder |
| `Mutexes.KernelStepOwned` | FreeRTOS/tasks.c:2213-2359 | a step of the scheduler keeps the books iff it does not delete a task whose uxMutexesHeld is above 0: holders survive, and waiters leave only by waking |
| `Scenarios.HolderDeleted` | FreeRTOS/tasks.c:2213-2359 | from the first state: a task takes a mutex, is deleted, and the books are out of order |
| `Mutexes.TakeOwned` | FreeRTOS/queue.c:1690-1741 | a take succeeds iff the mutex is free, or is a recursive one that the running task holds; the running task is then the holder with a held count one higher iff it was not before, and the books are kept; a take that fails changes nothing |
| `MutexEffects.InheritEffect` | FreeRTOS/tasks.c:6639-6735 | the holder gets the running task's priority iff that is higher, in its place at the back of that ready list; inheritance is reported iff its base priority is lower, though it may have inherited before |
| `MutexEffects.DisinheritEffect` | FreeRTOS/tasks.c:6742-6827 | the giver holds one mutex less; iff that was the last and it runs above its base it goes to the back of the list of its base priority, and a switch is asked for |
| `MutexEffects.RelaxEffect` | FreeRTOS/tasks.c:6836-6950 | a holder of one mutex gets the higher of its base and the given priority, and any other stays as it is |
| `MutexEffects.GiveEffect` | FreeRTOS/queue.c:949-1073 | a give succeeds iff the running task holds the mutex; nested, it lowers the depth; otherwise it frees the mutex, ends inheritance and wakes the first waiter, and nothing else; a give that fails changes nothing |
| `MutexEffects.WaitEffect` | FreeRTOS/queue.c:1785-1825 | a waiter passes its priority on, joins the waiters before the first with a greater item value, and sleeps until its deadline |
| `MutexEffects.ExpireEffect` | FreeRTOS/queue.c:1838-1872 | the end of a timed-out wait relaxes the holder to what the first waiter's item value stands for, and changes nothing if nothing was inherited or the mutex is free |
| `MutexEffects.KernelStepEffect` | FreeRTOS/tasks.c:5394-5439 | a step of the scheduler takes from the waiters of a mutex exactly those that leave every event list, and keeps the others in order |
| `MutexEffects.OperationIs` | FreeRTOS/queue.c:1659-1880 | a new mutex is free, and the operations take no time |
| `Mutexes.GiveOwned` | FreeRTOS/queue.c:949-1073 | giving, recursively or for good, keeps the books |
| `Mutexes.GiveWakesFirst` | FreeRTOS/queue.c:1043-1060 | the give of a mutex with waiters frees it and wakes the first of them: ready at once, or pending until the scheduler is resumed |
| `Mutexes.WaitOwned` | FreeRTOS/queue.c:1785-1815 | inheriting and joining the waiters keeps the books |
| `Mutexes.ExpireOwned` | FreeRTOS/queue.c:1838-1872 | the end of a timed-out wait keeps the books, also if the mutex was given meanwhile or has passed to the waiter itself |
| `Mutexes.AssertionsHold` | FreeRTOS/queue.c:2368-2388 | the holder's count is positive and the highest waiting priority is below configMAX_PRIORITIES, as the source asserts and relies on |
| `Mutexes.GiveUndoesTake` | FreeRTOS/queue.c:1690-1717 | an uncontended take followed by a give restores the whole system, recursive or not |
| `Mutexes.WaitInherits` | FreeRTOS/tasks.c:6639-6735 | blocking on a held mutex leaves the holder at the higher of its own and the waiter's priority |
| `Mutexes.LastGiveRestores` | FreeRTOS/tasks.c:6742-6827 | giving the last mutex held ends all inheritance |
| `Mutexes.OperationsLeave` | FreeRTOS/tasks.c:6639-6950 | taking, giving, waiting and timing out move no task but the one they block or wake, and leave the event values of others alone that are in use |
| `MissedSwitches.GiveSettles` | FreeRTOS/queue.c:1043-1073 | a give leaves no ready task above the running one, or asks for or pends a switch, iff it does not both lower the running task and wake a waiter at or below its base while another ready task outranks that base |
| `MissedSwitches.MutexAsksWhen` | FreeRTOS/queue.c:1043-1073 | of the operations on mutexes only a wait, and a give that nobody waits for and that ends the giver's inheritance, ask for a switch |
| `MissedSwitches.ExpireSettles` | FreeRTOS/tasks.c:6836-6950 | the end of a timed-out wait does so iff it does not raise a ready holder above the running task |
| `MissedSwitches.SettledUnlessMissed` | FreeRTOS/queue.c:1659-1880 | over any run with mutexes in which no holder is deleted, no switch is missed at any moment iff neither of these two cases occurs |
| `MissedSwitches.SettledFromStart` | FreeRTOS/queue.c:1659-1880 | from the first state on: no switch is missed over a run iff neither case occurs, and at its end no ready task outranks the running one unless a switch is due |
| `Scenarios.GiveExample` | FreeRTOS/queue.c:1043-1073 | a run from the first state: a waiter is lowered while it waits, the holder gives, and a ready task of priority 2 waits while one of priority 1 runs, with no switch asked for or pending |
| `Scenarios.ExpireExample` | FreeRTOS/tasks.c:6836-6950 | a run from the first state: of two waiters one is raised and the other times out, and the holder is ready at priority 4 while a task of priority 3 runs, with no switch asked for or pending |
| `Snapshots.MaskSurvives` | FreeRTOS/tasks.c:6660-6668 | while a task waits on an unordered event list, its mask and control bits stay in its event item over any run, through inheritance and priority changes |
| `Snapshots.SnapshotIsRead` | FreeRTOS/tasks.c:7646-7661 | a task released with a snapshot reads exactly that snapshot when it next asks for its item value, however many steps later |
| `Mutexes.EnqueueKeepsOrder` | FreeRTOS/tasks.c:5296-5322 | waiters in priority order stay in it when a task joins them |
| `Mutexes.HeadIsHighest` | FreeRTOS/queue.c:2368-2388 | in priority order the head's value stands for the highest waiting priority |
| `Inheritance.StepRanks` | FreeRTOS/tasks.c:6639-6950 | which task a step gives another priority or item value, and which, for every task but one that gives a mutex: only a priority set, a read of the item value, inheritance and its end after a timeout do |
| `Inheritance.StepCovered` | FreeRTOS/tasks.c:6639-6950 | a step keeps every holder at or above all tasks that wait for its mutexes iff it gives no task a priority too low for its own waiters or too high for the holder that it waits for, and takes no free mutex past a higher waiter |
| `Inheritance.CoveredUnless` | FreeRTOS/queue.c:1659-1880 | over any run without the deletion of a holder, at every moment each holder runs at or above all tasks that wait for its mutexes iff no such step occurs |
| `WaitOrder.StepOrdered` | FreeRTOS/tasks.c:2796-2985 | a step keeps the waiters of every mutex in the order of their item values iff it gives no waiter a value outside those of its two neighbours |
| `WaitOrder.OrderedUnless` | FreeRTOS/queue.c:1659-1880 | over any run the waiters of all mutexes stay in order iff no such step occurs |
| `Scenarios.RaiseExample` | FreeRTOS/tasks.c:2796-2985 | a run from the first state on which raising a waiter lifts it above the holder and out of its place in the queue |
| `Population.StartsGoodSystem` | FreeRTOS/tasks.c:6067-6095 | the state that the scheduler starts in satisfies the mutex books |
| `Queues.AtIsModulo` | FreeRTOS/queue.c:303-326 | the pointer wrap is arithmetic modulo the queue length |
| `Queues.StoreSlot` | FreeRTOS/queue.c:2422-2436 | a copy into a slot changes that item and no other |
| `Queues.BackAppends` | FreeRTOS/queue.c:2422-2433 | send-to-back appends, and the write slot stays at read slot + count + 1 |
| `Queues.FrontPrepends` | FreeRTOS/queue.c:2435-2446 | send-to-front prepends and leaves the write slot alone |
| `Queues.OverwriteReplaces` | FreeRTOS/queue.c:2448-2465 | overwriting a queue of length 1 leaves exactly the new item, full or empty; without an item size it counts up |
| `Queues.OverwriteIsExact` | FreeRTOS/queue.c:2393-2472 | for every ring of length 1, an overwrite leaves a count within the length and exactly the new item iff the item size is not 0 or nothing was there |
| `Queues.OverwriteExample` | FreeRTOS/queue.c:2393-2472 | an overwritten binary semaphore that was given counts 2 |
| `Queues.ReceiveTakesHead` | FreeRTOS/queue.c:2476-2493 | receiving takes the oldest item off |
| `Queues.StepTakes` | FreeRTOS/queue.c:949-1060 | a post is accepted iff there is room or it overwrites; the next receive after a post to the front returns that item, one to the back comes last, and a receive takes exactly the oldest item |
| `Queues.FirstInFirstOut` | FreeRTOS/queue.c:949-1060 | over any run of sends to the back, receives and peeks, delivered then stored is initial then accepted |
| `Queues.Conserved` | FreeRTOS/queue.c:949-1060 | over any run without overwrites, sends to the front included, no item is lost, made or changed |
| `Queues.NeverOverfull` | FreeRTOS/queue.c:974-984 | over any run the count stays within the length, unless items without size are overwritten |
| `Queues.Queue.Execute` | FreeRTOS/queue.c:949-1560 | what the byte ring accepts, delivers and keeps over any run of sends to either end, overwrites, receives and peeks is what the deque does; first in, first out and conservation follow for the object |
| `Queues.Queue.constructor` | FreeRTOS/queue.c:502-560 | a new queue is empty |
| `Queues.Queue.Reset` | FreeRTOS/queue.c:303-326 | a reset empties the queue |
| `Queues.Queue.CopyDataToQueue` | FreeRTOS/queue.c:2393-2472 | the byte ring with its two pointers refines the deque for any length and item size |
| `Queues.Queue.CopyDataFromQueue` | FreeRTOS/queue.c:2476-2493 | the bytes at the advanced read pointer are the oldest item |
| `Queues.Queue.Send` | FreeRTOS/queue.c:974-1062 | an item is accepted iff there is room or it overwrites; it is then last, or first, or the only one (beside the others if items have no size); otherwise nothing changes |
| `Queues.Queue.Receive` | FreeRTOS/queue.c:1534-1560 | the oldest item is returned and removed iff there is one; otherwise nothing changes |
| `Queues.Queue.Peek` | FreeRTOS/queue.c:1906-1926 | the oldest item is returned and nothing changes |
| `QueueLocks.UnlockIsExact` | FreeRTOS/queue.c:2497-2614 | the unlock moves exactly min(k, waiters) tasks for k interrupts since the lock, on either side: the cap on the counts costs no wake-up |
| `QueueLocks.CountsFitInt8` | FreeRTOS/queue.c:274-300 | with at most 127 tasks the assertions on the 8-bit counts hold |
| `QueueLocks.StepCounts` | FreeRTOS/queue.c:1223-1320 | every step keeps the lock counts exact up to the cap |
| `QueueLocks.StepLosesNone` | FreeRTOS/queue.c:1605-1634 | a step keeps it true that each item (or free place) has a woken task on its way while others wait, also between the check for empty and the blocking, iff it is not a reset that leaves senders behind or the loss of a woken task that was needed |
| `QueueLocks.NoLostWakeUp` | FreeRTOS/queue.c:2497-2614 | over any interleaving no waiter is forgotten at any moment iff no step of those two kinds occurs; then, if the queue is unlocked and every woken task has run, a waiting receiver means an empty queue and a waiting sender one without a free place |
| `QueueLocks.AbandonExample` | FreeRTOS/tasks.c:3149-3305 | a woken receiver is suspended before it runs, and another one waits beside the item |
| `QueueLocks.ResetForgetsSenders` | FreeRTOS/queue.c:327-343 | a reset of a queue, which wakes one sender, forgets none iff at most one waits or enough are on their way |
| `QueueLocks.ResetExample` | FreeRTOS/queue.c:327-343 | two senders waiting on a full queue of two: after the reset one of them still waits on a queue with room |
| `QueueLocks.StartsFine` | FreeRTOS/queue.c:303-326 | a new queue satisfies the protocol's invariant |
| `QueueLocks.InterruptEffect` | FreeRTOS/queue.c:1167-1329 | an accepted post leaves one more message, unless it overwrites a sized one in a full queue, and puts one receiver on its way or, if the queue is locked, raises the lock count up to its cap; a receive likewise takes one off; what is refused changes nothing |
| `QueueLocks.TaskEffect` | FreeRTOS/queue.c:949-1073 | posts and receives by tasks do the same on an unlocked queue, also when a woken task tries again; a peek takes nothing off and puts another receiver on its way |
| `QueueLocks.LockEffect` | FreeRTOS/queue.c:258-268 | locking starts both counts at 0; a reset empties the queue and puts one sender on its way |
| `QueueLocks.BlockEffect` | FreeRTOS/queue.c:1605-1634 | a task blocks only if it found the queue empty, or full, under the lock; it joins the waiters and none leaves |
| `QueueLocks.UnlockEffect` | FreeRTOS/queue.c:2497-2614 | each unlock ends one count and puts exactly the waiters that it counted on their way, in order |
| `QueueLocks.LeaveEffect` | FreeRTOS/tasks.c:4796-4806 | a waiter that times out leaves its list and the others stay in order |
| `QueueLocks.MessagesBalance` | FreeRTOS/queue.c:949-1560 | over any run, locked or not: messages = initial + posts that add - receives - what resets drop |
| `QueueLocks.LockableQueue.SendFromIsr` | FreeRTOS/queue.c:1167-1329 | a post is accepted iff there is room or it overwrites; it then leaves one message more, unless it overwrites a sized one, and wakes the first receiver or, if the queue is locked, raises the count up to its cap; a refused post changes nothing |
| `QueueLocks.LockableQueue.ReceiveFromIsr` | FreeRTOS/queue.c:2039-2130 | a receive succeeds iff there is a message; it then takes one off and wakes the first sender, or is counted if the queue is locked; otherwise nothing changes |
| `QueueLocks.LockableQueue.LockQueue` | FreeRTOS/queue.c:258-268 | locking starts both counts at 0 |
| `QueueLocks.LockableQueue.UnlockForReceivers` | FreeRTOS/queue.c:2505-2582 | the loop releases receivers in order, as many as were counted and wait |
| `QueueLocks.LockableQueue.UnlockForSenders` | FreeRTOS/queue.c:2585-2613 | the loop releases senders in order, as many as were counted and wait |
| `StreamBuffers.LengthRoundTrip` | FreeRTOS/stream_buffer.c:1000-1026 | a stored length reads back as itself |
| `StreamBuffers.ParseFramed` | FreeRTOS/stream_buffer.c:1276-1328 | stored bytes parse as exactly the messages that were stored |
| `StreamBuffers.WriteAppends` | FreeRTOS/stream_buffer.c:1476-1519 | bytes written behind the stored ones are appended, across the wrap, and the stored ones stay |
| `StreamBuffers.WritesJoin` | FreeRTOS/stream_buffer.c:1000-1050 | the length write and the data write amount to one write of the frame |
| `StreamBuffers.ReadDrops` | FreeRTOS/stream_buffer.c:1522-1563 | moving the tail over bytes drops exactly these from the front |
| `StreamBuffers.MessageStepTakes` | FreeRTOS/stream_buffer.c:1000-1330 | a message is accepted iff it is not empty and its frame fits, and a fetch takes the oldest one iff it is not longer than the limit |
| `StreamBuffers.MessagesRoundTrip` | FreeRTOS/stream_buffer.c:1000-1050 | over any run of sends and receives messages come out whole and in order, refused operations change nothing, and what is stored parses as the rest |
| `StreamBuffers.StreamBuffer.Execute` | FreeRTOS/stream_buffer.c:1000-1330 | what the ring of bytes accepts, delivers and keeps over any such run is exactly that of the message run at its capacity, and its bytes parse as the messages left |
| `StreamBuffers.StreamBuffer.BytesInBuffer` | FreeRTOS/stream_buffer.c:1566-1584 | the count of stored bytes from the two indices |
| `StreamBuffers.StreamBuffer.SpacesAvailable` | FreeRTOS/stream_buffer.c:754-788 | the free space: one less than the length minus the stored bytes |
| `StreamBuffers.StreamBuffer.WriteBytes` | FreeRTOS/stream_buffer.c:1476-1519 | the two copies write the data round the ring and nothing else |
| `StreamBuffers.StreamBuffer.ReadBytes` | FreeRTOS/stream_buffer.c:1522-1563 | the two copies read the bytes round the ring |
| `StreamBuffers.StreamBuffer.WriteMessage` | FreeRTOS/stream_buffer.c:1000-1050 | with a space sampled earlier, a stream takes what fits and a message buffer all or nothing |
| `StreamBuffers.StreamBuffer.Send` | FreeRTOS/stream_buffer.c:808-932 | a stream accepts min(length, space) bytes; a message is stored whole iff it fits with its length |
| `StreamBuffers.StreamBuffer.ReadMessage` | FreeRTOS/stream_buffer.c:1276-1328 | a stream yields min(limit, available) bytes; a message longer than the limit stays |
| `StreamBuffers.StreamBuffer.Receive` | FreeRTOS/stream_buffer.c:1053-1162 | the first message is returned whole iff it fits the caller's buffer; otherwise nothing changes |
| `StreamBuffers.StreamBuffer.NextMessageLength` | FreeRTOS/stream_buffer.c:1169-1210 | the length that the next receive returns, and the assertion on a non-empty remainder holds |
| `StreamRuns.SamplesAreExact` | FreeRTOS/stream_buffer.c:754-788 | each party's computation from both indices is the true space, or the true count, at that moment |
| `StreamRuns.StepIs` | FreeRTOS/stream_buffer.c:754-788 | each sample is the free space, or the count, at its moment; a write or read then begins with as much of it as it may take, all or nothing for a frame |
| `StreamRuns.CopyIs` | FreeRTOS/stream_buffer.c:1476-1563 | each copied byte goes to, or comes from, its place in the stream, and publishing an index accepts, or delivers, exactly the bytes copied |
| `StreamRuns.WriteThrough` | FreeRTOS/stream_buffer.c:1000-1050 | an uninterrupted write appends exactly as many bytes as fit, or all or nothing |
| `StreamRuns.ReadThrough` | FreeRTOS/stream_buffer.c:1276-1328 | an uninterrupted read delivers exactly the oldest bytes up to the limit |
| `StreamRuns.StepKeeps` | FreeRTOS/stream_buffer.c:1476-1563 | sampling, copying one byte and publishing, by either party, keep every stored byte in its place |
| `StreamRuns.DeliveredIsPrefix` | FreeRTOS/stream_buffer.c:1000-1050 | however writer and reader interleave, the bytes delivered are a prefix of the bytes accepted, and the rest is stored |
| `StreamRuns.RegionsNeverOverlap` | FreeRTOS/stream_buffer.c:1476-1563 | no byte being written is one that may be being read |
| `MessageRuns.StartsWhole` | FreeRTOS/stream_buffer.c:331-417 | a new message buffer satisfies the invariant of such runs |
| `MessageRuns.ReadOnIs` | FreeRTOS/stream_buffer.c:1276-1328 | with the length in hand, the reader goes on to the whole next message iff it is not longer than the limit |
| `MessageRuns.SendThrough` | FreeRTOS/stream_buffer.c:1000-1050 | an uninterrupted send publishes its message whole iff the frame fits, and otherwise nothing |
| `MessageRuns.FetchThrough` | FreeRTOS/stream_buffer.c:1276-1328 | an uninterrupted receive takes the next message off whole iff it is not longer than the limit, and otherwise leaves it |
| `MessageRuns.TalkKeeps` | FreeRTOS/stream_buffer.c:1276-1328 | every step of a writer of whole frames and a reader of lengths and data keeps published and consumed bytes those of whole messages |
| `MessageRuns.MessagesStayWhole` | FreeRTOS/stream_buffer.c:1000-1050 | however writer and reader interleave byte by byte, the messages taken are a prefix of those published, and the bytes between tail and head parse as exactly the rest |
| `EventGroups.ItemValueSplits` | FreeRTOS/event_groups.c:373-394 | control bits and mask survive in one item value, and the walk judges a waiter by the condition it asked for |
| `EventGroups.WalkPartitions` | FreeRTOS/event_groups.c:572-629 | exactly the waiters whose condition holds are released, all with one snapshot, and exactly the others stay |
| `EventGroups.ReleaseSatisfies` | FreeRTOS/event_groups.c:600-620 | the snapshot that a released task returns satisfies its own condition |
| `EventGroups.TestIsMet` | FreeRTOS/event_groups.c:778-812 | a condition is met iff all bits of the mask are set, or some bit is |
| `EventGroups.SetLeaves` | FreeRTOS/event_groups.c:600-640 | after a set a bit is there iff it was there or is being set, and no waiter with a met condition asked to clear it on exit |
| `EventGroups.WaitLeaves` | FreeRTOS/event_groups.c:338-394 | a wait is met iff its condition is; it then clears exactly its mask, if asked to, and otherwise changes no bit and joins the list iff it blocks |
| `EventGroups.TimeoutLeaves` | FreeRTOS/event_groups.c:423-450 | a timed-out wait clears exactly its mask iff it asked to and its condition is met after all |
| `EventGroups.SyncLeaves` | FreeRTOS/event_groups.c:205-248 | the completing call leaves no bit of the mask, any other only those that a set leaves |
| `EventGroups.SetKeeps` | FreeRTOS/event_groups.c:547-647 | after setting bits nobody on the list has a satisfied condition |
| `EventGroups.JoinKeeps` | FreeRTOS/event_groups.c:368-394 | a task joins the list only with an unsatisfied condition |
| `EventGroups.SyncKeeps` | FreeRTOS/event_groups.c:185-248 | after a rendezvous call nobody on the list has a satisfied condition |
| `EventGroups.SyncRendezvous` | FreeRTOS/event_groups.c:205-248 | a call completes the rendezvous iff every mask bit has arrived since the last completion; it then releases all participants in one walk and leaves the mask cleared; any other call releases nobody and joins the waiters iff it blocks |
| `EventGroups.RendezvousIsExact` | FreeRTOS/event_groups.c:205-300 | over any run of calls and timeouts exactly the calls that bring the last missing bits return through the bits-set path, and in the end exactly those wait who came since and did not withdraw |
| `EventGroups.StartsBarrier` | FreeRTOS/event_groups.c:145-180 | a new group satisfies the invariant of the rendezvous |
| `EventGroups.EventGroup.ClearBits` | FreeRTOS/event_groups.c:472-501 | clearing keeps all waiters waiting |
| `EventGroups.EventGroup.SetBits` | FreeRTOS/event_groups.c:547-647 | the walk that removes while it goes releases exactly the matching waiters; afterwards a bit is set iff it was or is being set, and no released waiter asked to clear it on exit |
| `EventGroups.EventGroup.WaitBits` | FreeRTOS/event_groups.c:312-436 | a met condition returns at once, clearing exactly its mask if asked to; otherwise the task joins the list or gives up and no bit changes |
| `EventGroups.EventGroup.EndWait` | FreeRTOS/event_groups.c:416-461 | a released task returns its snapshot; a timed-out one the current bits, clearing them if they came after all |
| `EventGroups.EventGroup.Sync` | FreeRTOS/event_groups.c:185-248 | the call completes the rendezvous iff the mask is then complete, and returns and leaves the bits that SyncLeaves says |
| `EventGroups.EventGroup.Leave` | FreeRTOS/tasks.c:4796-4806 | a waiter that times out leaves the others waiting |
| `Timers.ExpiryIsExact` | FreeRTOS/timers.c:890-931 | for command time C <= now N < C + 2^32 and 0 < P < 2^32 the wrapped test is true iff C + P <= N, and otherwise picks the list of the expiry's own epoch |
| `Timers.BacklogIs` | FreeRTOS/timers.c:695-711 | the reload loop makes floor((N - expired) / P) callbacks and leaves the next expiry in (N, N + P], in phase |
| `Timers.TimerDaemon.InsertTimerInActiveList` | FreeRTOS/timers.c:890-931 | the timer has expired iff C + P <= N; otherwise it is on the sorted list of its epoch |
| `Timers.TimerDaemon.ReloadTimer` | FreeRTOS/timers.c:695-711 | the loop ends, with one callback for each missed expiry |
| `Timers.TimerDaemon.ProcessExpiredTimer` | FreeRTOS/timers.c:714-741 | the head is called back, once for each missed expiry and once more; it is reloaded in phase, or made inactive, with all its other fields kept, and no other timer changes |
| `Timers.TimerDaemon.CallbacksMatchExpiries` | FreeRTOS/timers.c:695-741 | whatever timers are processed, a reload timer's expiry advances by its period times the number of its callbacks: none is lost or made twice |
| `Timers.TimerDaemon.SwitchTimerLists` | FreeRTOS/timers.c:1089-1112 | the loop ends; exactly the timers left over are processed, as at the last tick of the epoch, their callbacks come in the order of the list, no other timer changes, and the lists then hold the new epoch and the next |
| `Timers.SwitchesMatchEpochs` | FreeRTOS/timers.c:867-888 | the switches made for two samples match the epochs passed iff less than 2^32 ticks lie between them, also if an epoch was never missed |
| `Timers.SampleMissesEpoch` | FreeRTOS/timers.c:867-888 | samples at the last ticks of two successive epochs: no switch |
| `Timers.TimerDaemon.EpochIsFixed` | FreeRTOS/timers.c:890-931 | the lists are in order at one epoch only, unless both are empty: then at every epoch |
| `Timers.TimerDaemon.SampleTimeNow` | FreeRTOS/timers.c:867-888 | for any later time of the sample: the lists are then those of the true epoch iff less than 2^32 ticks passed, or both lists were empty, or the switch empties them; a switch is made iff the count went back, and then processes exactly the current list, and otherwise nothing changes |
| `Timers.TimerDaemon.GetNextExpireTime` | FreeRTOS/timers.c:840-865 | the head's expiry, or 0 for an empty list |
| `Timers.TimerDaemon.ProcessTimerOrBlock` | FreeRTOS/timers.c:778-838 | the daemon switches the lists, or processes exactly the head if it has expired, or blocks; it blocks only if nothing has expired, and then exactly until the next expiry or the wrap, for ever iff both lists are empty, and for 0 ticks at tick 0 with only the overflow list filled |
| `Timers.TimerDaemon.StartTimer` | FreeRTOS/timers.c:995-1026 | a start counts from the time it was sent: the timer is active with expiry command time + period, or, if that has passed, is called back for each expiry since, and reloaded in phase or inactive |
| `Timers.TimerDaemon.HandleCommand` | FreeRTOS/timers.c:995-1078 | start, reset, stop, period change and deletion take effect at their true times on their own timer, whose other fields stay, and on no other |
| `Timers.TimerDaemon.ProcessCommand` | FreeRTOS/timers.c:952-1078 | a command first takes a sample, which processes exactly the other active timers of the ending epoch in the order of their expiry if the count went back, and then takes effect at its true time on its own timer only; it may come any time after the last sample if no other timer is listed |
| `Timers.TimerDaemon.ProcessReceivedCommands` | FreeRTOS/timers.c:934-1083 | each command of a batch takes effect in turn at its own true time, from the books of one moment to those of the next, and the books stay in order |
| `Timers.TimerDaemon.Create` | FreeRTOS/timers.c:417-446 | a created timer is dormant |
| `TimeOuts.ReportIsExactWhen` | FreeRTOS/tasks.c:5587-5653 | within 2^32 wraps the report is right iff not (more than one wrap, count behind the entry's, and wait not gained); a reported timeout leaves no ticks and the entry, any other check what is left and a new entry |
| `TimeOuts.CheckKeepsDeadline` | FreeRTOS/tasks.c:5587-5653 | with at most one wrap a timeout is reported iff the elapsed time reaches the wait, and otherwise entry time + wait stays the same |
| `TimeOuts.RetriesKeepDeadline` | FreeRTOS/tasks.c:5587-5653 | the first check of a retry loop to report a timeout is the first at or after the original deadline |
| `TimeOuts.ForeverNeverTimesOut` | FreeRTOS/tasks.c:5612-5622 | a wait of portMAX_DELAY never times out, and no check changes it or its entry |
| `TimeOuts.TwoWrapsFoolTheCheck` | FreeRTOS/tasks.c:5624-5648 | after two wraps a long expired wait can be reported as not timed out |
| `TimeOuts.TimeOut.CheckForTimeOut` | FreeRTOS/tasks.c:5587-5653 | the in-place check computes the value model |
| `Clock.Differences` | FreeRTOS/timers.c:899-908 | the wrapping difference of two counts less than 2^32 ticks apart is the true one |

## Left out

- Multi-core scheduling, MPU, tickless idle, queue sets, delay aborts, thread-local storage, tracing
  and run-time statistics: switched off in this configuration.
- The port layer: a critical section is one step, a requested yield is a flag, and the context switch
  itself is the choice of the next task. The port-optimised task selection uses macros of the port,
  which is not part of this model.
- Task names, stacks, handles and allocation: a task is a number that is in use or not; creation and
  the creation of kernel objects are modelled as succeeding.
- The TCBs and the scheduler's lists are values in maps in `SchedulerObject`, not objects linked
  through `ListHeap`; aliasing between them is what `ListHeap.MoveItem` and `ListHeap.DisjointLists`
  cover.
- The calls of `tasks.c` without loops that are not methods of `SchedulerObject` (task suspension,
  creation, deletion, notification from a task) are steps on values only.
- Notifications: one index of the notification array; the previous values that the calls report beside
  their result are left out.
- Mutexes.MutexBooks: is about runs without the deletion of a holder; `Mutexes.AlwaysGoodSystem` proves
  that the books are kept in exactly these runs. A timed-out waiter that is itself the holder and whose
  priority would fall is excluded, as the source asserts.
- Mutexes: the operations are steps on values; what they do to the scheduler in place is in
  `SchedulerObject` (inheritance, disinheritance, event lists).
- QueueLocks: the items themselves are left to `Queues`; the two meet in the message count.
- StreamBuffers: `size_t` is unbounded, so buffers of 2^31 bytes or more, where the sum of length and
  index could wrap, are outside the model; waiting, trigger levels, batching buffers, reset and the
  completion callbacks are left out, and a blocking call is its last attempt with the space or count
  that it sampled.
- StreamRuns: index reads and writes are atomic and in program order.
- EventGroups: the deletion of a group, and setting and clearing from interrupts, which posts a call
  to the timer daemon.
- Timers: user callbacks are entries of a log; pended function calls, static storage other than for
  deletion, and the reload-mode setter are left out. Commands arrive with the time they were posted.
- Timers.TimerDaemon.ProcessReceivedCommands: between two commands of one batch less than 2^32 ticks
  pass; before the first one any time may pass as far as `Timers.TimerDaemon.SampleTimeNow` allows.
- Sleeping.SleepsExactly: is about deadlines of delays and event waits; `xTaskDelayUntil` and
  `xTaskCatchUpTicks` are left out as compositions of modelled steps.
- Preemption.NoMissedSwitch: a yield that a call makes in place, and a switch that the tick handler asks
  for, are remembered until the next switch; that the port makes it is not part of this model.
  `vTaskMissedYield` only repeats a yield that is pended already.
- `vTaskStartScheduler` is the state it leaves (`Population.StartsGood`); `vTaskEndScheduler` is left out.
- Counting semaphores and binary semaphores are queues with item size 0; their give from an interrupt
  is the send of `QueueLocks`.
- `croutine.c`, `heap_1.c` and `atomic.h`: a second, simpler delayed list, a bump allocator and one-line
  critical sections would add only easy members.
- The application, its drivers and lwIP: hardware access and code whose implementation is not here.
