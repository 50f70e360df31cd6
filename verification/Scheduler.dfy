/** The kernel's state as tasks.c keeps it: file-static variables, updated in
    place by loops. Each method is proved to compute the step of the value
    model, so that everything proved of those steps and of their runs holds of
    the methods. */
module SchedulerObject {
  import opened Lists
  import opened Kernel
  import opened Ticks
  import opened Suspension
  import opened Tasks
  import opened Lifecycle
  import opened Notify
  import opened Priorities
  import Effects

  class Scheduler {
    var tcbs: map<TaskId, Tcb>
    var lists: map<ListId, ListV<TaskId>>
    var pending: seq<TaskId>           // xPendingReadyList
    var current: TaskId                // pxCurrentTCB
    const idle: TaskId                 // xIdleTaskHandles[ 0 ]
    var firstIsCurrent: bool           // pxDelayedTaskList == &xDelayedTaskList1
    var tick: nat                      // xTickCount
    var overflows: nat                 // xNumOfOverflows
    var nextUnblock: nat               // xNextTaskUnblockTime
    var pendedTicks: nat               // xPendedTicks
    var suspendCount: nat              // uxSchedulerSuspended
    var topReady: nat                  // uxTopReadyPriority
    var yieldPending: bool             // xYieldPendings[ 0 ]
    var taskCount: nat                 // uxCurrentNumberOfTasks
    var deletedCount: nat              // uxDeletedTasksWaitingCleanUp

    function Value(): State
      reads this
    {
      State(tcbs, lists, pending, current, idle, firstIsCurrent, tick, overflows, nextUnblock,
            pendedTicks, suspendCount, topReady, yieldPending, taskCount, deletedCount)
    }

    ghost predicate Valid()
      reads this
    {
      Placed(Value()) && PendingKnown(Value()) && FineTcbs(tcbs) && current in tcbs
    }

    // ----- moving items ---------------------------------------------------------------

    function DelayedTaskList(): ListId
      reads this
    {
      if firstIsCurrent then Delayed1 else Delayed2
    }

    function OverflowDelayedTaskList(): ListId
      reads this
    {
      if firstIsCurrent then Delayed2 else Delayed1
    }

    /** uxListRemove on the state item, then vListInsertEnd on list l */
    method MoveStateItem(t: TaskId, l: ListId)
      requires Placed(Value()) && t in tcbs && IsList(l)
      modifies `tcbs, `lists
      ensures Value() == MoveToEnd(old(Value()), t, l)
    {
      hide Placed;
      ghost var k := Value();
      RelinkRoom(k, t, l);
      AllLists(k, tcbs[t].list) by { PlacedTaskList(k, t); }
      lists := lists[tcbs[t].list := Remove(lists[tcbs[t].list], t)];
      lists := lists[l := InsertEnd(lists[l], t)];
      tcbs := tcbs[t := tcbs[t].(list := l)];
    }

    /** uxListRemove on the state item, then vListInsert on list l */
    method InsertStateItem(t: TaskId, l: ListId, wake: nat)
      requires Placed(Value()) && t in tcbs && IsList(l)
      modifies `tcbs, `lists
      ensures Value() == MoveSorted(old(Value()), t, l, wake)
    {
      hide Placed;
      tcbs := tcbs[t := tcbs[t].(wake := wake)];
      ghost var k := Value();
      assert k == WithTcb(old(Value()), t, old(tcbs[t]).(wake := wake));
      RelinkRoom(k, t, l);
      AllLists(k, tcbs[t].list) by { PlacedTaskList(k, t); }
      UnlinkedKnown(k, t, l);
      lists := lists[tcbs[t].list := Remove(lists[tcbs[t].list], t)];
      var keys := Kernel.Keys(tcbs, lists[l].items);
      lists := lists[l := InsertAt(lists[l], InsertPosition(keys, wake), t)];
      tcbs := tcbs[t := tcbs[t].(list := l)];
    }

    /** listREMOVE_ITEM on the event item, if it is on a list */
    method RemoveEventItem(t: TaskId)
      requires t in tcbs
      modifies `tcbs, `pending
      ensures Value() == ClearEvent(old(Value()), t)
    {
      if t in pending {
        pending := Remove(ListV(pending, 0), t).items;
      }
      tcbs := tcbs[t := tcbs[t].(event := Nowhere)];
    }

    /** listREMOVE_ITEM, then prvAddTaskToReadyList */
    method AddTaskToReadyList(t: TaskId)
      requires Placed(Value()) && t in tcbs && tcbs[t].priority < MAX_PRIORITIES
      modifies `tcbs, `lists, `topReady
      ensures Value() == MakeReady(old(Value()), t)
    {
      hide Placed, MoveToEnd;
      ghost var k := Value();
      TopIsFree(k, HighestOf(k.topReady, k.tcbs[t].priority));
      if tcbs[t].priority > topReady {
        topReady := tcbs[t].priority;
      }
      MoveStateItem(t, Ready(tcbs[t].priority));
    }

    /** Both items of a task leave their lists, and it becomes ready. */
    method UnblockTask(t: TaskId)
      requires Placed(Value()) && FineTcbs(tcbs) && t in tcbs
      modifies `tcbs, `lists, `topReady, `pending
      ensures Value() == Awaken(old(Value()), t)
    {
      hide Placed, MakeReady;
      RemoveEventItem(t);
      AddTaskToReadyList(t);
    }

    // ----- ticks ------------------------------------------------------------------------

    /** prvResetNextTaskUnblockTime */
    method ResetNextTaskUnblockTime()
      requires Placed(Value())
      modifies `nextUnblock
      ensures Value() == ResetNextUnblock(old(Value()))
    {
      var list := lists[DelayedTaskList()].items;
      if list == [] {
        nextUnblock := MAX_DELAY;
      } else {
        assert list[0] in list;
        nextUnblock := tcbs[list[0]].wake;
      }
    }

    /** The increment, with taskSWITCH_DELAYED_LISTS when the count wraps */
    method AdvanceTickCount()
      requires Placed(Value())
      modifies `tick, `firstIsCurrent, `overflows, `nextUnblock
      ensures Value() == AdvanceTick(old(Value()))
    {
      hide Placed, ResetNextUnblock;
      ghost var k := Value();
      tick := (tick + 1) % TICK_MODULUS;
      TickFree(k, tick);
      if tick == 0 {
        firstIsCurrent := !firstIsCurrent;
        overflows := (overflows + 1) % TICK_MODULUS;
        SwitchFree(k, overflows);
        ResetNextTaskUnblockTime();
      }
    }

    /** The loop of xTaskIncrementTick */
    method UnblockExpiredTasks() returns (switchRequired: bool)
      requires Placed(Value()) && FineTcbs(tcbs) && current in tcbs
      modifies `tcbs, `lists, `topReady, `pending, `nextUnblock
      ensures (Value(), switchRequired) == Drain(old(Value()))
    {
      hide Placed, FineTcbs, Awaken, ClearEvent, Drain, Remove;
      ghost var start := Value();
      switchRequired := false;
      CurrentListGives(start);
      while true
        invariant DelayedTaskList() in lists
        invariant Placed(Value()) && FineTcbs(tcbs) && current in tcbs
        invariant Drain(start) == (Drain(Value()).0, switchRequired || Drain(Value()).1)
        decreases |lists[DelayedTaskList()].items|
      {
        ghost var k := Value();
        DrainUnfolds(k);
        CurrentListGives(k);
        if lists[DelayedTaskList()].items == [] {
          nextUnblock := MAX_DELAY;
          return;
        }
        var t := lists[DelayedTaskList()].items[0];
        if tick < tcbs[t].wake {
          nextUnblock := tcbs[t].wake;
          return;
        }
        RemoveShortens(k, t);
        if tcbs[t].priority > tcbs[current].priority {
          switchRequired := true;
        }
        UnblockTask(t);
        assert current in tcbs.Keys;
      }
    }

    /** xTaskIncrementTick */
    method IncrementTick() returns (switchRequired: bool)
      requires Placed(Value()) && FineTcbs(tcbs) && current in tcbs
      modifies this
      ensures (Value(), switchRequired) == Suspension.IncrementTick(old(Value()))
    {
      hide Placed, FineTcbs, Drain, AdvanceTick, SharesPriority;
      ghost var k := Value();
      switchRequired := false;
      if suspendCount == 0 {
        AdvanceTickCount();
        assert Value() == AdvanceTick(k) && current in tcbs;
        if tick >= nextUnblock {
          switchRequired := UnblockExpiredTasks();
        }
        assert current in tcbs.Keys;
        var priority := tcbs[current].priority;
        CurrentGives(Value());
        if |lists[Ready(priority)].items| > 1 {
          switchRequired := true;
        }
        if yieldPending {
          switchRequired := true;
        }
      } else {
        pendedTicks := (pendedTicks + 1) % TICK_MODULUS;
      }
    }

    // ----- suspending the scheduler ---------------------------------------------------------

    /** vTaskSuspendAll */
    method SuspendAll()
      modifies `suspendCount
      ensures Value() == Suspension.SuspendAll(old(Value()))
    {
      suspendCount := suspendCount + 1;
    }

    /** The loop of xTaskResumeAll that empties xPendingReadyList */
    method MovePendingTasks() returns (moved: bool)
      requires Valid()
      modifies `tcbs, `lists, `topReady, `pending, `yieldPending
      ensures Valid() && Value() == MovePending(old(Value())) && moved == (old(pending) != [])
    {
      hide Placed, FineTcbs, PendingKnown, Awaken, MoveOne, MovePending;
      ghost var start := Value();
      moved := false;
      while pending != []
        invariant Valid() && MovePending(start) == MovePending(Value())
        invariant moved || pending == start.pending
        invariant moved ==> start.pending != []
        decreases |pending|
      {
        ghost var k := Value();
        var t := pending[0];
        PendingGives(k);
        MoveOneIs(k);
        var higher := tcbs[t].priority > tcbs[current].priority;
        UnblockTask(t);
        if higher {
          yieldPending := true;
        }
        moved := true;
        assert current in tcbs.Keys;
        MovePendingUnfolds(k);
      }
      MovePendingUnfolds(Value());
    }

    /** The loop of xTaskResumeAll that replays the pended ticks */
    method ReplayTicks()
      requires Placed(Value()) && FineTcbs(tcbs) && current in tcbs && suspendCount == 0
      modifies this
      ensures Value() == ClearPended(Replay(old(Value()), old(pendedTicks)))
    {
      hide Placed, FineTcbs, TickNow;
      ghost var start := Value();
      var count := pendedTicks;
      while count > 0
        invariant Placed(Value()) && FineTcbs(tcbs) && current in tcbs && suspendCount == 0
        invariant Replay(start, start.pendedTicks) == Replay(Value(), count)
      {
        ghost var k := Value();
        var switchRequired := IncrementTick();
        assert (Value(), switchRequired) == TickNow(k);
        if switchRequired {
          yieldPending := true;
        }
        assert Value() == PendYield(TickNow(k).0, TickNow(k).1);
        assert current in tcbs.Keys;
        count := count - 1;
      }
      pendedTicks := 0;
    }

    /** xTaskResumeAll; it reports whether a yield was due and made. */
    method ResumeAll() returns (alreadyYielded: bool)
      requires Valid() && suspendCount > 0
      modifies this
      ensures Value() == Suspension.ResumeAll(old(Value()))
      ensures alreadyYielded == (old(suspendCount) == 1 && old(taskCount) > 0 && yieldPending)
    {
      hide Placed, FineTcbs, PendingKnown, MovePending, Replay, ResetNextUnblock, Released;
      ghost var k := Value();
      alreadyYielded := false;
      suspendCount := suspendCount - 1;
      ghost var k1 := Value();
      UnsuspendKnown(k);
      if suspendCount == 0 {
        if taskCount > 0 {
          var moved := MovePendingTasks();
          if moved {
            ResetNextTaskUnblockTime();
          }
          ReleasedIs(k1);
          assert Value() == Released(k1);
          assert current in tcbs.Keys;
          ReplayTicks();
          alreadyYielded := yieldPending;
        }
      }
    }

    // ----- blocking and waking -----------------------------------------------------------------

    /** prvAddCurrentTaskToDelayedList */
    method AddCurrentTaskToDelayedList(ticksToWait: nat, canBlockIndefinitely: bool)
      requires Placed(Value()) && current in tcbs
      modifies `tcbs, `lists, `nextUnblock
      ensures Value() == Block(old(Value()), ticksToWait, canBlockIndefinitely)
    {
      hide Placed, MoveToEnd, MoveSorted;
      var constTick := tick;
      if ticksToWait == MAX_DELAY && canBlockIndefinitely {
        MoveStateItem(current, Suspended);
      } else {
        var timeToWake := (constTick + ticksToWait) % TICK_MODULUS;
        if timeToWake < constTick {
          InsertStateItem(current, OverflowDelayedTaskList(), timeToWake);
        } else {
          InsertStateItem(current, DelayedTaskList(), timeToWake);
          if timeToWake < nextUnblock {
            nextUnblock := timeToWake;
          }
        }
      }
    }

    /** xTaskRemoveFromEventList, for the task at the head of the event list */
    method RemoveFromEventList(t: TaskId) returns (higher: bool)
      requires Placed(Value()) && FineTcbs(tcbs) && t in tcbs && current in tcbs
      modifies `tcbs, `lists, `topReady, `pending, `yieldPending
      ensures Value() == EventWake(old(Value()), t)
      ensures higher <==> old(tcbs[t]).priority > old(tcbs[current]).priority
      ensures yieldPending == (old(yieldPending) || higher)
      ensures t in tcbs
      ensures if suspendCount == 0 then tcbs[t].list == Ready(old(tcbs[t]).priority) && tcbs[t].event == Nowhere
              else tcbs[t].event == OnPendingReady && t in pending
    {
      hide Placed, FineTcbs, Awaken;
      EventWoken(Value(), t);
      ghost var k := Value();
      higher := tcbs[t].priority > tcbs[current].priority;
      if suspendCount == 0 {
        UnblockTask(t);
      } else {
        RemoveEventItem(t);
        pending := pending + [t];
        tcbs := tcbs[t := tcbs[t].(event := OnPendingReady)];
      }
      if higher {
        yieldPending := true;
      }
    }

    /** xTaskGenericNotifyFromISR and vTaskGenericNotifyGiveFromISR */
    method GenericNotifyFromIsr(t: TaskId, action: Action) returns (accepted: bool, woken: bool)
      requires Placed(Value()) && FineTcbs(tcbs) && t in tcbs && current in tcbs
      modifies `tcbs, `lists, `topReady, `pending, `yieldPending
      ensures Value() == NotifyFromIsr(old(Value()), t, action)
      ensures accepted <==> (action.NoOverwrite? ==> old(tcbs[t]).notify != Received)
      ensures woken <==> old(tcbs[t]).notify == Waiting && old(tcbs[t]).priority > old(tcbs[current]).priority
      ensures yieldPending == (old(yieldPending) || woken)
      ensures t in tcbs && tcbs[t].notify == Received
      ensures Effects.Written(old(tcbs[t]), action, tcbs[t].notified)
      ensures old(tcbs[t]).notify == Waiting ==>
                if suspendCount == 0 then
                  && tcbs[t].list == Ready(old(tcbs[t]).priority)
                  && tcbs[t].list in lists && t in lists[tcbs[t].list].items
                else tcbs[t].event == OnPendingReady && t in pending
    {
      hide Placed, FineTcbs, MakeReady, Notified, Effects.Written;
      accepted, woken := Accepted(tcbs[t], action), false;
      var original, higher := tcbs[t].notify, tcbs[t].priority > tcbs[current].priority;
      ghost var k := Value();
      FineOne(tcbs, t);
      Effects.NotifiedIsWritten(tcbs[t], action);
      ReadyNow(Record(k, t, action), t);
      tcbs := tcbs[t := tcbs[t].(notify := Received, notified := Notified(tcbs[t], action))];
      assert Value() == Record(k, t, action);
      if original == Waiting {
        if suspendCount == 0 {
          AddTaskToReadyList(t);
        } else {
          pending := pending + [t];
          tcbs := tcbs[t := tcbs[t].(event := OnPendingReady)];
        }
        if higher {
          woken, yieldPending := true, true;
        }
      }
    }

    // ----- priorities ------------------------------------------------------------------------

    /** Stores priority fields; a ready task moves to its new list. */
    method StorePriorities(t: TaskId, c: Tcb)
      requires Placed(Value()) && t in tcbs && c.list == tcbs[t].list && c.priority < MAX_PRIORITIES
      modifies `tcbs, `lists, `topReady
      ensures Value() == Reprioritise(old(Value()), t, c)
    {
      hide Placed, MakeReady;
      var usedOnEntry := tcbs[t].priority;
      ghost var k := Value();
      tcbs := tcbs[t := c];
      assert Value() == WithTcb(k, t, c);
      if tcbs[t].list == Ready(usedOnEntry) {
        AddTaskToReadyList(t);
      }
    }

    /** vTaskPrioritySet */
    method PrioritySet(t: TaskId, newPriority: nat)
      requires Placed(Value()) && FineTcbs(tcbs) && t in tcbs
      modifies `tcbs, `lists, `topReady
      ensures Value() == SetPriority(old(Value()), t, newPriority)
    {
      hide Placed, FineTcbs, Reprioritise;
      FineOne(tcbs, t);
      var wanted := if newPriority >= MAX_PRIORITIES then MAX_PRIORITIES - 1 else newPriority;
      var c := tcbs[t];
      if c.basePriority != wanted {
        var effective := c.priority;
        if c.basePriority == c.priority || wanted > c.priority {
          effective := wanted;
        }
        var value := c.eventValue;
        if value < IN_USE {
          value := MAX_PRIORITIES - wanted;
        }
        StorePriorities(t, c.(priority := effective, basePriority := wanted, eventValue := value));
      }
    }

    /** xTaskPriorityInherit, for a holder that is a task */
    method PriorityInherit(holder: TaskId) returns (inherited: bool)
      requires Placed(Value()) && FineTcbs(tcbs) && holder in tcbs && current in tcbs
      modifies `tcbs, `lists, `topReady
      ensures (Value(), inherited) == Inherit(old(Value()), holder)
    {
      hide Placed, FineTcbs, Reprioritise;
      FineOne(tcbs, current);
      var c, priority := tcbs[holder], tcbs[current].priority;
      if c.priority < priority {
        var value := c.eventValue;
        if value < IN_USE {
          value := MAX_PRIORITIES - priority;
        }
        StorePriorities(holder, c.(priority := priority, eventValue := value));
        inherited := true;
      } else {
        inherited := c.basePriority < priority;
      }
    }

    /** xTaskPriorityDisinherit, called by the holder */
    method PriorityDisinherit() returns (switchRequired: bool)
      requires Placed(Value()) && FineTcbs(tcbs) && current in tcbs && tcbs[current].mutexesHeld > 0
      modifies `tcbs, `lists, `topReady
      ensures (Value(), switchRequired) == Disinherit(old(Value()))
    {
      hide Placed, FineTcbs, Reprioritise;
      FineOne(tcbs, current);
      var c := tcbs[current].(mutexesHeld := tcbs[current].mutexesHeld - 1);
      switchRequired := c.priority != c.basePriority && c.mutexesHeld == 0;
      if switchRequired {
        StorePriorities(current, c.(priority := c.basePriority, eventValue := MAX_PRIORITIES - c.basePriority));
      } else {
        tcbs := tcbs[current := c];
      }
    }

    /** vTaskPriorityDisinheritAfterTimeout */
    method PriorityDisinheritAfterTimeout(holder: TaskId, highestWaiting: nat)
      requires Placed(Value()) && FineTcbs(tcbs) && holder in tcbs && highestWaiting < MAX_PRIORITIES
      modifies `tcbs, `lists, `topReady
      ensures Value() == DisinheritAfterTimeout(old(Value()), holder, highestWaiting)
    {
      hide Placed, FineTcbs, Reprioritise;
      FineOne(tcbs, holder);
      var c := tcbs[holder];
      var priority := c.basePriority;
      if c.basePriority < highestWaiting {
        priority := highestWaiting;
      }
      if c.priority != priority {
        if c.mutexesHeld == 1 {
          var value := c.eventValue;
          if value < IN_USE {
            value := MAX_PRIORITIES - priority;
          }
          StorePriorities(holder, c.(priority := priority, eventValue := value));
        }
      }
    }

    // ----- choosing the running task -------------------------------------------------------------

    /** vTaskSwitchContext, with the search of taskSELECT_HIGHEST_PRIORITY_TASK:
        it never reaches below priority 0. */
    method SwitchContext()
      requires Placed(Value()) && topReady < MAX_PRIORITIES && SomeReady(Value(), topReady)
      modifies `lists, `current, `topReady, `yieldPending
      ensures Value() == Lifecycle.SwitchContext(old(Value()))
    {
      hide Placed;
      ghost var k := Value();
      if suspendCount != 0 {
        yieldPending := true;
      } else {
        yieldPending := false;
        var topPriority := topReady;
        ReadyListsExist(k);
        while lists[Ready(topPriority)].items == []
          invariant 0 <= topPriority <= topReady && SomeReady(k, topPriority)
          invariant HighestReady(k, topReady) == HighestReady(k, topPriority)
          decreases topPriority
        {
          assert topPriority > 0;
          topPriority := topPriority - 1;
        }
        current := Next(lists[Ready(topPriority)]);
        lists := lists[Ready(topPriority) := Advance(lists[Ready(topPriority)])];
        topReady := topPriority;
      }
    }

    // ----- the idle task ---------------------------------------------------------------------------

    /** prvCheckTasksWaitingTermination */
    method CheckTasksWaitingTermination()
      requires Placed(Value()) && Termination in lists && deletedCount <= |lists[Termination].items|
      modifies `tcbs, `lists, `taskCount, `deletedCount
      ensures Value() == CleanUp(old(Value()))
    {
      hide Placed, Remove, CleanOne, Forget, CleanUp;
      ghost var start := Value();
      while deletedCount > 0
        invariant Placed(Value()) && Termination in lists && deletedCount <= |lists[Termination].items|
        invariant CleanUp(start) == CleanUp(Value())
      {
        ghost var k := Value();
        TerminationHead(k);
        CleanUpUnfolds(k);
        var t := lists[Termination].items[0];
        lists := lists[Termination := Remove(lists[Termination], t)];
        taskCount := if taskCount > 0 then taskCount - 1 else 0;
        deletedCount := deletedCount - 1;
        tcbs := tcbs - {t};
        assert Value() == CleanOne(k);
      }
      CleanUpUnfolds(Value());
    }
  }

  lemma ReadyNow(k: State, t: TaskId)
    requires Placed(k) && t in k.tcbs && k.tcbs[t].priority < MAX_PRIORITIES
    ensures var r, l := MakeReady(k, t), Ready(k.tcbs[t].priority);
            t in r.tcbs && r.tcbs[t] == k.tcbs[t].(list := l) && l in r.lists && t in r.lists[l].items
  {
    hide Placed, MakeReady;
    Effects.ReadyBack(k, t);
  }

  lemma MovePendingUnfolds(k: State)
    requires Placed(k) && PendingKnown(k) && FineTcbs(k.tcbs) && k.current in k.tcbs
    ensures MovePending(k) == if k.pending == [] then k else MovePending(MoveOne(k))
  {
    hide Placed, FineTcbs, PendingKnown, MoveOne;
  }

  lemma CleanUpUnfolds(k: State)
    requires Placed(k) && Termination in k.lists && k.deletedCount <= |k.lists[Termination].items|
    ensures CleanUp(k) == if k.deletedCount == 0 then k else CleanUp(CleanOne(k))
  {
    hide Placed, CleanOne;
  }

  lemma PendingGives(k: State)
    requires PendingKnown(k) && k.pending != []
    ensures k.pending[0] in k.tcbs
  {
    assert k.pending[0] in k.pending;
  }

  lemma UnsuspendKnown(k: State)
    requires k.suspendCount > 0 && PendingKnown(k)
    ensures PendingKnown(Unsuspend(k))
  {
  }

  lemma ReleasedIs(k: State)
    requires Placed(k) && PendingKnown(k) && FineTcbs(k.tcbs) && k.current in k.tcbs
    ensures Released(k) == if k.pending != [] then ResetNextUnblock(MovePending(k)) else MovePending(k)
  {
    hide Placed, PendingKnown, FineTcbs, MovePending, ResetNextUnblock;
  }

  lemma ReadyListsExist(k: State)
    requires Placed(k)
    ensures forall p :: 0 <= p < MAX_PRIORITIES ==>
              Ready(p) in k.lists && k.lists[Ready(p)].index <= |k.lists[Ready(p)].items|
  {
  }

  lemma TerminationHead(k: State)
    requires Placed(k) && Termination in k.lists && 0 < k.deletedCount <= |k.lists[Termination].items|
    ensures var t := k.lists[Termination].items[0];
            && t in k.tcbs && t in k.lists[Termination].items && k.tcbs[t].list == Termination
    ensures var t := k.lists[Termination].items[0];
            && Termination in CleanOne(k).lists && CleanOne(k).deletedCount <= |CleanOne(k).lists[Termination].items|
            && CleanOne(k) == k.(lists := k.lists[Termination := Remove(k.lists[Termination], t)], tcbs := k.tcbs - {t},
                                 taskCount := if k.taskCount > 0 then k.taskCount - 1 else 0,
                                 deletedCount := k.deletedCount - 1)
  {
    var t := k.lists[Termination].items[0];
    assert t in k.lists[Termination].items;
    hide Remove;
  }

  lemma TickFree(k: State, tick: nat)
    requires Placed(k)
    ensures Placed(k.(tick := tick))
  {
  }

  lemma SwitchFree(k: State, overflows: nat)
    requires Placed(k)
    ensures Placed(k.(tick := 0, firstIsCurrent := !k.firstIsCurrent, overflows := overflows))
  {
  }

  lemma TopIsFree(k: State, top: nat)
    requires Placed(k)
    ensures Placed(k.(topReady := top))
  {
  }

  lemma CurrentGives(k: State)
    requires Placed(k) && FineTcbs(k.tcbs) && k.current in k.tcbs
    ensures k.tcbs[k.current].priority < MAX_PRIORITIES && Ready(k.tcbs[k.current].priority) in k.lists
    ensures SharesPriority(k) <==> |k.lists[Ready(k.tcbs[k.current].priority)].items| > 1
  {
  }

  lemma CurrentListGives(k: State)
    requires Placed(k)
    ensures CurrentDelayed(k) in k.lists
    ensures var l := k.lists[CurrentDelayed(k)].items;
            && (HeadExpired(k) <==> l != [] && (assert l[0] in l; k.tcbs[l[0]].wake <= k.tick))
            && ResetNextUnblock(k) ==
               k.(nextUnblock := if l == [] then MAX_DELAY else assert l[0] in l; k.tcbs[l[0]].wake)
            && (l != [] ==> l[0] in k.tcbs && l[0] in l && k.tcbs[l[0]].list == CurrentDelayed(k))
  {
    var l := k.lists[CurrentDelayed(k)].items;
    assert l != [] ==> l[0] in l;
  }

  lemma RemoveShortens(k: State, t: TaskId)
    requires Placed(k) && FineTcbs(k.tcbs) && t in k.tcbs && k.tcbs[t].list == CurrentDelayed(k)
    ensures CurrentDelayed(k) in k.lists && CurrentDelayed(Awaken(k, t)) in Awaken(k, t).lists
    ensures |Awaken(k, t).lists[CurrentDelayed(Awaken(k, t))].items| < |k.lists[CurrentDelayed(k)].items|
  {
    RemoveMembers(k.lists[CurrentDelayed(k)], t);
    hide Awaken, Remove;
  }

  lemma PlacedTaskList(k: State, t: TaskId)
    requires Placed(k) && t in k.tcbs
    ensures IsList(k.tcbs[t].list) && t in k.lists[k.tcbs[t].list].items
  {
  }
}
