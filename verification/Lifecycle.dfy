/** vTaskSuspend, vTaskResume, task creation, deletion and clean-up, and the
    context switch (tasks.c). */
module Lifecycle {
  import opened Lists
  import opened Kernel
  import opened Ticks
  import opened Suspension
  import opened Tasks

  // ----- suspending and resuming one task -----------------------------------------

  function StopWaiting(c: Tcb): Tcb {
    c.(notify := if c.notify == Waiting then NotWaiting else c.notify)
  }

  /** vTaskSuspend */
  function SuspendTask(k: State, t: TaskId): (r: State)
    requires Placed(k) && t in k.tcbs
    ensures Placed(r)
  {
    hide Placed;
    ResetNextUnblock(MoveToEnd(ClearEvent(WithTcb(k, t, StopWaiting(k.tcbs[t])), t), t, Suspended))
  }

  lemma SuspendedTask(k: State, t: TaskId)
    requires Placed(k) && t in k.tcbs
    ensures var r := SuspendTask(k, t);
            && r.tcbs == k.tcbs[t := StopWaiting(k.tcbs[t]).(list := Suspended, event := Nowhere)]
            && r.current == k.current && r.idle == k.idle && r.suspendCount == k.suspendCount
            && r.pendedTicks == k.pendedTicks && r.yieldPending == k.yieldPending
            && (k.pending == [] ==> r.pending == [])
  {
    hide Placed, MoveToEnd;
    var w := ClearEvent(WithTcb(k, t, StopWaiting(k.tcbs[t])), t);
    MoveToEndIs(w, t, Suspended);
    MapTwice(k.tcbs, t, StopWaiting(k.tcbs[t]), w.tcbs[t]);
    MapTwice(k.tcbs, t, w.tcbs[t], w.tcbs[t].(list := Suspended));
  }

  lemma SuspendTaskKeeps(k: State, t: TaskId, now: nat, due: map<TaskId, nat>, low: nat)
    requires Sound(k, now, due, low) && t in k.tcbs && t != k.idle && k.tcbs[t].list != Termination
    ensures Sound(SuspendTask(k, t), now, due, low)
  {
    hide Sound, Clocked, Evented, Fine, Indexed, Placed, DueIn, FineTcbs, ClearEvent, MoveToEnd, ResetNextUnblock;
    SoundGives(k, now, due, low);
    var c := StopWaiting(k.tcbs[t]);
    TcbGives(k, t, now, due, low);
    WithTcbKeeps(k, t, c, now, due, low);
    var w := WithTcb(k, t, c);
    ClearKeepsSound(w, t, now, due, low);
    ClearedTask(w, t);
    SoundGives(ClearEvent(w, t), now, due, low);
    ClearKeepsIdle(w, t);
    MoveToEndKeeps(ClearEvent(w, t), t, Suspended, now, due, low);
    MoveToEndIndexes(ClearEvent(w, t), t, Suspended);
    SoundFrom(MoveToEnd(ClearEvent(w, t), t, Suspended), now, due, low);
    ResetKeeps(MoveToEnd(ClearEvent(w, t), t, Suspended), now, due, low);
  }

  lemma TcbGives(k: State, t: TaskId, now: nat, due: map<TaskId, nat>, low: nat)
    requires Sound(k, now, due, low) && t in k.tcbs
    ensures FineTcb(k.tcbs[t]) && (k.tcbs[t].list.Ready? ==> k.tcbs[t].list.priority == k.tcbs[t].priority)
    ensures k.tcbs[t].notify == Waiting ==> k.tcbs[t].event == Nowhere
    ensures k.tcbs[t].event != Nowhere ==> k.tcbs[t].list != Termination
    ensures k.tcbs[t].event == OnEventList ==> Sleeping(k.tcbs[t].list)
  {
    hide Clocked, DueIn;
  }

  lemma ClearKeepsIdle(k: State, t: TaskId)
    requires t in k.tcbs
    ensures ClearEvent(k, t).idle == k.idle && ClearEvent(k, t).current == k.current
  {
  }

  /** prvTaskIsTaskSuspended: suspended outright, not blocked without timeout. */
  predicate IsSuspended(k: State, t: TaskId)
    requires t in k.tcbs
  {
    k.tcbs[t].list == Suspended && k.tcbs[t].event == Nowhere && k.tcbs[t].notify != Waiting
  }

  /** vTaskResume */
  function ResumeTask(k: State, t: TaskId): (r: State)
    requires Placed(k) && FineTcbs(k.tcbs) && t in k.tcbs
    ensures Placed(r)
  {
    if t != k.current && IsSuspended(k, t) then MakeReady(k, t) else k
  }

  lemma ResumeTaskKeeps(k: State, t: TaskId, now: nat, due: map<TaskId, nat>, low: nat)
    requires Sound(k, now, due, low) && t in k.tcbs
    ensures FineTcbs(k.tcbs) && Sound(ResumeTask(k, t), now, due, low)
  {
    hide Clocked, Evented, Fine, Placed, DueIn, MakeReady;
    SoundGives(k, now, due, low);
    if IsSuspended(k, t) {
      MakeReadyKeeps(k, t, now, due, low);
    }
  }

  /** xTaskResumeFromISR: while the scheduler is suspended the task is held on
      the pending-ready list. */
  function ResumeFromIsr(k: State, t: TaskId): (r: State)
    requires Placed(k) && FineTcbs(k.tcbs) && t in k.tcbs && k.current in k.tcbs
    ensures Placed(r)
  {
    hide Placed, FineTcbs, MakeReady, HoldPending;
    FineOne(k.tcbs, t);
    if !IsSuspended(k, t) then k
    else if k.suspendCount == 0 then PendYield(MakeReady(k, t), Outranks(k, t))
    else HoldPending(k, t)
  }

  lemma ResumeFromIsrKeeps(k: State, t: TaskId, now: nat, due: map<TaskId, nat>, low: nat)
    requires Sound(k, now, due, low) && t in k.tcbs && k.current in k.tcbs
    ensures FineTcbs(k.tcbs) && Sound(ResumeFromIsr(k, t), now, due, low)
  {
    hide Clocked, Evented, Fine, Placed, DueIn, MakeReady, HoldPending, PendYield;
    SoundGives(k, now, due, low);
    if IsSuspended(k, t) {
      if k.suspendCount == 0 {
        MakeReadyKeeps(k, t, now, due, low);
        PendYieldKeeps(MakeReady(k, t), Outranks(k, t), now, due, low);
      } else {
        HoldPendingKeeps(k, t, now, due, low);
      }
    }
  }

  // ----- creation and deletion ------------------------------------------------------

  function NewTcb(priority: nat): Tcb {
    var p := if priority >= MAX_PRIORITIES then MAX_PRIORITIES - 1 else priority;
    Tcb(p, p, 0, Ready(p), 0, Nowhere, MAX_PRIORITIES - p, NotWaiting, 0)
  }

  /** prvInitialiseNewTask then prvAddNewTaskToReadyList, scheduler running */
  function Create(k: State, t: TaskId, priority: nat): (r: State)
    requires Placed(k) && t !in k.tcbs
    ensures Placed(r)
  {
    var c := NewTcb(priority);
    var ready := k.lists[c.list];
    InsertAtMembers(ready, EndPosition(ready), t);
    k.(tcbs := k.tcbs[t := c], lists := k.lists[c.list := InsertEnd(ready, t)],
       topReady := HighestOf(k.topReady, c.priority), taskCount := k.taskCount + 1)
  }

  lemma CreateKeepsClock(k: State, t: TaskId, priority: nat, now: nat, due: map<TaskId, nat>, low: nat)
    requires Placed(k) && Clocked(k, now, due, low) && t !in k.tcbs
    ensures Clocked(Create(k, t, priority), now, due, low)
  {
    var tcbs := k.tcbs[t := NewTcb(priority)];
    DueGives(k.tcbs, k.lists[CurrentDelayed(k)].items, due, now / TICK_MODULUS, low);
    DueGives(k.tcbs, k.lists[OverflowDelayed(k)].items, due, now / TICK_MODULUS + 1, 0);
    DueInFrame(k.tcbs, tcbs, k.lists[CurrentDelayed(k)].items, due, due, now / TICK_MODULUS, low);
    DueInFrame(k.tcbs, tcbs, k.lists[OverflowDelayed(k)].items, due, due, now / TICK_MODULUS + 1, 0);
    hide DueIn;
  }

  lemma DueGives(tcbs: map<TaskId, Tcb>, s: seq<TaskId>, due: map<TaskId, nat>, epoch: nat, low: nat)
    requires DueIn(tcbs, s, due, epoch, low)
    ensures forall t :: t in s ==> t in tcbs && t in due
  {
  }

  lemma CreateKeepsFine(k: State, t: TaskId, priority: nat)
    requires Fine(k) && Indexed(k) && t !in k.tcbs
    ensures Fine(Create(k, t, priority)) && Indexed(Create(k, t, priority))
  {
    hide Placed, Evented, Counted, FineTcbs;
    WithTcbKeepsFineTcbs(k.tcbs, t, NewTcb(priority));
    CreateKeepsEvented(k, t, priority);
    CreateKeepsCounted(k, t, priority);
  }

  lemma CreateKeepsEvented(k: State, t: TaskId, priority: nat)
    requires Placed(k) && Evented(k) && t !in k.tcbs
    ensures Evented(Create(k, t, priority))
  {
    hide Placed;
  }

  lemma CreateKeepsCounted(k: State, t: TaskId, priority: nat)
    requires Placed(k) && Counted(k) && t !in k.tcbs
    ensures Counted(Create(k, t, priority))
  {
    hide Placed, InsertEnd;
    var r := Create(k, t, priority);
    forall p | r.topReady < p < MAX_PRIORITIES ensures Ready(p) in r.lists && r.lists[Ready(p)].items == [] {
      AllLists(k, Ready(p));
    }
    AllLists(k, Termination);
  }

  lemma CreateKeeps(k: State, t: TaskId, priority: nat, now: nat, due: map<TaskId, nat>, low: nat)
    requires Sound(k, now, due, low) && t !in k.tcbs
    ensures Placed(k) && Sound(Create(k, t, priority), now, due, low)
  {
    hide Fine, Indexed, Clocked, Placed, Create;
    SoundGives(k, now, due, low);
    CreateKeepsClock(k, t, priority, now, due, low);
    CreateKeepsFine(k, t, priority);
  }

  /** The part of vTaskDelete and of the clean-up that forgets a task. */
  function Forget(k: State, t: TaskId): (r: State)
    requires Placed(k) && t in k.tcbs
    ensures Placed(r)
  {
    hide Placed, Unlinked;
    ForgottenPlaced(k, t);
    k.(lists := Unlinked(k, t), tcbs := k.tcbs - {t}, taskCount := if k.taskCount > 0 then k.taskCount - 1 else 0)
  }

  lemma ForgottenPlaced(k: State, t: TaskId)
    requires Placed(k) && t in k.tcbs
    ensures forall n :: Placed(k.(lists := Unlinked(k, t), tcbs := k.tcbs - {t}, taskCount := n))
  {
    hide Remove, NoDuplicates;
    RemoveMembers(k.lists[k.tcbs[t].list], t);
  }

  /** vTaskDelete */
  function Delete(k: State, t: TaskId): (r: State)
    requires Placed(k) && t in k.tcbs
    ensures Placed(r)
  {
    hide Placed;
    var c := ClearEvent(k, t);
    if t == k.current then MoveToTermination(c, t) else ResetNextUnblock(Forget(c, t))
  }

  function CountDeleted(k: State, n: nat): (r: State)
    ensures Placed(k) ==> Placed(r)
  {
    k.(deletedCount := n)
  }

  function MoveToTermination(k: State, t: TaskId): (r: State)
    requires Placed(k) && t in k.tcbs
    ensures Placed(r)
  {
    CountDeleted(MoveToEnd(k, t, Termination), k.deletedCount + 1)
  }

  function CleanOne(k: State): (r: State)
    requires Placed(k) && 0 < k.deletedCount <= |k.lists[Termination].items|
    ensures Placed(r) && r.deletedCount == k.deletedCount - 1 && r.tcbs.Keys <= k.tcbs.Keys
    ensures Termination in r.lists && |r.lists[Termination].items| == |k.lists[Termination].items| - 1
  {
    var t := k.lists[Termination].items[0];
    assert t in k.lists[Termination].items;
    RemoveMembers(k.lists[Termination], t);
    CountDeleted(Forget(k, t), k.deletedCount - 1)
  }

  /** The loop of prvCheckTasksWaitingTermination, run by the idle task. */
  function CleanUp(k: State): (r: State)
    requires Placed(k) && k.deletedCount <= |k.lists[Termination].items|
    ensures Placed(r) && r.tcbs.Keys <= k.tcbs.Keys
    decreases k.deletedCount
  {
    if k.deletedCount == 0 then k
    else
      CleanUp(CleanOne(k))
  }

  lemma ForgetKeepsDue(k: State, t: TaskId, d: ListId, due: map<TaskId, nat>, epoch: nat, low: nat)
    requires Placed(k) && t in k.tcbs && IsList(d) && DueIn(k.tcbs, k.lists[d].items, due, epoch, low)
    ensures var r := Forget(k, t);
            && DueIn(r.tcbs, r.lists[d].items, due, epoch, low)
            && (r.lists[d].items != [] ==>
                  k.lists[d].items != []
                  && k.tcbs[k.lists[d].items[0]].wake <= r.tcbs[r.lists[d].items[0]].wake)
  {
    var r := Forget(k, t);
    RemoveMembers(k.lists[k.tcbs[t].list], t);
    if k.tcbs[t].list == d {
      DueInRemove(k.tcbs, k.lists[d], t, due, epoch, low);
    }
    DueInFrame(k.tcbs, r.tcbs, r.lists[d].items, due, due, epoch, low);
  }

  lemma ForgetKeepsClock(k: State, t: TaskId, now: nat, due: map<TaskId, nat>, low: nat)
    requires Placed(k) && t in k.tcbs && Clocked(k, now, due, low)
    ensures Clocked(Forget(k, t), now, due, low)
  {
    hide DueIn, Placed;
    AllLists(k, Delayed1);
    AllLists(k, Delayed2);
    AllLists(Forget(k, t), Delayed1);
    AllLists(Forget(k, t), Delayed2);
    ForgetKeepsDue(k, t, CurrentDelayed(k), due, now / TICK_MODULUS, low);
    ForgetKeepsDue(k, t, OverflowDelayed(k), due, now / TICK_MODULUS + 1, 0);
    if Forget(k, t).lists[CurrentDelayed(k)].items != [] {
      HeadOf(Forget(k, t), CurrentDelayed(k));
      HeadOf(k, CurrentDelayed(k));
    }
  }

  lemma ForgetEvented(k: State, t: TaskId)
    requires Placed(k) && Evented(k) && t in k.tcbs && k.tcbs[t].event == Nowhere
    ensures Evented(Forget(k, t))
  {
    hide Placed;
  }

  lemma ForgetCounted(k: State, t: TaskId)
    requires Placed(k) && Counted(k) && t in k.tcbs && t != k.idle && t != k.current
    ensures k.tcbs[t].list == Termination ==> k.deletedCount > 0
    ensures Counted(CountDeleted(Forget(k, t), k.deletedCount - if k.tcbs[t].list == Termination then 1 else 0))
  {
    hide Placed, Unlinked;
    assert k.tcbs.Keys == (k.tcbs - {t}).Keys + {t};
    assert |k.tcbs.Keys| == |(k.tcbs - {t}).Keys| + 1;
    UnlinkedLengths(k, t, Termination);
    forall p | k.topReady < p < MAX_PRIORITIES
      ensures Ready(p) in Forget(k, t).lists && Forget(k, t).lists[Ready(p)].items == []
    {
      UnlinkedLengths(k, t, Ready(p));
    }
  }

  /** Everything but the deletion counter stays consistent. */
  lemma ForgetKeepsFine(k: State, t: TaskId)
    requires Fine(k) && Indexed(k) && t in k.tcbs && k.tcbs[t].event == Nowhere && t != k.idle && t != k.current
    ensures k.tcbs[t].list == Termination ==> k.deletedCount > 0
    ensures var f := CountDeleted(Forget(k, t), k.deletedCount - if k.tcbs[t].list == Termination then 1 else 0);
            Fine(f) && Indexed(f)
  {
    hide Placed, Evented, Counted, Unlinked;
    ForgetEvented(k, t);
    ForgetCounted(k, t);
    EventedCount(Forget(k, t), k.deletedCount - if k.tcbs[t].list == Termination then 1 else 0);
  }

  lemma EventedCount(k: State, n: nat)
    requires Evented(k)
    ensures Evented(CountDeleted(k, n))
  {
  }

  lemma TerminationCounted(k: State, t: TaskId)
    requires Placed(k) && Counted(k) && t in k.tcbs && t != k.idle && k.tcbs[t].list != Termination
    ensures Counted(MoveToTermination(k, t))
  {
    hide Placed, Unlinked, Relink;
    UnlinkedLengths(k, t, Termination);
    RelinkRoom(k, t, Termination);
    var pos, r := EndPosition(Unlinked(k, t)[Termination]), MoveToTermination(k, t);
    RelinkLengths(k, t, Termination, pos, Termination);
    forall p | k.topReady < p < MAX_PRIORITIES ensures Ready(p) in r.lists && r.lists[Ready(p)].items == [] {
      RelinkLengths(k, t, Termination, pos, Ready(p));
    }
    assert r.tcbs.Keys == k.tcbs.Keys by { RelinkTcbs(k, t, Termination, pos); }
    RelinkTcbs(k, t, Termination, pos);
  }

  lemma TerminationFine(k: State, t: TaskId)
    requires Fine(k) && Indexed(k) && t in k.tcbs && t != k.idle
    requires k.tcbs[t].event == Nowhere && k.tcbs[t].list != Termination
    ensures Fine(MoveToTermination(k, t)) && Indexed(MoveToTermination(k, t))
  {
    hide NoDuplicates;
    hide Counted, FineTcbs;
    TerminationCounted(k, t);
    RelinkKeepsEvented(k, t, Termination, EndPosition(Unlinked(k, t)[Termination]));
    FineGives(k, t);
    WithTcbKeepsFineTcbs(k.tcbs, t, k.tcbs[t].(list := Termination));
  }

  lemma FineGives(k: State, t: TaskId)
    requires FineTcbs(k.tcbs) && t in k.tcbs
    ensures forall l :: FineTcb(k.tcbs[t].(list := l))
  {
  }

  lemma TerminationKeeps(k: State, t: TaskId, now: nat, due: map<TaskId, nat>, low: nat)
    requires Sound(k, now, due, low) && t in k.tcbs && t != k.idle
    requires k.tcbs[t].event == Nowhere && k.tcbs[t].list != Termination
    ensures Placed(k) && Sound(MoveToTermination(k, t), now, due, low)
  {
    hide Clocked, Fine, Indexed, Placed;
    SoundGives(k, now, due, low);
    TerminationFine(k, t);
    TerminationClock(k, t, now, due, low);
  }

  lemma TerminationClock(k: State, t: TaskId, now: nat, due: map<TaskId, nat>, low: nat)
    requires Placed(k) && t in k.tcbs && Clocked(k, now, due, low)
    ensures Clocked(MoveToTermination(k, t), now, due, low)
  {
    hide DueIn;
    RelinkKeepsClock(k, t, Termination, EndPosition(Unlinked(k, t)[Termination]), now, due, low);
  }

  lemma CountKeepsClock(k: State, n: nat, now: nat, due: map<TaskId, nat>, low: nat)
    requires Placed(k) && Clocked(k, now, due, low)
    ensures Clocked(CountDeleted(k, n), now, due, low)
  {
    hide DueIn, Placed;
  }

  lemma DeleteKeeps(k: State, t: TaskId, now: nat, due: map<TaskId, nat>, low: nat)
    requires Sound(k, now, due, low) && t in k.tcbs && t != k.idle && k.tcbs[t].list != Termination
    ensures Placed(k) && Sound(Delete(k, t), now, due, low)
  {
    hide Clocked, Fine, Indexed, Placed, ClearEvent, Forget, MoveToTermination, ResetNextUnblock, Sound;
    SoundGives(k, now, due, low);
    ClearKeepsSound(k, t, now, due, low);
    ClearedTask(k, t);
    ClearKeepsIdle(k, t);
    var c := ClearEvent(k, t);
    SoundGives(c, now, due, low);
    if t == k.current {
      TerminationKeeps(c, t, now, due, low);
    } else {
      ForgetKeeps(c, t, now, due, low);
      ResetKeeps(Forget(c, t), now, due, low);
    }
  }

  lemma ForgetKeeps(k: State, t: TaskId, now: nat, due: map<TaskId, nat>, low: nat)
    requires Sound(k, now, due, low) && t in k.tcbs && t != k.idle && t != k.current
    requires k.tcbs[t].event == Nowhere
    ensures k.tcbs[t].list == Termination ==> k.deletedCount > 0
    ensures Placed(k)
    ensures var f := Forget(k, t);
            Sound(if k.tcbs[t].list == Termination then CountDeleted(f, k.deletedCount - 1) else f, now, due, low)
  {
    hide Clocked, Fine, Indexed, Placed, Sound;
    SoundGives(k, now, due, low);
    ForgetKeepsFine(k, t);
    ForgetKeepsClock(k, t, now, due, low);
    var n := if k.tcbs[t].list == Termination then k.deletedCount - 1 else k.deletedCount;
    assert k.tcbs[t].list != Termination ==> CountDeleted(Forget(k, t), n) == Forget(k, t);
    CountKeepsClock(Forget(k, t), n, now, due, low);
    SoundFrom(CountDeleted(Forget(k, t), n), now, due, low);
  }

  lemma TerminationGives(k: State)
    requires Fine(k)
    ensures Termination in k.lists && k.deletedCount == |k.lists[Termination].items|
    ensures k.deletedCount > 0 ==>
              var t := k.lists[Termination].items[0];
              && t in k.tcbs && k.tcbs[t].list == Termination
              && k.tcbs[t].event == Nowhere && t != k.idle
  {
    if k.deletedCount > 0 {
      assert k.lists[Termination].items[0] in k.lists[Termination].items;
    }
  }

  /** The clean-up empties the termination list, as long as the running task
      is not itself on it. */
  lemma {:induction false} CleanUpKeeps(k: State, now: nat, due: map<TaskId, nat>, low: nat)
    requires Sound(k, now, due, low) && k.current in k.tcbs && k.tcbs[k.current].list != Termination
    ensures Placed(k) && Termination in k.lists && k.deletedCount == |k.lists[Termination].items|
    ensures var r := CleanUp(k);
            && Sound(r, now, due, low) && r.deletedCount == 0
            && r.taskCount == k.taskCount - k.deletedCount
    decreases k.deletedCount
  {
    hide Clocked, Fine, Indexed, Placed, Sound, Forget;
    SoundGives(k, now, due, low);
    TerminationGives(k);
    if k.deletedCount > 0 {
      var t := k.lists[Termination].items[0];
      ForgetKeeps(k, t, now, due, low);
      ForgottenTask(k, t);
      CleanUpKeeps(CleanOne(k), now, due, low);
    }
  }

  lemma ForgottenTask(k: State, t: TaskId)
    requires Fine(k) && t in k.tcbs
    ensures var r := Forget(k, t);
            && r.tcbs == k.tcbs - {t} && r.taskCount == k.taskCount - 1 && r.current == k.current
            && r.deletedCount == k.deletedCount
  {
    assert k.taskCount > 0 by { assert t in k.tcbs.Keys; }
  }

  // ----- context switch ----------------------------------------------------------------

  ghost predicate SomeReady(k: State, top: nat)
    requires Placed(k) && top < MAX_PRIORITIES
  {
    exists p :: 0 <= p <= top && k.lists[Ready(p)].items != []
  }

  /** The downward search of taskSELECT_HIGHEST_PRIORITY_TASK. */
  function HighestReady(k: State, top: nat): (p: nat)
    requires Placed(k) && top < MAX_PRIORITIES && SomeReady(k, top)
    ensures p <= top && k.lists[Ready(p)].items != []
    ensures forall q :: p < q <= top ==> k.lists[Ready(q)].items == []
  {
    if k.lists[Ready(top)].items != [] then top else HighestReady(k, top - 1)
  }

  /** vTaskSwitchContext */
  function SwitchContext(k: State): (r: State)
    requires Placed(k) && k.topReady < MAX_PRIORITIES && SomeReady(k, k.topReady)
    ensures Placed(r)
  {
    if k.suspendCount != 0 then PendYield(k, true)
    else
      var p := HighestReady(k, k.topReady);
      var l := k.lists[Ready(p)];
      k.(yieldPending := false, lists := k.lists[Ready(p) := Advance(l)], current := Next(l), topReady := p)
  }

  lemma IdleIsReady(k: State)
    requires Fine(k)
    ensures k.topReady < MAX_PRIORITIES && SomeReady(k, k.topReady)
  {
    var l := k.tcbs[k.idle].list;
    assert k.idle in k.lists[l].items;
    assert l == Ready(l.priority);
  }

  /** The context switch always finds a task; the one it picks is ready, no
      ready task outranks it, and it is next in its list's rotation. */
  lemma SwitchPicksHighest(k: State)
    requires Fine(k) && Indexed(k) && k.suspendCount == 0
    ensures k.topReady < MAX_PRIORITIES && SomeReady(k, k.topReady)
    ensures var r := SwitchContext(k);
            && r.current in k.tcbs && k.tcbs[r.current].list == Ready(k.tcbs[r.current].priority)
            && (forall t :: t in k.tcbs && k.tcbs[t].list.Ready? ==> k.tcbs[t].priority <= k.tcbs[r.current].priority)
            && var l := k.lists[Ready(k.tcbs[r.current].priority)];
               l.index <= |l.items| && l.items != [] && r.current == Rotation(l)[0] && !r.yieldPending
  {
    IdleIsReady(k);
    var p := HighestReady(k, k.topReady);
    var l := k.lists[Ready(p)];
    PickRotates(l);
    assert Next(l) in l.items;
    forall t | t in k.tcbs && k.tcbs[t].list.Ready? ensures k.tcbs[t].priority <= p {
      assert t in k.lists[k.tcbs[t].list].items;
      assert k.tcbs[t].list == Ready(k.tcbs[t].priority);
    }
  }

  lemma SwitchKeeps(k: State, now: nat, due: map<TaskId, nat>, low: nat)
    requires Sound(k, now, due, low)
    ensures Placed(k) && k.topReady < MAX_PRIORITIES && SomeReady(k, k.topReady)
    ensures Sound(SwitchContext(k), now, due, low)
  {
    hide Placed, Evented, DueIn, FineTcbs;
    IdleIsReady(k);
    SwitchFine(k);
  }

  lemma SwitchFine(k: State)
    requires Placed(k) && Evented(k) && Counted(k) && k.topReady < MAX_PRIORITIES && SomeReady(k, k.topReady)
    ensures var r := SwitchContext(k);
            && Evented(r) && Counted(r) && r.tcbs == k.tcbs
            && CurrentDelayed(r) == CurrentDelayed(k) && r.tick == k.tick && r.overflows == k.overflows
            && r.nextUnblock == k.nextUnblock && CurrentDelayed(k) in k.lists && OverflowDelayed(k) in k.lists
            && r.lists[CurrentDelayed(k)] == k.lists[CurrentDelayed(k)]
            && r.lists[OverflowDelayed(k)] == k.lists[OverflowDelayed(k)]
  {
    hide Placed, Evented, Counted, SomeReady;
    SwitchLists(k);
    SwitchCounted(k);
    SameEvents(k, SwitchContext(k));
    AllLists(k, CurrentDelayed(k));
    AllLists(k, OverflowDelayed(k));
  }

  lemma SwitchLists(k: State)
    requires Placed(k) && k.topReady < MAX_PRIORITIES && SomeReady(k, k.topReady)
    ensures var r := SwitchContext(k);
            && r.tcbs == k.tcbs && r.pending == k.pending && r.firstIsCurrent == k.firstIsCurrent
            && r == k.(yieldPending := r.yieldPending, lists := r.lists, current := r.current, topReady := r.topReady)
            && forall l :: l in k.lists && !l.Ready? ==> l in r.lists && r.lists[l] == k.lists[l]
  {
    hide Placed, SomeReady;
  }

  lemma SwitchCounted(k: State)
    requires Placed(k) && Counted(k) && k.topReady < MAX_PRIORITIES && SomeReady(k, k.topReady)
    ensures Counted(SwitchContext(k))
  {
    hide NoDuplicates;
    if k.suspendCount == 0 {
      var l := k.lists[Ready(HighestReady(k, k.topReady))];
      assert Next(l) in l.items;
    }
  }
}
