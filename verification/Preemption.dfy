/** Preemption: no ready task outranks the running one, unless a switch has been
    asked for or is pending, over whole runs of the scheduler. */
module Preemption {
  import opened Lists
  import opened Words
  import opened Kernel
  import opened Ticks
  import opened Suspension
  import opened Tasks
  import opened Lifecycle
  import opened Priorities
  import opened Notify
  import opened Runs
  import Evolution
  import Transparency

  /** The running task is ready, and no ready task outranks it. */
  ghost predicate Dominates(k: State) {
    && k.current in k.tcbs && k.tcbs[k.current].list.Ready?
    && forall t :: t in k.tcbs && k.tcbs[t].list.Ready? ==> k.tcbs[t].priority <= k.tcbs[k.current].priority
  }

  function Clamped(priority: nat): nat {
    if priority < MAX_PRIORITIES then priority else MAX_PRIORITIES - 1
  }

  /** The test of vTaskPrioritySet: a task is raised above the running one, or
      the running one is lowered. */
  predicate PriorityAsks(k: State, t: TaskId, wanted: nat)
    requires t in k.tcbs && k.current in k.tcbs
  {
    var base, p := k.tcbs[t].basePriority, Clamped(wanted);
    if p > base then t != k.current && p > k.tcbs[k.current].priority
    else p < base && t == k.current
  }

  /** Whether the call itself yields, or the tick handler asks for a switch. A
      pended yield is not counted here but found in xYieldPendings. */
  ghost predicate Asks(k: State, op: Op)
    requires Steppable(k) && Enabled(k, op)
  {
    match op
    case TickInterrupt => IncrementTick(k).1
    case Delay(_, _) => true
    case WaitForEvent(_, _) => true
    case NotifyTask(t, _) => k.tcbs[t].notify == Waiting && Outranks(k, t)
    case Suspend(t) => t == k.current
    case Resume(t) => t != k.current && IsSuspended(k, t) && Outranks(k, t)
    case Prioritise(t, p) => PriorityAsks(k, t, p)
    case NewTask(_, p) => Clamped(p) > k.tcbs[k.current].priority
    case DeleteTask(t) => t == k.current
    case _ => false
  }

  // ----- whether a tick asks for a context switch --------------------------------------------

  /** The loop reports a switch exactly when a task that it wakes outranks the
      running one. */
  lemma {:induction false} DrainReports(k: State, now: nat, due: map<TaskId, nat>)
    requires Sound(k, now, due, now)
    ensures Drain(k).1 <==>
            exists t :: t in DueNow(k, now, due) && t in k.tcbs && k.tcbs[t].priority > k.tcbs[k.current].priority
    decreases |k.lists[CurrentDelayed(k)].items|
  {
    hide Drain, Sound, WokeExactly, Placed, FineTcbs, Awaken, SameControl;
    SoundGives(k, now, due, now);
    DrainUnfolds(k);
    if !HeadExpired(k) {
      DrainEnds(k, now, due);
      assert forall t :: t !in DueNow(k, now, due);
    } else {
      var t := k.lists[CurrentDelayed(k)].items[0];
      var m := Awaken(k, t);
      HeadIsDue(k, now, due, now);
      AwakenWakes(k, t);
      CurrentShortens(k, t);
      NotTerminated(k, t);
      AwakenKeeps(k, t, now, due, now);
      DueNowSplits(k, t, now, due);
      DrainReports(m, now, due);
      SameRanks(k, m, iset{t});
    }
  }

  lemma NotTerminated(k: State, t: TaskId)
    requires t in k.tcbs && k.tcbs[t].list == CurrentDelayed(k)
    ensures k.tcbs[t].list != Termination
  {
  }

  lemma CurrentShortens(k: State, t: TaskId)
    requires Placed(k) && FineTcbs(k.tcbs) && t in k.tcbs && k.tcbs[t].list == CurrentDelayed(k)
    ensures CurrentDelayed(k) in k.lists && CurrentDelayed(Awaken(k, t)) in Awaken(k, t).lists
    ensures |Awaken(k, t).lists[CurrentDelayed(Awaken(k, t))].items| < |k.lists[CurrentDelayed(k)].items|
    ensures Awaken(k, t).current == k.current
  {
    RemoveMembers(k.lists[CurrentDelayed(k)], t);
    hide Awaken, Remove;
  }

  lemma SameRanks(k: State, m: State, woken: iset<TaskId>)
    requires WokeExactly(k, m, woken) && m.current == k.current && k.current in k.tcbs
    ensures forall t :: t in k.tcbs <==> t in m.tcbs
    ensures forall t :: t in k.tcbs ==> m.tcbs[t].priority == k.tcbs[t].priority
  {
    assert forall t :: t in k.tcbs <==> t in m.tcbs.Keys;
  }

  /** Two tasks are ready at the running task's priority. */
  ghost predicate Contended(k: State)
    requires k.current in k.tcbs
  {
    exists t, u :: t in k.tcbs && u in k.tcbs && t != u
                   && k.tcbs[t].list == k.tcbs[u].list == Ready(k.tcbs[k.current].priority)
  }

  lemma SharesWhenContended(k: State)
    requires Placed(k) && k.current in k.tcbs && k.tcbs[k.current].priority < MAX_PRIORITIES
    ensures SharesPriority(k) <==> Contended(k)
  {
    var l := k.lists[Ready(k.tcbs[k.current].priority)].items;
    if |l| > 1 {
      assert l[0] in l && l[1] in l;
    }
  }

  /** A tick asks for a context switch exactly when a task that it wakes outranks
      the running one, two tasks are then ready at the running task's priority,
      or a yield was pending. */
  lemma SwitchRequiredWhen(k: State, now: nat, due: map<TaskId, nat>)
    requires Sound(k, now, due, now + 1)
    ensures FineTcbs(k.tcbs) && k.current in k.tcbs
    ensures Placed(k) && TickNow(k).0.current in TickNow(k).0.tcbs
    ensures TickNow(k).1 <==>
            || (exists t :: t in WakesAt(k, now + 1, due) && t in k.tcbs &&
                            k.tcbs[t].priority > k.tcbs[k.current].priority)
            || Contended(TickNow(k).0)
            || k.yieldPending
  {
    hide Sound, Placed, FineTcbs, Drain, SharesPriority, SameControl, WokeExactly, WakesAt, Contended;
    SoundGives(k, now, due, now + 1);
    AdvanceKeeps(k, now, due);
    AdvanceKeepsFine(k);
    var a := AdvanceTick(k);
    SoundGives(a, now + 1, due, now + 1);
    SameWakes(k, a, now + 1, due);
    TickIsExact(k, now, due);
    var r := TickNow(k).0;
    SoundGives(r, now + 1, due, now + 2);
    FineOne(r.tcbs, r.current);
    SharesWhenContended(r);
    Transparency.TickIgnoresLabels(k, false, 0);
    if a.tick >= a.nextUnblock {
      WakesAreCurrent(a, now + 1, due);
      DrainReports(a, now + 1, due);
    } else {
      NothingDue(a, now + 1, due);
    }
  }

  // ----- ticks ---------------------------------------------------------------------------------

  lemma WokenBelow(k: State, r: State, woken: iset<TaskId>)
    requires Dominates(k) && WokeExactly(k, r, woken) && r.current == k.current && k.current !in woken
    requires forall t :: t in woken && t in k.tcbs ==> k.tcbs[t].priority <= k.tcbs[k.current].priority
    ensures Dominates(r)
  {
    assert forall t :: t in k.tcbs <==> t in r.tcbs.Keys;
  }

  /** A tick that asks for no switch leaves the running task on top. */
  lemma TickSettles(k: State, now: nat, due: map<TaskId, nat>)
    requires Sound(k, now, due, now + 1)
    ensures Placed(k) && FineTcbs(k.tcbs) && k.current in k.tcbs && TickNow(k).0.current == k.current
    ensures k.yieldPending ==> TickNow(k).0.yieldPending
    ensures Dominates(k) || k.yieldPending ==> Dominates(TickNow(k).0) || TickNow(k).1
  {
    hide Sound, Placed, FineTcbs, DrainIfDue, SharesPriority, WokeExactly, Dominates, WakesAt, Contended;
    SoundGives(k, now, due, now + 1);
    Transparency.TickIgnoresLabels(k, false, 0);
    if Dominates(k) && !TickNow(k).1 {
      SwitchRequiredWhen(k, now, due);
      TickIsExact(k, now, due);
      ReadyNotWoken(k, now + 1, due);
      WokenBelow(k, TickNow(k).0, WakesAt(k, now + 1, due));
    }
  }

  lemma ReadyNotWoken(k: State, now: nat, due: map<TaskId, nat>)
    requires Dominates(k)
    ensures k.current !in WakesAt(k, now, due)
  {
  }

  lemma {:induction false} ReplaySettles(k: State, n: nat, now: nat, due: map<TaskId, nat>)
    requires Sound(k, now, due, now + 1) && (Dominates(k) || k.yieldPending)
    ensures Placed(k) && FineTcbs(k.tcbs) && k.current in k.tcbs
    ensures Dominates(Replay(k, n)) || Replay(k, n).yieldPending
    decreases n
  {
    hide *;
    SoundGives(k, now, due, now + 1);
    ReplayUnfolds(k, n);
    if n > 0 {
      var r := TickNow(k);
      TickSettles(k, now, due);
      ReplayStep(k, now + n, now, due);
      PendYieldSettles(r.0, r.1);
      ReplaySettles(PendYield(r.0, r.1), n - 1, now + 1, due);
    }
  }

  lemma PendYieldSettles(k: State, wanted: bool)
    requires Dominates(k) || wanted || k.yieldPending
    ensures Dominates(PendYield(k, wanted)) || PendYield(k, wanted).yieldPending
  {
  }

  // ----- resuming ------------------------------------------------------------------------------

  lemma MoveOneSettles(k: State, now: nat, due: map<TaskId, nat>, low: nat)
    requires Sound(k, now, due, low) && k.pending != [] && (Dominates(k) || k.yieldPending)
    ensures PendingKnown(k) && Placed(k) && FineTcbs(k.tcbs) && k.current in k.tcbs
    ensures Dominates(MoveOne(k)) || MoveOne(k).yieldPending
  {
    hide Sound, Placed, FineTcbs, Awaken, MoveOne, WokeExactly, Dominates;
    SoundGives(k, now, due, low);
    MoveOneIs(k);
    MoveOneKeeps(k, now, due, low);
    if !k.yieldPending && !Outranks(k, k.pending[0]) {
      JoinsBelow(k, MoveOne(k), k.pending[0]);
    }
  }

  lemma JoinsBelow(k: State, r: State, t: TaskId)
    requires Dominates(k) && WokeExactly(k, r, iset{t}) && t in k.tcbs && r.current == k.current && !Outranks(k, t)
    ensures Dominates(r)
  {
    assert forall u :: u in k.tcbs <==> u in r.tcbs.Keys;
  }

  lemma {:induction false} MovePendingSettles(k: State, now: nat, due: map<TaskId, nat>, low: nat)
    requires Sound(k, now, due, low) && (Dominates(k) || k.yieldPending)
    ensures PendingKnown(k) && Placed(k) && FineTcbs(k.tcbs) && k.current in k.tcbs
    ensures Dominates(MovePending(k)) || MovePending(k).yieldPending
    decreases |k.pending|
  {
    hide Sound, Placed, FineTcbs, MoveOne, Dominates, NoDuplicates;
    SoundGives(k, now, due, low);
    if k.pending != [] {
      MoveOneSettles(k, now, due, low);
      MoveOneKeeps(k, now, due, low);
      MovePendingSettles(MoveOne(k), now, due, low);
    }
  }

  lemma SameTasksSettle(k: State, r: State)
    requires r.tcbs == k.tcbs && r.current == k.current && (k.yieldPending ==> r.yieldPending)
    ensures Dominates(k) || k.yieldPending ==> Dominates(r) || r.yieldPending
  {
  }

  lemma ResetTasks(k: State)
    requires Placed(k)
    ensures ResetNextUnblock(k).tcbs == k.tcbs && ResetNextUnblock(k).current == k.current
    ensures ResetNextUnblock(k).yieldPending == k.yieldPending
  {
    hide Placed;
  }

  /** A resume that pends no yield leaves the running task on top. */
  lemma ResumeSettles(k: State, now: nat, due: map<TaskId, nat>)
    requires Sound(k, now, due, now + 1) && k.suspendCount == 1 && (Dominates(k) || k.yieldPending)
    ensures Placed(k) && PendingKnown(k) && FineTcbs(k.tcbs) && k.current in k.tcbs
    ensures Dominates(ResumeAll(k)) || ResumeAll(k).yieldPending
  {
    hide Sound, Placed, FineTcbs, MovePending, Replay, Dominates, NoDuplicates, ResetNextUnblock;
    SoundGives(k, now, due, now + 1);
    ControlKeeps(k, now, due, now + 1);
    var k1 := Unsuspend(k);
    SoundGives(k1, now, due, now + 1);
    SameTasksSettle(k, k1);
    MovePendingSettles(k1, now, due, now + 1);
    ResetTasks(MovePending(k1));
    var k2 := Released(k1);
    SameTasksSettle(MovePending(k1), k2);
    ReleasedKeeps(k1, now, due, now + 1);
    ReplaySettles(k2, k2.pendedTicks, now, due);
    var k3 := Replay(k2, k2.pendedTicks);
    SameTasksSettle(k3, ClearPended(k3));
  }

  // ----- calls ---------------------------------------------------------------------------------

  /** Only t changes, and either a switch is asked for or pended, or t is not
      raised above the running task; if t is the running one, it is not lowered. */
  ghost predicate Calm(k: State, r: State, t: TaskId, asks: bool)
    requires k.current in k.tcbs
  {
    && r.current == k.current && (k.yieldPending ==> r.yieldPending)
    && (t == k.current && !asks ==>
          && t in r.tcbs && r.tcbs[t].priority >= k.tcbs[t].priority
          && (k.tcbs[t].list.Ready? ==> r.tcbs[t].list.Ready?))
    && (t != k.current && !asks && !r.yieldPending && t in r.tcbs && r.tcbs[t].list.Ready? ==>
          || r.tcbs[t].priority <= k.tcbs[k.current].priority
          || (t in k.tcbs && k.tcbs[t].list.Ready? && r.tcbs[t].priority <= k.tcbs[t].priority))
  }

  lemma CalmSettles(k: State, r: State, t: TaskId, asks: bool, wrote: iset<TaskId>)
    requires k.current in k.tcbs && Calm(k, r, t, asks) && Frame(k, r, iset{t}, wrote)
    requires Dominates(k) || k.yieldPending
    ensures Dominates(r) || r.yieldPending || asks
  {
  }

  lemma EventCalm(k: State, op: Op)
    requires Steppable(k) && Enabled(k, op) && (op.Event? || op.UnorderedEvent?) && Sleeping(k.tcbs[op.task].list)
    ensures Calm(k, NewState(k, op), op.task, false)
  {
    hide Placed, FineTcbs, SomeReady, EventWake, UnorderedWake, PendingKnown;
    EventWoken(k, op.task);
    if op.UnorderedEvent? {
      UnorderedWoken(k, op.task, op.value);
    }
  }

  lemma NotifyCalm(k: State, op: Op)
    requires Steppable(k) && Enabled(k, op) && (op.NotifyTask? || op.NotifyInterrupt?)
    ensures Calm(k, NewState(k, op), op.task, Asks(k, op))
  {
    hide Placed, FineTcbs, SomeReady, PendingKnown, Notified, MakeReady;
    FineOne(k.tcbs, op.task);
    ReadiedTask(Record(k, op.task, op.action), op.task);
  }

  lemma ResumeCalm(k: State, op: Op)
    requires Steppable(k) && Enabled(k, op)
    requires op.Resume? || op.ResumeInterrupt? || op.ClearNotification? || op.ClearNotifiedBits?
    ensures Calm(k, NewState(k, op), op.task, Asks(k, op))
  {
    hide Placed, FineTcbs, SomeReady, PendingKnown, MakeReady, Clear;
    FineOne(k.tcbs, op.task);
    ReadiedTask(k, op.task);
  }

  lemma SelfCalm(k: State, op: Op)
    requires Steppable(k) && Enabled(k, op)
    requires op.ReadEventValue? || op.WaitForCount? || op.WaitForNotification? || op.TakeNotification? || op.EndWait?
    ensures Calm(k, NewState(k, op), k.current, false)
  {
    hide Placed, FineTcbs, SomeReady, PendingKnown, Clear;
  }

  lemma BlockCalm(k: State, op: Op)
    requires Steppable(k) && Enabled(k, op) && (op.Delay? || op.WaitForEvent?)
    ensures Calm(k, NewState(k, op), k.current, true)
  {
    hide Placed, FineTcbs, SomeReady, PendingKnown, MoveToEnd, MoveSorted;
    MoveToEndIs(k, k.current, Suspended);
  }

  lemma SuspendCalm(k: State, t: TaskId)
    requires Steppable(k) && t in k.tcbs
    ensures Calm(k, SuspendTask(k, t), t, t == k.current)
  {
    hide Placed, FineTcbs, SomeReady, SuspendTask, PendingKnown;
    SuspendedTask(k, t);
  }

  lemma PriorityCalm(k: State, op: Op)
    requires Steppable(k) && Enabled(k, op) && op.Prioritise?
    requires var c := k.tcbs[op.task]; FineTcb(c) && (c.list.Ready? ==> c.list == Ready(c.priority))
    ensures Calm(k, NewState(k, op), op.task, Asks(k, op))
  {
    hide Placed, FineTcbs, SomeReady, PendingKnown, SetPriority;
    PrioritisedTask(k, op.task, op.priority);
  }

  lemma NewTaskCalm(k: State, t: TaskId, p: nat)
    requires Placed(k) && t !in k.tcbs && k.current in k.tcbs
    ensures Calm(k, Create(k, t, p), t, Clamped(p) > k.tcbs[k.current].priority)
  {
    hide Placed;
  }

  lemma DeleteCalm(k: State, t: TaskId)
    requires Steppable(k) && t in k.tcbs
    ensures Calm(k, Delete(k, t), t, t == k.current)
  {
    hide Placed, FineTcbs, SomeReady, Remove, InsertAt, NoDuplicates, PendingKnown;
  }

  lemma {:induction false} CleanUpSteady(k: State)
    requires Placed(k) && Termination in k.lists && k.deletedCount <= |k.lists[Termination].items|
    ensures CleanUp(k).current == k.current && CleanUp(k).yieldPending == k.yieldPending
    decreases k.deletedCount
  {
    hide Placed, CleanOne;
    if k.deletedCount > 0 {
      CleanOneSteady(k);
      CleanUpSteady(CleanOne(k));
    }
  }

  lemma CleanOneSteady(k: State)
    requires Placed(k) && 0 < k.deletedCount <= |k.lists[Termination].items|
    ensures CleanOne(k).current == k.current && CleanOne(k).yieldPending == k.yieldPending
  {
  }

  lemma CleanUpSettles(k: State)
    requires Steppable(k) && Enabled(k, IdleCleanUp) && (Dominates(k) || k.yieldPending)
    ensures var r := NewState(k, IdleCleanUp); Dominates(r) || r.yieldPending
  {
    hide Placed, FineTcbs, SomeReady, PendingKnown, CleanUp;
    Evolution.CleanUpIs(k);
    CleanUpFrame(k);
    CleanUpSteady(k);
  }

  lemma TouchedCalm(c: Config, op: Op, t: TaskId)
    requires Good(c) && Steppable(c.k) && Enabled(c.k, op) && !TakesTime(op) && !op.Switch? && !op.IdleCleanUp?
    requires Touched(c.k, op) == iset{t}
    ensures Calm(c.k, NewState(c.k, op), t, Asks(c.k, op))
  {
    hide Sound, Placed, FineTcbs, SomeReady, PendingKnown, NewState, Calm;
    var k := c.k;
    assert t in Touched(k, op);
    match op {
      case Delay(_, _) => BlockCalm(k, op);
      case WaitForEvent(_, _) => BlockCalm(k, op);
      case Event(_) => TaskGives(c, t); EventCalm(k, op);
      case UnorderedEvent(_, _) => TaskGives(c, t); EventCalm(k, op);
      case NotifyTask(_, _) => NotifyCalm(k, op);
      case NotifyInterrupt(_, _) => NotifyCalm(k, op);
      case Suspend(_) => SuspendIs(k, t); SuspendCalm(k, t);
      case Prioritise(_, _) => TaskGives(c, t); PriorityCalm(k, op);
      case NewTask(_, p) => NewTaskIs(k, t, p); NewTaskCalm(k, t, p);
      case DeleteTask(_) => Evolution.DeleteIs(k, t); DeleteCalm(k, t);
      case Resume(_) => ResumeCalm(k, op);
      case ResumeInterrupt(_) => ResumeCalm(k, op);
      case ClearNotification(_) => ResumeCalm(k, op);
      case ClearNotifiedBits(_, _) => ResumeCalm(k, op);
      case _ => SelfCalm(k, op);
    }
  }

  lemma SuspendIs(k: State, t: TaskId)
    requires Steppable(k) && Enabled(k, Suspend(t))
    ensures NewState(k, Suspend(t)) == SuspendTask(k, t)
  {
    hide Placed, FineTcbs, SomeReady, SuspendTask;
  }

  lemma NewTaskIs(k: State, t: TaskId, p: nat)
    requires Steppable(k) && Enabled(k, NewTask(t, p))
    ensures NewState(k, NewTask(t, p)) == Create(k, t, p)
  {
    hide Placed, FineTcbs, SomeReady, Create;
  }

  lemma TaskGives(c: Config, t: TaskId)
    requires Good(c) && t in c.k.tcbs
    ensures FineTcb(c.k.tcbs[t]) && (c.k.tcbs[t].list.Ready? ==> c.k.tcbs[t].list == Ready(c.k.tcbs[t].priority))
    ensures c.k.tcbs[t].event == OnEventList ==> Sleeping(c.k.tcbs[t].list)
  {
    hide Clocked, DueIn;
  }

  /** Only a switch changes the running task, and it picks a ready one. */
  lemma ControlStays(c: Config, op: Op)
    requires Good(c) && Steppable(c.k) && Enabled(c.k, op)
    ensures var r := NewState(c.k, op);
            if op.Switch? then r.current == c.k.current || (r.current in c.k.tcbs && c.k.tcbs[r.current].list.Ready?)
            else r.current == c.k.current
  {
    hide Sound, Placed, FineTcbs, SomeReady, NewState, Calm;
    if TakesTime(op) {
      TimeControl(c.k, op);
    } else if op.Switch? {
      Evolution.SwitchIs(c.k);
      SwitchControl(c);
    } else if op.IdleCleanUp? {
      Evolution.CleanUpIs(c.k);
      CleanUpSteady(c.k);
    } else {
      var t :| Touched(c.k, op) == iset{t};
      TouchedCalm(c, op, t);
      CalmControl(c.k, NewState(c.k, op), t, Asks(c.k, op));
    }
  }

  lemma CalmControl(k: State, r: State, t: TaskId, asks: bool)
    requires k.current in k.tcbs && Calm(k, r, t, asks)
    ensures r.current == k.current
  {
  }

  lemma TimeControl(k: State, op: Op)
    requires Steppable(k) && Enabled(k, op) && TakesTime(op)
    ensures NewState(k, op).current == k.current
  {
    hide Placed, FineTcbs, PendingKnown, SomeReady, TickNow, Released, Replay;
  }

  lemma SwitchControl(c: Config)
    requires Good(c) && Steppable(c.k)
    ensures var r := SwitchContext(c.k);
            r.current == c.k.current || (r.current in c.k.tcbs && c.k.tcbs[r.current].list.Ready?)
  {
    hide Clocked, Fine, Placed, FineTcbs, SomeReady, Steppable, SwitchContext;
    if c.k.suspendCount == 0 {
      InvGives(c.k, c.now, c.due);
      SoundGives(c.k, c.now, c.due, c.now + 1);
      SwitchPicksHighest(c.k);
    } else {
      PendsSwitch(c.k);
    }
  }

  /** Which steps ask for a switch: a tick as SwitchRequiredWhen says; blocking,
      and suspending or deleting the running task; waking, resuming or creating
      a task that outranks the running one; and a new base priority that lifts
      another task above the running one, or lowers the running one. */
  lemma AsksWhen(c: Config, op: Op)
    requires Good(c) && Enabled(c.k, op)
    ensures Steppable(c.k) && Step(c, op).k.current in Step(c, op).k.tcbs
    ensures var k, p := c.k, c.k.tcbs[c.k.current].priority;
            Asks(k, op) <==>
            match op
            case TickInterrupt =>
              && k.suspendCount == 0
              && (|| k.yieldPending
                  || (exists t :: t in WakesAt(k, c.now + 1, c.due) && t in k.tcbs && k.tcbs[t].priority > p)
                  || Contended(Step(c, op).k))
            case Delay(_, _) => true
            case WaitForEvent(_, _) => true
            case NotifyTask(t, _) => k.tcbs[t].notify == Waiting && k.tcbs[t].priority > p
            case Suspend(t) => t == k.current
            case Resume(t) =>
              && t != k.current && k.tcbs[t].list == Suspended && k.tcbs[t].event == Nowhere
              && k.tcbs[t].notify != Waiting && k.tcbs[t].priority > p
            case Prioritise(t, wanted) =>
              var w := if wanted < MAX_PRIORITIES then wanted else MAX_PRIORITIES - 1;
              if t == k.current then w < k.tcbs[t].basePriority else w > k.tcbs[t].basePriority && w > p
            case NewTask(_, wanted) => (if wanted < MAX_PRIORITIES then wanted else MAX_PRIORITIES - 1) > p
            case DeleteTask(t) => t == k.current
            case _ => false
  {
    hide Sound, Placed, FineTcbs, SomeReady, PendingKnown, TickNow, NewState, Contended, WakesAt;
    var k := c.k;
    InvGives(k, c.now, c.due);
    StepKeeps(c, op);
    CurrentLives(Step(c, op));
    if op.TickInterrupt? && k.suspendCount == 0 {
      SwitchRequiredWhen(k, c.now, c.due);
      TickIs(k);
    }
  }

  lemma TickIs(k: State)
    requires Steppable(k) && k.suspendCount == 0
    ensures NewState(k, TickInterrupt) == TickNow(k).0
  {
    hide Placed, FineTcbs, SomeReady, PendingKnown, TickNow;
  }

  lemma CurrentLives(c: Config)
    requires Good(c)
    ensures c.k.current in c.k.tcbs
  {
    hide Clocked;
  }

  // ----- whole runs ----------------------------------------------------------------------------

  /** Nothing outranks the running task, or a switch is pending, or one was asked
      for since the last switch. */
  ghost predicate Settled(k: State, asked: bool) {
    asked || k.yieldPending || Dominates(k)
  }

  ghost function Asked(k: State, op: Op, asked: bool): bool
    requires Steppable(k) && Enabled(k, op)
  {
    if op.Switch? then false else asked || Asks(k, op)
  }

  /** A switch puts the highest ready task on top, or is pended while the
      scheduler is suspended. */
  lemma SwitchSettles(c: Config)
    requires Good(c) && Steppable(c.k)
    ensures if c.k.suspendCount == 0 then Dominates(SwitchContext(c.k)) else SwitchContext(c.k).yieldPending
  {
    hide Clocked, Fine, Placed, FineTcbs, SomeReady, Steppable, SwitchContext;
    if c.k.suspendCount == 0 {
      InvGives(c.k, c.now, c.due);
      SoundGives(c.k, c.now, c.due, c.now + 1);
      SwitchPicksHighest(c.k);
    } else {
      PendsSwitch(c.k);
    }
    SwitchFrame(c.k);
  }

  lemma PendsSwitch(k: State)
    requires Steppable(k) && k.suspendCount != 0
    ensures SwitchContext(k).yieldPending && SwitchContext(k).current == k.current
  {
    hide Placed, FineTcbs, SomeReady;
  }

  lemma TimeSettles(c: Config, op: Op)
    requires Good(c) && Steppable(c.k) && Enabled(c.k, op) && TakesTime(op) && Settled(c.k, false)
    ensures Settled(NewState(c.k, op), Asks(c.k, op))
  {
    hide Sound, Placed, FineTcbs, SomeReady, TickNow, ResumeAll, Dominates;
    var k := c.k;
    InvGives(k, c.now, c.due);
    match op {
      case TickInterrupt =>
        if k.suspendCount == 0 { TickSettles(k, c.now, c.due); } else { SameTasksSettle(k, PendTick(k)); }
      case SuspendScheduler => SameTasksSettle(k, SuspendAll(k));
      case ResumeScheduler =>
        if k.suspendCount == 1 {
          ResumeSettles(k, c.now, c.due);
        } else {
          NestedResume(k);
          SameTasksSettle(k, Unsuspend(k));
        }
    }
  }

  lemma CallSettles(c: Config, op: Op)
    requires Good(c) && Steppable(c.k) && Enabled(c.k, op) && !TakesTime(op) && !op.Switch? && Settled(c.k, false)
    ensures Settled(NewState(c.k, op), Asks(c.k, op))
  {
    hide Good, Steppable, NewState, Dominates, Calm;
    if op.IdleCleanUp? {
      CleanUpSettles(c.k);
    } else {
      var t :| Touched(c.k, op) == iset{t};
      TouchedCalm(c, op, t);
      CallFrame(c.k, op);
      CalmSettles(c.k, NewState(c.k, op), t, Asks(c.k, op), Wrote(c.k, op));
    }
  }

  lemma StepSettles(c: Config, op: Op, asked: bool)
    requires Good(c) && Steppable(c.k) && Enabled(c.k, op) && Settled(c.k, asked)
    ensures Settled(Step(c, op).k, Asked(c.k, op, asked))
  {
    hide Good, Steppable, NewState, Dominates;
    if op.Switch? {
      SwitchSettles(c);
      Evolution.SwitchIs(c.k);
    } else if !asked {
      if TakesTime(op) { TimeSettles(c, op); } else { CallSettles(c, op); }
    }
  }

  /** Whether a switch that the run asked for has not been made at its end. */
  ghost function StillAsked(c: Config, ops: seq<Op>, asked: bool): bool
    requires IsRun(c, ops)
    decreases |ops|
  {
    if ops == [] then asked else StillAsked(Step(c, ops[0]), ops[1..], Asked(c.k, ops[0], asked))
  }

  /** The scheduler is preemptive: whatever calls, interrupts and ticks a run
      makes, at its end no ready task outranks the running one, unless a
      switch is pending or was asked for and has not been made. */
  lemma {:induction false} NoMissedSwitch(c: Config, ops: seq<Op>, asked: bool)
    requires Good(c) && IsRun(c, ops) && Settled(c.k, asked)
    ensures Settled(Final(c, ops).k, StillAsked(c, ops, asked))
    decreases |ops|
  {
    hide Good, Step, Settled, Asked;
    if ops != [] {
      StepKeeps(c, ops[0]);
      StepSettles(c, ops[0], asked);
      NoMissedSwitch(Step(c, ops[0]), ops[1..], Asked(c.k, ops[0], asked));
    }
  }
}
