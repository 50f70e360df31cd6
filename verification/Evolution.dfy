/** What one step of a run can do to one task, as seen from the objects that
    tasks hold and wait for. */
module Evolution {
  import opened Lists
  import opened Words
  import opened Kernel
  import opened Suspension
  import opened Tasks
  import opened Lifecycle
  import opened Priorities
  import opened Notify
  import opened Runs

  /** Mutex counts stay, only deletion ends a task, and an event item gets on
      a list only by its own task's waiting. */
  ghost predicate Evolved(c: Tcb, c': Tcb, deleted: bool, placed: bool) {
    && c'.mutexesHeld == c.mutexesHeld
    && (c'.list == Termination ==> c.list == Termination || deleted)
    && (c'.event == OnEventList ==>
          placed || (c.event == OnEventList && (c.eventValue < IN_USE ==> c'.eventValue < IN_USE)))
  }

  /** Both items stay where they are, but for a move between ready lists, and
      only the task itself starts or stops waiting for a notification. */
  ghost predicate StaysPut(c: Tcb, c': Tcb, runs: bool) {
    && (c'.list == c.list || (c.list.Ready? && c'.list.Ready?)) && c'.event == c.event
    && (!runs ==> (c'.notify == Waiting <==> c.notify == Waiting))
  }

  /** The steps that store another value in t's event item. */
  ghost predicate Rewrites(k: State, op: Op, t: TaskId) {
    match op
    case ReadEventValue => t == k.current
    case WaitForEvent(_, _) => t == k.current
    case UnorderedEvent(u, _) => u == t
    case _ => false
  }

  /** t's TCB with the priorities that the call gives it. */
  function Ranked(c: Tcb, op: Op, t: TaskId): Tcb {
    if op.Prioritise? && op.task == t then NewPriorities(c, op.priority) else c
  }

  ghost predicate TaskEvolves(k: State, r: State, op: Op, t: TaskId)
    requires t in k.tcbs
  {
    if t in r.tcbs then
      && Evolved(k.tcbs[t], r.tcbs[t], op == DeleteTask(t), op.WaitForEvent? && t == k.current)
      && (!TakesTime(op) && !Disturbs(k, op, t) ==> StaysPut(k.tcbs[t], r.tcbs[t], t == k.current))
      && r.tcbs[t].priority == Ranked(k.tcbs[t], op, t).priority
      && (!Rewrites(k, op, t) ==> r.tcbs[t].eventValue == Ranked(k.tcbs[t], op, t).eventValue)
      && (op.ReadEventValue? && t == k.current ==> r.tcbs[t].eventValue == MAX_PRIORITIES - k.tcbs[t].priority)
    else op == DeleteTask(t) || (op.IdleCleanUp? && k.tcbs[t].list == Termination)
  }

  ghost predicate FreshTcb(c: Tcb) {
    c.mutexesHeld == 0 && c.event == Nowhere && c.list != Termination
  }

  lemma BlockEvolves(k: State, op: Op)
    requires Steppable(k) && Enabled(k, op) && (op.Delay? || op.WaitForEvent?)
    ensures TaskEvolves(k, NewState(k, op), op, k.current)
  {
    hide Placed, FineTcbs, SomeReady, Block, PendingKnown;
    BlockedTask(k, op.ticks, if op.Delay? then op.forever else true);
  }

  lemma EventEvolves(k: State, op: Op)
    requires Steppable(k) && Enabled(k, op) && (op.Event? || op.UnorderedEvent?)
    ensures TaskEvolves(k, NewState(k, op), op, op.task)
  {
    hide Placed, FineTcbs, SomeReady, EventWake, UnorderedWake, PendingKnown;
    EventWoken(k, op.task);
    if op.UnorderedEvent? {
      UnorderedWoken(k, op.task, op.value);
    }
  }

  lemma NotifyEvolves(k: State, op: Op)
    requires Steppable(k) && Enabled(k, op) && (op.NotifyTask? || op.NotifyInterrupt?)
    ensures TaskEvolves(k, NewState(k, op), op, op.task)
  {
    hide Placed, FineTcbs, SomeReady, PendingKnown, Notified, MakeReady;
    FineOne(k.tcbs, op.task);
    ReadiedTask(Record(k, op.task, op.action), op.task);
  }

  lemma SelfEvolves(k: State, op: Op)
    requires Steppable(k) && Enabled(k, op)
    requires op.ReadEventValue? || op.WaitForCount? || op.WaitForNotification? || op.TakeNotification? || op.EndWait?
    requires FineTcb(k.tcbs[k.current])
    ensures TaskEvolves(k, NewState(k, op), op, k.current)
  {
    hide Placed, FineTcbs, SomeReady, PendingKnown, Clear, MakeReady, Block, SuspendTask, SetPriority, Create;
    hide Delete, CleanUp, SwitchContext, ResumeAll;
  }

  lemma ResumeEvolves(k: State, op: Op)
    requires Steppable(k) && Enabled(k, op)
    requires op.Resume? || op.ResumeInterrupt? || op.ClearNotification? || op.ClearNotifiedBits?
    ensures TaskEvolves(k, NewState(k, op), op, op.task)
  {
    hide Placed, FineTcbs, SomeReady, Remove, InsertAt, NoDuplicates, PendingKnown, Clear;
  }

  lemma OtherEvolves(k: State, op: Op)
    requires Steppable(k) && Enabled(k, op) && (op.Suspend? || op.Prioritise?)
    requires FineTcb(k.tcbs[op.task])
    ensures TaskEvolves(k, NewState(k, op), op, op.task)
  {
    hide Placed, FineTcbs, SomeReady, SuspendTask, SetPriority, PendingKnown;
    if op.Suspend? {
      SuspendedTask(k, op.task);
    } else {
      PrioritisedTask(k, op.task, op.priority);
    }
  }

  lemma DeleteEvolves(k: State, t: TaskId)
    requires Placed(k) && PendingKnown(k) && t in k.tcbs
    ensures TaskEvolves(k, Delete(k, t), DeleteTask(t), t)
  {
    hide Placed, Remove, InsertAt, NoDuplicates, PendingKnown;
  }

  lemma TimeEvolves(c: Config, op: Op, t: TaskId)
    requires Good(c) && Enabled(c.k, op) && TakesTime(op) && t in c.k.tcbs
    ensures Steppable(c.k) && TaskEvolves(c.k, NewState(c.k, op), op, t)
    ensures NewState(c.k, op).tcbs.Keys == c.k.tcbs.Keys
  {
    hide Sound, Placed, FineTcbs, SomeReady, WakesIn, Members, NewState, Enabled;
    TimeStepKeeps(c, op);
  }

  lemma CleanUpEvolves(k: State, t: TaskId)
    requires Steppable(k) && Enabled(k, IdleCleanUp) && t in k.tcbs
    ensures TaskEvolves(k, NewState(k, IdleCleanUp), IdleCleanUp, t)
  {
    hide Placed, FineTcbs, SomeReady, PendingKnown, NewState, CleanUp;
    CleanUpIs(k);
    CleanUpFrame(k);
  }

  lemma SwitchEvolves(k: State, t: TaskId)
    requires Steppable(k) && t in k.tcbs
    ensures TaskEvolves(k, SwitchContext(k), Switch, t)
  {
    hide Placed, FineTcbs, SwitchContext, SomeReady;
    SwitchFrame(k);
  }

  lemma FineGiven(c: Config, t: TaskId)
    requires Good(c) && t in c.k.tcbs
    ensures FineTcb(c.k.tcbs[t])
  {
    hide Clocked, DueIn;
  }

  lemma CallEvolves(c: Config, op: Op, t: TaskId)
    requires Good(c) && Steppable(c.k) && Enabled(c.k, op) && !TakesTime(op) && t in c.k.tcbs
    ensures TaskEvolves(c.k, NewState(c.k, op), op, t)
  {
    hide Sound, Placed, FineTcbs, SomeReady, PendingKnown, NewState, TaskEvolves, Frame;
    var k := c.k;
    FineGiven(c, t);
    CallFrame(k, op);
    if t !in Touched(k, op) {
      UntouchedEvolves(k, NewState(k, op), op, t);
    } else {
      match op {
        case Delay(_, _) => BlockEvolves(k, op);
        case WaitForEvent(_, _) => BlockEvolves(k, op);
        case Event(_) => EventEvolves(k, op);
        case UnorderedEvent(_, _) => EventEvolves(k, op);
        case NotifyTask(_, _) => NotifyEvolves(k, op);
        case NotifyInterrupt(_, _) => NotifyEvolves(k, op);
        case ReadEventValue => SelfEvolves(k, op);
        case WaitForCount => SelfEvolves(k, op);
        case WaitForNotification(_) => SelfEvolves(k, op);
        case TakeNotification(_) => SelfEvolves(k, op);
        case EndWait(_) => SelfEvolves(k, op);
        case DeleteTask(_) => DeleteIs(k, t); DeleteEvolves(k, t);
        case IdleCleanUp => CleanUpEvolves(k, t);
        case Switch => SwitchIs(k); SwitchEvolves(k, t);
        case Suspend(_) => OtherEvolves(k, op);
        case Prioritise(_, _) => OtherEvolves(k, op);
        case Resume(_) => ResumeEvolves(k, op);
        case ResumeInterrupt(_) => ResumeEvolves(k, op);
        case ClearNotification(_) => ResumeEvolves(k, op);
        case ClearNotifiedBits(_, _) => ResumeEvolves(k, op);
        case NewTask(_, _) =>
      }
    }
  }

  lemma UntouchedEvolves(k: State, r: State, op: Op, t: TaskId)
    requires t in k.tcbs && t !in Touched(k, op) && Frame(k, r, Touched(k, op), Wrote(k, op)) && !TakesTime(op)
    ensures TaskEvolves(k, r, op, t)
  {
  }

  lemma DeleteIs(k: State, t: TaskId)
    requires Steppable(k) && Enabled(k, DeleteTask(t))
    ensures NewState(k, DeleteTask(t)) == Delete(k, t)
  {
    hide Placed, FineTcbs, SomeReady, Delete;
  }

  lemma CleanUpIs(k: State)
    requires Steppable(k) && Enabled(k, IdleCleanUp)
    ensures Termination in k.lists && NewState(k, IdleCleanUp) == CleanUp(k)
  {
    hide Placed, FineTcbs, SomeReady, CleanUp;
    AllLists(k, Termination);
  }

  lemma SwitchIs(k: State)
    requires Steppable(k)
    ensures NewState(k, Switch) == SwitchContext(k)
  {
    hide Placed, FineTcbs, SomeReady, SwitchContext;
  }

  lemma TouchedKnown(k: State, op: Op, t: TaskId)
    requires Enabled(k, op) && !TakesTime(op) && t in Touched(k, op)
    ensures t in k.tcbs || (op.NewTask? && op.task == t)
  {
  }

  lemma NewTaskIsFresh(k: State, op: Op, t: TaskId)
    requires Steppable(k) && Enabled(k, op) && op.NewTask? && op.task == t
    ensures t in NewState(k, op).tcbs && FreshTcb(NewState(k, op).tcbs[t])
  {
    hide Placed, FineTcbs, SomeReady;
  }

  /** Every task that a step leaves either evolved from itself or is fresh. */
  lemma StepEvolves(c: Config, op: Op)
    requires Good(c) && Enabled(c.k, op)
    ensures Steppable(c.k)
    ensures forall t :: t in c.k.tcbs ==> TaskEvolves(c.k, NewState(c.k, op), op, t)
    ensures forall t :: t in NewState(c.k, op).tcbs && t !in c.k.tcbs ==> FreshTcb(NewState(c.k, op).tcbs[t])
  {
    hide Sound, Placed, FineTcbs, SomeReady, PendingKnown, NewState, TaskEvolves, Steppable, Good;
    StepKeeps(c, op);
    var k, r := c.k, NewState(c.k, op);
    forall t | t in k.tcbs ensures TaskEvolves(k, r, op, t) {
      if TakesTime(op) { TimeEvolves(c, op, t); } else { CallEvolves(c, op, t); }
    }
    forall t | t in r.tcbs && t !in k.tcbs ensures FreshTcb(r.tcbs[t]) {
      if TakesTime(op) {
        TimeEvolves(c, op, k.current);
      } else {
        CallFrame(k, op);
        TouchedKnown(k, op, t);
        NewTaskIsFresh(k, op, t);
      }
    }
  }
}
