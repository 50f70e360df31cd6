/** Whole runs of the scheduler: any interleaving of its calls and interrupts. */
module Runs {
  import opened Lists
  import opened Words
  import opened Kernel
  import opened Ticks
  import opened Suspension
  import opened Tasks
  import opened Lifecycle
  import opened Priorities
  import opened Notify

  /** One call or interrupt; without an argument it concerns the running task. */
  datatype Op =
    | TickInterrupt
    | SuspendScheduler
    | ResumeScheduler
    | Delay(ticks: nat, forever: bool)
    | WaitForEvent(value: nat, ticks: nat)
    | Event(task: TaskId)
    | UnorderedEvent(task: TaskId, value: nat)
    | ReadEventValue
    | WaitForCount
    | WaitForNotification(clearOnEntry: Word)
    | NotifyTask(task: TaskId, action: Action)
    | NotifyInterrupt(task: TaskId, action: Action)
    | TakeNotification(clearCount: bool)
    | EndWait(clearOnExit: Word)
    | ClearNotification(task: TaskId)
    | ClearNotifiedBits(task: TaskId, bits: Word)
    | Suspend(task: TaskId)
    | Resume(task: TaskId)
    | ResumeInterrupt(task: TaskId)
    | Prioritise(task: TaskId, priority: nat)
    | NewTask(task: TaskId, priority: nat)
    | DeleteTask(task: TaskId)
    | IdleCleanUp
    | Switch

  ghost predicate Live(k: State, t: TaskId) {
    t in k.tcbs && k.tcbs[t].list != Termination
  }

  /** What the source demands of the caller: its assertions, its documented
      calling context, and that the idle task never blocks. */
  ghost predicate Enabled(k: State, op: Op) {
    k.current in k.tcbs &&
    match op
    case ResumeScheduler => k.suspendCount > 0
    case Delay(ticks, _) => CanBlock(k, ticks)
    case WaitForEvent(value, ticks) => CanPlace(k, value, ticks)
    case Event(t) => t in k.tcbs && k.tcbs[t].event == OnEventList
    case UnorderedEvent(t, value) => t in k.tcbs && k.tcbs[t].event == OnEventList && value >= IN_USE
    case WaitForCount => k.tcbs[k.current].event == Nowhere
    case WaitForNotification(_) => k.tcbs[k.current].event == Nowhere
    case NotifyTask(t, _) => Live(k, t)
    case NotifyInterrupt(t, _) => Live(k, t)
    case Suspend(t) => Live(k, t) && t != k.idle
    case Resume(t) => t in k.tcbs
    case ResumeInterrupt(t) => t in k.tcbs
    case ClearNotification(t) => t in k.tcbs
    case ClearNotifiedBits(t, _) => t in k.tcbs
    case Prioritise(t, _) => t in k.tcbs
    case NewTask(t, _) => t !in k.tcbs
    case DeleteTask(t) => Live(k, t) && t != k.idle
    case IdleCleanUp => Live(k, k.current)
    case _ => true
  }

  /** A state, the unbounded time of its last processed tick, and the deadlines. */
  datatype Config = Config(k: State, now: nat, due: map<TaskId, nat>)

  ghost predicate Good(c: Config) {
    Inv(c.k, c.now, c.due)
  }

  /** The preconditions of every step function. */
  ghost predicate Steppable(k: State) {
    && Placed(k) && PendingKnown(k) && FineTcbs(k.tcbs) && k.current in k.tcbs
    && k.topReady < MAX_PRIORITIES && SomeReady(k, k.topReady)
    && k.deletedCount <= |k.lists[Termination].items|
  }

  ghost function NewState(k: State, op: Op): State
    requires Steppable(k) && Enabled(k, op)
  {
    match op
    case TickInterrupt => IncrementTick(k).0
    case SuspendScheduler => SuspendAll(k)
    case ResumeScheduler => ResumeAll(k)
    case Delay(ticks, forever) => Block(k, ticks, forever)
    case WaitForEvent(value, ticks) => PlaceOnEventList(k, value, ticks)
    case Event(t) => EventWake(k, t)
    case UnorderedEvent(t, value) => UnorderedWake(k, t, value)
    case WaitForCount => StartTake(k)
    case ReadEventValue => ResetEventValue(k).0
    case WaitForNotification(bits) => StartWait(k, bits)
    case NotifyTask(t, action) => NotifyFromTask(k, t, action)
    case NotifyInterrupt(t, action) => NotifyFromIsr(k, t, action)
    case TakeNotification(clear) => FinishTake(k, clear).0
    case EndWait(bits) => FinishWait(k, bits).0
    case Suspend(t) => SuspendTask(k, t)
    case Resume(t) => ResumeTask(k, t)
    case ResumeInterrupt(t) => ResumeFromIsr(k, t)
    case ClearNotification(t) => ClearState(k, t)
    case ClearNotifiedBits(t, bits) => ClearValue(k, t, bits)
    case Prioritise(t, p) => SetPriority(k, t, p)
    case NewTask(t, p) => Create(k, t, p)
    case DeleteTask(t) => Delete(k, t)
    case IdleCleanUp => CleanUp(k)
    case Switch => SwitchContext(k)
  }

  /** The ticks that a step processes: one when it is not pended, all the
      pended ones when the scheduler is resumed for good. */
  function Elapsed(k: State, op: Op): nat {
    match op
    case TickInterrupt => if k.suspendCount == 0 then 1 else 0
    case ResumeScheduler => if k.suspendCount == 1 then k.pendedTicks else 0
    case _ => 0
  }

  ghost function NewDue(c: Config, op: Op): map<TaskId, nat> {
    match op
    case Delay(ticks, forever) => Deadline(c.k, ticks, forever, c.now, c.due)
    case WaitForEvent(_, ticks) => Deadline(c.k, ticks, true, c.now, c.due)
    case _ => c.due
  }

  ghost function Step(c: Config, op: Op): Config
    requires Steppable(c.k) && Enabled(c.k, op)
  {
    Config(NewState(c.k, op), c.now + Elapsed(c.k, op), NewDue(c, op))
  }

  lemma InvGives(k: State, now: nat, due: map<TaskId, nat>)
    requires Inv(k, now, due)
    ensures Sound(k, now, due, now + 1) && Quiet(k) && Steppable(k)
  {
    hide Clocked;
    IdleIsReady(k);
  }

  /** The tasks that a step readies because they were held pending. */
  ghost function Freed(k: State, op: Op): iset<TaskId> {
    if op.ResumeScheduler? && k.suspendCount == 1 then Members(k.pending) else iset{}
  }

  predicate TakesTime(op: Op) {
    op.TickInterrupt? || op.SuspendScheduler? || op.ResumeScheduler?
  }

  /** Ticks wake exactly the tasks whose deadline they reach; resuming also
      wakes the pended tasks. */
  lemma TimeStepKeeps(c: Config, op: Op)
    requires Good(c) && Enabled(c.k, op) && TakesTime(op)
    ensures Steppable(c.k) && Good(Step(c, op))
    ensures var c' := Step(c, op);
            exists extra: iset<TaskId> ::
              && extra <= Freed(c.k, op)
              && WokeExactly(c.k, c'.k, extra + WakesIn(c.k, c.now, c'.now, c.due))
  {
    hide Sound, Placed, FineTcbs, Clocked, Fine, TickNow, ResumeAll, WokeExactly, WakesIn, SomeReady, WakesAt;
    var k := c.k;
    InvGives(k, c.now, c.due);
    SoundGives(k, c.now, c.due, c.now + 1);
    ControlKeeps(k, c.now, c.due, c.now + 1);
    var c' := Step(c, op);
    var woken := WakesIn(k, c.now, c'.now, c.due);
    ReplayNone(k, c.now, c.due);
    match op {
      case TickInterrupt =>
        if k.suspendCount == 0 {
          TickIsExact(k, c.now, c.due);
          OneTick(k, c.now, c.due);
        } else {
          WokeSame(k, k, k, c'.k, woken);
        }
        WokeExtra(k, c'.k, iset{}, woken, Freed(k, op));
      case SuspendScheduler =>
        WokeSame(k, k, k, c'.k, woken);
        WokeExtra(k, c'.k, iset{}, woken, Freed(k, op));
      case ResumeScheduler =>
        if k.suspendCount == 1 {
          OutermostResume(k, c.now, c.due);
          WokeExtra(k, c'.k, Members(k.pending), woken, Freed(k, op));
        } else {
          NestedResume(k);
          WokeSame(k, k, k, c'.k, woken);
          WokeExtra(k, c'.k, iset{}, woken, Freed(k, op));
        }
    }
  }

  lemma NestedResume(k: State)
    requires Placed(k) && PendingKnown(k) && FineTcbs(k.tcbs) && k.current in k.tcbs && k.suspendCount > 1
    ensures ResumeAll(k) == Unsuspend(k)
  {
    hide Placed, PendingKnown, FineTcbs, Released, Replay;
  }

  lemma OneTick(k: State, now: nat, due: map<TaskId, nat>)
    ensures WakesAt(k, now + 1, due) == WakesIn(k, now, now + 1, due)
  {
  }

  lemma WokeExtra(k: State, r: State, extra: iset<TaskId>, woken: iset<TaskId>, freed: iset<TaskId>)
    requires extra <= freed && (WokeExactly(k, r, extra + woken) || (extra == iset{} && WokeExactly(k, r, woken)))
    ensures exists e: iset<TaskId> :: e <= freed && WokeExactly(k, r, e + woken)
  {
    if extra == iset{} {
      assert extra + woken == woken;
    }
    assert WokeExactly(k, r, extra + woken);
  }

  lemma CallKeeps(c: Config, op: Op)
    requires Good(c) && Enabled(c.k, op) && !TakesTime(op)
    ensures Steppable(c.k) && Sound(Step(c, op).k, c.now, Step(c, op).due, c.now + 1)
  {
    hide Sound, Steppable, Placed, FineTcbs, Clocked, Fine, Evented, Indexed, CleanUp, SwitchContext, Delete, Create;
    hide SetPriority, ResumeTask, SuspendTask, FinishWait, FinishTake, NotifyFromIsr, NotifyFromTask, StartTake;
    hide UnorderedWake, EventWake, PlaceOnEventList, Block, Deadline, Clear, ResumeFromIsr, ClearState, ClearValue;
    hide StartWait;
    var k, now, due := c.k, c.now, c.due;
    InvGives(k, now, due);
    SoundGives(k, now, due, now + 1);
    match op {
      case Delay(ticks, forever) => BlockKeeps(k, ticks, forever, now, due);
      case WaitForEvent(value, ticks) => PlaceKeeps(k, value, ticks, now, due);
      case Event(t) => EventWakeKeeps(k, t, now, due, now + 1);
      case UnorderedEvent(t, value) => UnorderedWakeKeeps(k, t, value, now, due, now + 1);
      case WaitForCount => StartKeeps(k, 0, now, due, now + 1);
      case ReadEventValue => ResetEventValueKeeps(k, now, due, now + 1);
      case WaitForNotification(bits) => StartKeeps(k, bits, now, due, now + 1);
      case NotifyTask(t, action) => NotifyFromTaskKeeps(k, t, action, now, due, now + 1);
      case NotifyInterrupt(t, action) => NotifyFromIsrKeeps(k, t, action, now, due, now + 1);
      case TakeNotification(clear) => FinishKeeps(k, clear, 0, now, due, now + 1);
      case EndWait(bits) => FinishKeeps(k, false, bits, now, due, now + 1);
      case Suspend(t) => SuspendTaskKeeps(k, t, now, due, now + 1);
      case Resume(t) => ResumeTaskKeeps(k, t, now, due, now + 1);
      case ResumeInterrupt(t) => ResumeFromIsrKeeps(k, t, now, due, now + 1);
      case ClearNotification(t) => ClearKeeps(k, t, 0, now, due, now + 1);
      case ClearNotifiedBits(t, bits) => ClearKeeps(k, t, bits, now, due, now + 1);
      case Prioritise(t, p) => SetPriorityKeeps(k, t, p, now, due, now + 1);
      case NewTask(t, p) => CreateKeeps(k, t, p, now, due, now + 1);
      case DeleteTask(t) => DeleteKeeps(k, t, now, due, now + 1);
      case IdleCleanUp => CleanUpKeeps(k, now, due, now + 1);
      case Switch => SwitchKeeps(k, now, due, now + 1);
    }
  }

  // ----- what a call leaves alone --------------------------------------------------

  /** Suspension is untouched, nothing becomes pending while the scheduler
      runs, no mutex count changes, only tasks in touched change, come or go,
      and only tasks in wrote get another notification value. */
  ghost predicate Frame(k: State, r: State, touched: iset<TaskId>, wrote: iset<TaskId>) {
    && r.suspendCount == k.suspendCount && r.pendedTicks == k.pendedTicks
    && (k.suspendCount == 0 && k.pending == [] ==> r.pending == [])
    && (forall t :: t in k.tcbs && t !in touched ==> t in r.tcbs && r.tcbs[t] == k.tcbs[t])
    && (forall t :: t in r.tcbs && t !in touched ==> t in k.tcbs)
    && (forall t :: t in k.tcbs && t in r.tcbs ==>
          && r.tcbs[t].mutexesHeld == k.tcbs[t].mutexesHeld
          && (t !in wrote ==> r.tcbs[t].notified == k.tcbs[t].notified))
  }

  ghost function Wrote(k: State, op: Op): iset<TaskId> {
    match op
    case NotifyTask(t, _) => iset{t}
    case NotifyInterrupt(t, _) => iset{t}
    case ClearNotifiedBits(t, _) => iset{t}
    case ReadEventValue => iset{k.current}
    case WaitForCount => iset{k.current}
    case WaitForNotification(_) => iset{k.current}
    case TakeNotification(_) => iset{k.current}
    case EndWait(_) => iset{k.current}
    case _ => iset{}
  }

  ghost function Touched(k: State, op: Op): iset<TaskId> {
    match op
    case ResumeScheduler => Freed(k, op)
    case Event(t) => iset{t}
    case UnorderedEvent(t, _) => iset{t}
    case NotifyTask(t, _) => iset{t}
    case NotifyInterrupt(t, _) => iset{t}
    case Suspend(t) => iset{t}
    case Resume(t) => iset{t}
    case ResumeInterrupt(t) => iset{t}
    case ClearNotification(t) => iset{t}
    case ClearNotifiedBits(t, _) => iset{t}
    case Prioritise(t, _) => iset{t}
    case NewTask(t, _) => iset{t}
    case DeleteTask(t) => iset{t}
    case IdleCleanUp => iset t | t in k.tcbs && k.tcbs[t].list == Termination
    case _ => iset{k.current}
  }

  lemma BlockFrame(k: State, op: Op)
    requires Steppable(k) && Enabled(k, op) && (op.Delay? || op.WaitForEvent?)
    ensures Frame(k, NewState(k, op), iset{k.current}, iset{})
  {
    hide Placed, FineTcbs, SomeReady, Block;
    BlockedTask(k, op.ticks, if op.Delay? then op.forever else true);
  }

  lemma EventFrame(k: State, op: Op)
    requires Steppable(k) && Enabled(k, op) && (op.Event? || op.UnorderedEvent?)
    ensures Frame(k, NewState(k, op), iset{op.task}, iset{})
  {
    hide Placed, FineTcbs, SomeReady, EventWake, UnorderedWake, PendingKnown;
    EventWoken(k, op.task);
    if op.UnorderedEvent? {
      UnorderedWoken(k, op.task, op.value);
    }
  }

  lemma NotifyFrame(k: State, op: Op)
    requires Steppable(k) && Enabled(k, op) && (op.NotifyTask? || op.NotifyInterrupt?)
    ensures Frame(k, NewState(k, op), iset{op.task}, iset{op.task})
  {
    hide Placed, FineTcbs, SomeReady, Notified, MakeReady, PendingKnown;
    FineOne(k.tcbs, op.task);
    ReadiedTask(Record(k, op.task, op.action), op.task);
  }

  lemma ClearFrame(k: State, op: Op)
    requires Steppable(k) && Enabled(k, op) && (op.ClearNotification? || op.ClearNotifiedBits?)
    ensures Frame(k, NewState(k, op), Touched(k, op), Wrote(k, op))
  {
    hide Placed, FineTcbs, SomeReady, PendingKnown, Clear;
  }

  lemma ResumeFrame(k: State, op: Op)
    requires Steppable(k) && Enabled(k, op) && (op.Resume? || op.ResumeInterrupt?)
    ensures Frame(k, NewState(k, op), iset{op.task}, iset{})
  {
    hide Placed, FineTcbs, SomeReady, MakeReady, PendingKnown;
    FineOne(k.tcbs, op.task);
    ReadiedTask(k, op.task);
  }

  lemma WaitFrame(k: State, op: Op)
    requires Steppable(k) && Enabled(k, op)
    requires op.ReadEventValue? || op.WaitForCount? || op.WaitForNotification? || op.TakeNotification? || op.EndWait?
    ensures Frame(k, NewState(k, op), iset{k.current}, iset{k.current})
  {
    hide Placed, FineTcbs, SomeReady, PendingKnown, Clear, MakeReady, Block, SuspendTask, SetPriority, Create;
    hide Delete, CleanUp, SwitchContext, ResumeAll;
  }

  lemma TaskFrame(k: State, op: Op)
    requires Steppable(k) && Enabled(k, op)
    requires op.Suspend? || op.Prioritise?
    ensures Frame(k, NewState(k, op), iset{op.task}, iset{})
  {
    hide Placed, FineTcbs, SomeReady, SuspendTask, MakeReady, PendingKnown;
    if op.Suspend? {
      SuspendedTask(k, op.task);
    } else {
      PrioritisedTask(k, op.task, op.priority);
    }
  }

  lemma NewTaskFrame(k: State, t: TaskId, p: nat)
    requires Placed(k) && t !in k.tcbs
    ensures Frame(k, Create(k, t, p), iset{t}, iset{})
  {
    hide Placed, NewTcb;
  }

  lemma DeleteFrame(k: State, t: TaskId)
    requires Placed(k) && PendingKnown(k) && t in k.tcbs
    ensures Frame(k, Delete(k, t), iset{t}, iset{})
  {
    hide Placed, Remove, InsertAt, NoDuplicates;
  }

  lemma SwitchFrame(k: State)
    requires Steppable(k)
    ensures Frame(k, SwitchContext(k), iset{}, iset{})
  {
    hide Placed, FineTcbs;
  }

  lemma CleanOneTask(k: State)
    requires Placed(k) && 0 < k.deletedCount <= |k.lists[Termination].items|
    ensures var t, r := k.lists[Termination].items[0], CleanOne(k);
            && t in k.tcbs && k.tcbs[t].list == Termination && r.tcbs == k.tcbs - {t}
            && r.suspendCount == k.suspendCount && r.pendedTicks == k.pendedTicks && r.pending == k.pending
  {
    assert k.lists[Termination].items[0] in k.lists[Termination].items;
  }

  lemma {:induction false} CleanUpFrame(k: State)
    requires Placed(k) && Termination in k.lists && k.deletedCount <= |k.lists[Termination].items|
    ensures Frame(k, CleanUp(k), (iset t | t in k.tcbs && k.tcbs[t].list == Termination), iset{})
    ensures forall t :: t in CleanUp(k).tcbs ==> t in k.tcbs && CleanUp(k).tcbs[t] == k.tcbs[t]
    decreases k.deletedCount
  {
    hide Placed, CleanOne;
    if k.deletedCount > 0 {
      CleanOneTask(k);
      CleanUpFrame(CleanOne(k));
    }
  }

  lemma CallFrame(k: State, op: Op)
    requires Steppable(k) && Enabled(k, op) && !TakesTime(op)
    ensures Frame(k, NewState(k, op), Touched(k, op), Wrote(k, op))
  {
    hide Placed, FineTcbs, CleanUp, SomeReady, SwitchContext, Delete, Create, Frame;
    hide SetPriority, ResumeTask, SuspendTask, FinishWait, FinishTake, NotifyFromIsr, NotifyFromTask, StartTake;
    hide UnorderedWake, EventWake, PlaceOnEventList, Block, ResumeFromIsr, ClearState, ClearValue;
    hide StartWait;
    match op {
      case Delay(_, _) => BlockFrame(k, op);
      case WaitForEvent(_, _) => BlockFrame(k, op);
      case Event(_) => EventFrame(k, op);
      case UnorderedEvent(_, _) => EventFrame(k, op);
      case NotifyTask(_, _) => NotifyFrame(k, op);
      case NotifyInterrupt(_, _) => NotifyFrame(k, op);
      case ReadEventValue => WaitFrame(k, op);
      case WaitForCount => WaitFrame(k, op);
      case WaitForNotification(_) => WaitFrame(k, op);
      case TakeNotification(_) => WaitFrame(k, op);
      case EndWait(_) => WaitFrame(k, op);
      case IdleCleanUp => AllLists(k, Termination); CleanUpFrame(k);
      case Switch => SwitchFrame(k); FrameGrows(k, SwitchContext(k), iset{k.current});
      case NewTask(t, p) => NewTaskFrame(k, t, p);
      case DeleteTask(t) => DeleteFrame(k, t);
      case Resume(_) => ResumeFrame(k, op);
      case ResumeInterrupt(_) => ResumeFrame(k, op);
      case ClearNotification(_) => ClearFrame(k, op);
      case ClearNotifiedBits(_, _) => ClearFrame(k, op);
      case _ => TaskFrame(k, op);
    }
  }

  lemma FrameGrows(k: State, r: State, touched: iset<TaskId>)
    requires Frame(k, r, iset{}, iset{})
    ensures Frame(k, r, touched, iset{})
  {
  }

  // ----- every reachable state ------------------------------------------------------

  /** Every call and every interrupt keeps the scheduler's invariant. */
  lemma StepKeeps(c: Config, op: Op)
    requires Good(c) && Enabled(c.k, op)
    ensures Steppable(c.k) && Good(Step(c, op))
  {
    hide Sound, Steppable, NewState, Frame;
    if TakesTime(op) {
      TimeStepKeeps(c, op);
    } else {
      CallKeeps(c, op);
      CallFrame(c.k, op);
      FrameKeepsQuiet(c.k, NewState(c.k, op), Touched(c.k, op), Wrote(c.k, op));
    }
  }

  lemma FrameKeepsQuiet(k: State, r: State, touched: iset<TaskId>, wrote: iset<TaskId>)
    requires Frame(k, r, touched, wrote) && Quiet(k)
    ensures Quiet(r)
  {
  }

  ghost predicate IsRun(c: Config, ops: seq<Op>)
    decreases |ops|
  {
    ops != [] ==> Steppable(c.k) && Enabled(c.k, ops[0]) && IsRun(Step(c, ops[0]), ops[1..])
  }

  ghost function Final(c: Config, ops: seq<Op>): Config
    requires IsRun(c, ops)
    decreases |ops|
  {
    if ops == [] then c else Final(Step(c, ops[0]), ops[1..])
  }

  /** In every reachable state: each task is on exactly one list, ready tasks
      on the list of their priority, delayed tasks on the list of their epoch,
      nothing is pending while the scheduler runs, and the counters are exact. */
  lemma {:induction false} AlwaysGood(c: Config, ops: seq<Op>)
    requires Good(c) && IsRun(c, ops)
    ensures Good(Final(c, ops))
    decreases |ops|
  {
    hide Good, Step;
    if ops != [] {
      StepKeeps(c, ops[0]);
      AlwaysGood(Step(c, ops[0]), ops[1..]);
    }
  }

  // ----- what moves a task ----------------------------------------------------------

  /** The steps that wake, block, suspend or delete t. A priority change, a
      notification that t does not wait for, or a resumption of a task that is
      not suspended does none of this. */
  ghost predicate Disturbs(k: State, op: Op, t: TaskId)
    requires t in k.tcbs
  {
    match op
    case Delay(_, _) => t == k.current
    case WaitForEvent(_, _) => t == k.current
    case Event(u) => u == t
    case UnorderedEvent(u, _) => u == t
    case NotifyTask(u, _) => u == t && k.tcbs[t].notify == Waiting
    case NotifyInterrupt(u, _) => u == t && k.tcbs[t].notify == Waiting
    case Suspend(u) => u == t
    case Resume(u) => u == t && t != k.current && IsSuspended(k, t)
    case ResumeInterrupt(u) => u == t && IsSuspended(k, t)
    case DeleteTask(u) => u == t
    case ResumeScheduler => k.suspendCount == 1 && t in k.pending
    case IdleCleanUp => k.tcbs[t].list == Termination
    case _ => false
  }
}
