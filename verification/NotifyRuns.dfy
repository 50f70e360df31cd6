/** Notifications over whole runs: counts are conserved, and none is lost, be it
    before the waiting task sleeps or after. */
module NotifyRuns {
  import opened Lists
  import opened Words
  import opened Kernel
  import opened Ticks
  import opened Suspension
  import opened Tasks
  import opened Lifecycle
  import opened Notify
  import opened Priorities
  import opened Runs
  import opened Evolution
  import Effects
  import Preemption

  // ----- conservation of counts ------------------------------------------------------

  predicate IsNotification(op: Op, t: TaskId) {
    (op.NotifyTask? || op.NotifyInterrupt?) && op.task == t
  }

  /** The run uses t's notification value as a counting semaphore only. */
  ghost predicate CountsOnly(c: Config, ops: seq<Op>, t: TaskId)
    requires IsRun(c, ops)
    decreases |ops|
  {
    && t in c.k.tcbs
    && (ops != [] ==>
          && (IsNotification(ops[0], t) ==> ops[0].action == Increment)
          && (ops[0].ClearNotifiedBits? ==> ops[0].task != t)
          && (c.k.current == t ==> !ops[0].EndWait? && !ops[0].WaitForNotification?)
          && CountsOnly(Step(c, ops[0]), ops[1..], t))
  }

  function Given(op: Op, t: TaskId): nat {
    if IsNotification(op, t) then 1 else 0
  }

  ghost function Gives(ops: seq<Op>, t: TaskId): nat {
    if ops == [] then 0 else Given(ops[0], t) + Gives(ops[1..], t)
  }

  /** What ulTaskGenericNotifyTake consumes: the whole count, or one of it. */
  ghost function Taken(k: State, op: Op, t: TaskId): nat
    requires t in k.tcbs
  {
    var count := k.tcbs[t].notified;
    if !op.TakeNotification? || k.current != t || count == 0 then 0
    else if op.clearCount then count else 1
  }

  ghost function Consumed(c: Config, ops: seq<Op>, t: TaskId): nat
    requires IsRun(c, ops) && CountsOnly(c, ops, t)
    decreases |ops|
  {
    if ops == [] then 0
    else Taken(c.k, ops[0], t) + Consumed(Step(c, ops[0]), ops[1..], t)
  }

  /** A 32-bit count after gives and takes. */
  function Balance(count: nat, given: nat, taken: nat): nat {
    (count + given - taken) % TICK_MODULUS
  }

  lemma BalanceChain(v: Word, g: nat, t: nat, g': nat, t': nat)
    ensures Balance(v, 0, 0) == v
    ensures Balance(Balance(v, g, t), g', t') == Balance(v, g + g', t + t')
  {
  }

  lemma GiveStep(k: State, op: Op)
    requires Steppable(k) && Enabled(k, op) && (op.NotifyTask? || op.NotifyInterrupt?) && op.action == Increment
    ensures op.task in NewState(k, op).tcbs
    ensures NewState(k, op).tcbs[op.task].notified == Balance(k.tcbs[op.task].notified, 1, 0)
  {
    hide Placed, FineTcbs, SomeReady, MakeReady, NoDuplicates, PendingKnown;
    FineOne(k.tcbs, op.task);
    ReadiedTask(Record(k, op.task, op.action), op.task);
  }

  lemma OwnStep(k: State, op: Op)
    requires Steppable(k) && Enabled(k, op) && (op.ReadEventValue? || op.WaitForCount? || op.TakeNotification?)
    ensures k.current in NewState(k, op).tcbs
    ensures NewState(k, op).tcbs[k.current].notified == Balance(k.tcbs[k.current].notified, 0, Taken(k, op, k.current))
  {
    hide Placed, FineTcbs, SomeReady, Remove, InsertAt, NoDuplicates, PendingKnown;
  }

  lemma WriteStep(k: State, op: Op, t: TaskId)
    requires Steppable(k) && Enabled(k, op) && t in k.tcbs && t in Wrote(k, op)
    requires (IsNotification(op, t) ==> op.action == Increment) && (op.ClearNotifiedBits? ==> op.task != t)
    requires k.current == t ==> !op.EndWait? && !op.WaitForNotification?
    ensures t in NewState(k, op).tcbs
    ensures NewState(k, op).tcbs[t].notified == Balance(k.tcbs[t].notified, Given(op, t), Taken(k, op, t))
  {
    hide Steppable, Enabled, NewState, Balance;
    if op.NotifyTask? || op.NotifyInterrupt? {
      GiveStep(k, op);
    } else {
      OwnStep(k, op);
    }
  }

  lemma CountStep(c: Config, op: Op, t: TaskId)
    requires Good(c) && Steppable(c.k) && Enabled(c.k, op) && t in c.k.tcbs && t in Step(c, op).k.tcbs
    requires (IsNotification(op, t) ==> op.action == Increment) && (op.ClearNotifiedBits? ==> op.task != t)
    requires c.k.current == t ==> !op.EndWait? && !op.WaitForNotification?
    ensures Step(c, op).k.tcbs[t].notified == Balance(c.k.tcbs[t].notified, Given(op, t), Taken(c.k, op, t))
  {
    hide NewState, Balance, Sound, Placed, FineTcbs, Good, Members, SomeReady;
    BalanceChain(c.k.tcbs[t].notified, 0, 0, 0, 0);
    if TakesTime(op) {
      TimeStepKeeps(c, op);
    } else if t in Wrote(c.k, op) {
      WriteStep(c.k, op, t);
    } else {
      CallFrame(c.k, op);
    }
  }

  lemma Unfold(c: Config, ops: seq<Op>, t: TaskId)
    requires IsRun(c, ops) && CountsOnly(c, ops, t) && ops != []
    ensures Gives(ops, t) == Given(ops[0], t) + Gives(ops[1..], t)
    ensures Consumed(c, ops, t) == Taken(c.k, ops[0], t) + Consumed(Step(c, ops[0]), ops[1..], t)
  {
    hide Step, Steppable, Enabled, Taken, Given;
  }

  /** Every give is consumed exactly once or still in the value: over any run,
      value = initial + gives - consumed, modulo 2^32. */
  lemma {:induction false} CountsAreConserved(c: Config, ops: seq<Op>, t: TaskId)
    requires Good(c) && IsRun(c, ops) && CountsOnly(c, ops, t)
    ensures t in Final(c, ops).k.tcbs
    ensures Final(c, ops).k.tcbs[t].notified == Balance(c.k.tcbs[t].notified, Gives(ops, t), Consumed(c, ops, t))
    decreases |ops|
  {
    hide Good, Step, Steppable, Enabled, Taken, Given, Balance, Gives, Consumed;
    if ops == [] {
      NoGives(c, t);
    } else {
      var op, c' := ops[0], Step(c, ops[0]);
      StepKeeps(c, op);
      CountStep(c, op, t);
      CountsAreConserved(c', ops[1..], t);
      Unfold(c, ops, t);
      BalanceChain(c.k.tcbs[t].notified, Given(op, t), Taken(c.k, op, t), Gives(ops[1..], t),
                   Consumed(c', ops[1..], t));
    }
  }

  lemma NoGives(c: Config, t: TaskId)
    requires t in c.k.tcbs
    ensures IsRun(c, []) && CountsOnly(c, [], t)
    ensures Balance(c.k.tcbs[t].notified, Gives([], t), Consumed(c, [], t)) == c.k.tcbs[t].notified
  {
  }

  // ----- no lost notification ------------------------------------------------------

  /** What can happen between a task marking itself as waiting and its resuming
      the scheduler: interrupts, and its own move to a delayed list. */
  predicate InWaitWindow(op: Op) {
    op.TickInterrupt? || op.NotifyInterrupt? || op.ResumeInterrupt? || op.Event? || op.Delay? || op.Switch?
  }

  /** Either still waiting unnotified, or held on the pending-ready list. */
  ghost predicate Poised(k: State, t: TaskId, notified: bool) {
    && t in k.tcbs && k.current == t && k.suspendCount == 1
    && (if notified then k.tcbs[t].notify == Received && k.tcbs[t].event == OnPendingReady
        else k.tcbs[t].notify == Waiting)
  }

  lemma PoisedStep(c: Config, op: Op, t: TaskId, notified: bool)
    requires Good(c) && Steppable(c.k) && Enabled(c.k, op) && InWaitWindow(op) && Poised(c.k, t, notified)
    ensures Poised(Step(c, op).k, t, notified || IsNotification(op, t))
  {
    hide Good, Steppable, NewState, Remove, InsertAt, Rotation, Advance, Effects.Written;
    match op {
      case TickInterrupt => Effects.ControlEffect(c);
      case NotifyInterrupt(u, action) => Effects.NotifyInterruptEffect(c, u, action);
      case ResumeInterrupt(u) => Effects.ResumeInterruptEffect(c, u);
      case Switch => Effects.SwitchEffect(c);
      case Event(u) => Effects.EventEffect(c, u);
      case Delay(ticks, forever) => Effects.DelayEffect(c, ticks, forever);
    }
  }

  lemma {:induction false} StaysPoised(c: Config, ops: seq<Op>, t: TaskId, notified: bool)
    requires Good(c) && IsRun(c, ops) && Poised(c.k, t, notified)
    requires forall i :: 0 <= i < |ops| ==> InWaitWindow(ops[i])
    ensures Good(Final(c, ops))
    ensures Poised(Final(c, ops).k, t, notified || exists i :: 0 <= i < |ops| && IsNotification(ops[i], t))
    decreases |ops|
  {
    hide Good, Step, Steppable, Enabled, Poised;
    if ops != [] {
      StepKeeps(c, ops[0]);
      PoisedStep(c, ops[0], t, notified);
      StaysPoised(Step(c, ops[0]), ops[1..], t, notified || IsNotification(ops[0], t));
      assert forall i :: 0 < i < |ops| ==> ops[i] == ops[1..][i - 1];
    }
  }

  /** A task that has marked itself as waiting and is notified, by any
      interrupt at any point before it resumes the scheduler, is ready once the
      scheduler runs, though the notification may precede its own move to the
      delayed list. */
  lemma NoLostNotification(c: Config, ops: seq<Op>, i: nat)
    requires Good(c) && IsRun(c, ops) && c.k.suspendCount == 1
    requires c.k.current in c.k.tcbs && c.k.tcbs[c.k.current].notify == Waiting
    requires forall j :: 0 <= j < |ops| ==> InWaitWindow(ops[j])
    requires i < |ops| && IsNotification(ops[i], c.k.current)
    ensures var f := Final(c, ops);
            && Steppable(f.k) && Enabled(f.k, ResumeScheduler)
            && var r := Step(f, ResumeScheduler).k;
               && c.k.current in r.tcbs && r.suspendCount == 0
               && r.tcbs[c.k.current].list.Ready? && r.tcbs[c.k.current].event == Nowhere
               && r.tcbs[c.k.current].notify == Received
  {
    hide Good, Steppable, Step, Runs.IsRun, Final;
    StaysPoised(c, ops, c.k.current, false);
    PoisedResumes(Final(c, ops), c.k.current);
  }

  lemma PoisedResumes(f: Config, t: TaskId)
    requires Good(f) && Poised(f.k, t, true)
    ensures Steppable(f.k) && Enabled(f.k, ResumeScheduler)
    ensures var r := Step(f, ResumeScheduler).k;
            && t in r.tcbs && r.suspendCount == 0
            && r.tcbs[t].list.Ready? && r.tcbs[t].event == Nowhere && r.tcbs[t].notify == Received
  {
    hide Sound, Placed, FineTcbs, SomeReady, WakesIn, Members, ResumeAll, NoDuplicates;
    InvGives(f.k, f.now, f.due);
    PendingMember(f.k, t, f.now, f.due);
    OutermostResume(f.k, f.now, f.due);
    assert t in NewState(f.k, ResumeScheduler).tcbs.Keys;
  }

  lemma PendingMember(k: State, t: TaskId, now: nat, due: map<TaskId, nat>)
    requires Sound(k, now, due, now + 1) && t in k.tcbs && k.tcbs[t].event == OnPendingReady
    ensures t in Members(k.pending)
  {
    hide Clocked;
  }

  // ----- notifications of a sleeping task --------------------------------------------

  /** t sleeps and waits for a notification, without a timeout or until the deadline. */
  ghost predicate Awaits(c: Config, t: TaskId, deadline: nat) {
    && t in c.k.tcbs && t != c.k.current && c.k.tcbs[t].notify == Waiting && c.k.tcbs[t].event == Nowhere
    && (c.k.tcbs[t].list == Suspended
        || (OnDelayedList(c.k, t) && t in c.due && c.due[t] == deadline && c.now < deadline))
  }

  /** A task that was not notified before it resumes the scheduler sleeps and waits
      once the switch that its blocking asked for is made. */
  lemma WaiterSleeps(c: Config, t: TaskId, deadline: nat)
    requires Good(c) && Poised(c.k, t, false)
    requires c.k.tcbs[t].list == Suspended
             || (OnDelayedList(c.k, t) && t in c.due && c.due[t] == deadline && c.now + c.k.pendedTicks < deadline)
    ensures Steppable(c.k) && Enabled(c.k, ResumeScheduler)
    ensures var r := Step(c, ResumeScheduler);
            Good(r) && Steppable(r.k) && Enabled(r.k, Switch) && Awaits(Step(r, Switch), t, deadline)
  {
    hide Sound, Placed, FineTcbs, SomeReady, PendingKnown, ResumeAll, WakesIn, Members, SwitchContext, Frame;
    InvGives(c.k, c.now, c.due);
    StepKeeps(c, ResumeScheduler);
    WaiterStays(c, t, deadline);
    var r := Step(c, ResumeScheduler);
    InvGives(r.k, r.now, r.due);
    Preemption.SwitchSettles(r);
    SwitchIs(r.k);
    SwitchTasks(r.k);
  }

  lemma SwitchTasks(k: State)
    requires Steppable(k)
    ensures SwitchContext(k).tcbs == k.tcbs
  {
    hide Placed, FineTcbs, PendingKnown, SomeReady;
  }

  lemma WaiterStays(c: Config, t: TaskId, deadline: nat)
    requires Good(c) && Poised(c.k, t, false)
    requires c.k.tcbs[t].list == Suspended
             || (OnDelayedList(c.k, t) && t in c.due && c.due[t] == deadline && c.now + c.k.pendedTicks < deadline)
    ensures Steppable(c.k) && Enabled(c.k, ResumeScheduler)
    ensures var r := Step(c, ResumeScheduler);
            && t in r.k.tcbs && r.k.tcbs[t] == c.k.tcbs[t] && r.now == c.now + c.k.pendedTicks && r.due == c.due
            && r.k.suspendCount == 0 && c.k.tcbs[t].event == Nowhere
  {
    hide Sound, Placed, FineTcbs, SomeReady, PendingKnown, ResumeAll, NoDuplicates;
    InvGives(c.k, c.now, c.due);
    WaiterOffLists(c, t);
    NoneHeld(c, t);
    OutermostResume(c.k, c.now, c.due);
    assert t in NewState(c.k, ResumeScheduler).tcbs.Keys;
  }

  lemma WaiterOffLists(c: Config, t: TaskId)
    requires Good(c) && t in c.k.tcbs && c.k.tcbs[t].notify == Waiting
    ensures c.k.tcbs[t].event == Nowhere
  {
    hide Clocked, Counted, FineTcbs;
  }

  /** What ends a wait for a notification, but for the timeout. */
  predicate EndsWait(op: Op, t: TaskId) {
    IsNotification(op, t) || op == Suspend(t) || op == DeleteTask(t)
  }

  lemma NoneHeld(c: Config, t: TaskId)
    requires Good(c) && t in c.k.tcbs && c.k.tcbs[t].event == Nowhere
    ensures t !in c.k.pending
  {
    hide Clocked, Counted, FineTcbs;
  }

  lemma AwaitsInTime(c: Config, op: Op, t: TaskId, deadline: nat)
    requires Good(c) && Steppable(c.k) && Enabled(c.k, op) && Awaits(c, t, deadline) && TakesTime(op)
    requires Step(c, op).now < deadline
    ensures Awaits(Step(c, op), t, deadline)
  {
    hide Good, Steppable, NewState;
    Preemption.ControlStays(c, op);
    NoneHeld(c, t);
    TimeStepKeeps(c, op);
    var c' := Step(c, op);
    var extra: iset<TaskId> :| extra <= Freed(c.k, op) &&
                               WokeExactly(c.k, c'.k, extra + WakesIn(c.k, c.now, c'.now, c.due));
    assert t in c'.k.tcbs.Keys;
  }

  lemma AwaitsStep(c: Config, op: Op, t: TaskId, deadline: nat)
    requires Good(c) && Steppable(c.k) && Enabled(c.k, op) && Awaits(c, t, deadline) && !EndsWait(op, t)
    requires Step(c, op).now < deadline
    ensures Awaits(Step(c, op), t, deadline)
  {
    hide Good, Steppable, NewState;
    if TakesTime(op) {
      AwaitsInTime(c, op, t, deadline);
    } else {
      Preemption.ControlStays(c, op);
      StepEvolves(c, op);
      assert TaskEvolves(c.k, NewState(c.k, op), op, t);
    }
  }

  lemma {:induction false} TimeGrows(c: Config, ops: seq<Op>)
    requires IsRun(c, ops)
    ensures Final(c, ops).now >= c.now
    decreases |ops|
  {
    hide NewState, Steppable, Enabled;
    if ops != [] {
      TimeGrows(Step(c, ops[0]), ops[1..]);
    }
  }

  lemma {:induction false} StillAwaits(c: Config, ops: seq<Op>, t: TaskId, deadline: nat)
    requires Good(c) && IsRun(c, ops) && Awaits(c, t, deadline) && Final(c, ops).now < deadline
    requires forall i :: 0 <= i < |ops| ==> !EndsWait(ops[i], t)
    ensures Good(Final(c, ops)) && Awaits(Final(c, ops), t, deadline)
    decreases |ops|
  {
    hide Good, Step, Steppable, Enabled, Awaits, EndsWait;
    if ops != [] {
      StepKeeps(c, ops[0]);
      TimeGrows(Step(c, ops[0]), ops[1..]);
      AwaitsStep(c, ops[0], t, deadline);
      StillAwaits(Step(c, ops[0]), ops[1..], t, deadline);
    }
  }

  /** t is ready, or held until the scheduler is resumed. */
  ghost predicate Roused(k: State, t: TaskId, held: bool) {
    && t in k.tcbs && k.tcbs[t].notify == Received
    && if held then k.tcbs[t].event == OnPendingReady && t in k.pending
       else k.tcbs[t].event == Nowhere && k.tcbs[t].list == Ready(k.tcbs[t].priority)
            && k.tcbs[t].list in k.lists && t in k.lists[k.tcbs[t].list].items
  }

  /** A task that sleeps and waits for a notification, with the scheduler running
      or not, sleeps on through any run of other steps; the first notification
      before its timeout readies it at once, or, from an interrupt while the
      scheduler is suspended, puts it on the pending-ready list. */
  lemma LateNotification(c: Config, ops: seq<Op>, t: TaskId, deadline: nat, op: Op)
    requires Good(c) && IsRun(c, ops) && Awaits(c, t, deadline) && Final(c, ops).now < deadline
    requires forall i :: 0 <= i < |ops| ==> !EndsWait(ops[i], t)
    requires IsNotification(op, t)
    ensures var f := Final(c, ops);
            && Awaits(f, t, deadline) && Steppable(f.k) && Enabled(f.k, op)
            && Roused(Step(f, op).k, t, op.NotifyInterrupt? && f.k.suspendCount > 0)
  {
    hide Sound, Placed, FineTcbs, SomeReady, PendingKnown, NewState, IsRun, Final, EndsWait;
    StillAwaits(c, ops, t, deadline);
    var f := Final(c, ops);
    InvGives(f.k, f.now, f.due);
    if op.NotifyTask? {
      Effects.NotifyEffect(f, t, op.action);
    } else {
      Effects.NotifyInterruptEffect(f, t, op.action);
    }
  }

  ghost predicate Held(k: State, t: TaskId) {
    t in k.tcbs && k.tcbs[t].event == OnPendingReady && k.suspendCount > 0
  }

  /** The scheduler stays suspended, and t is neither suspended nor deleted. */
  ghost predicate KeepsHolding(c: Config, ops: seq<Op>, t: TaskId)
    requires IsRun(c, ops)
    decreases |ops|
  {
    ops != [] ==>
      && !(ops[0].ResumeScheduler? && c.k.suspendCount == 1) && ops[0] != Suspend(t) && ops[0] != DeleteTask(t)
      && KeepsHolding(Step(c, ops[0]), ops[1..], t)
  }

  lemma HeldInTime(c: Config, op: Op, t: TaskId)
    requires Good(c) && Steppable(c.k) && Enabled(c.k, op) && Held(c.k, t) && TakesTime(op)
    requires !(op.ResumeScheduler? && c.k.suspendCount == 1)
    ensures Held(Step(c, op).k, t)
  {
    hide Sound, Placed, FineTcbs, SomeReady, PendingKnown, Released, Replay;
    Effects.ControlEffect(c);
  }

  lemma HeldStep(c: Config, op: Op, t: TaskId)
    requires Good(c) && Steppable(c.k) && Enabled(c.k, op) && Held(c.k, t)
    requires !(op.ResumeScheduler? && c.k.suspendCount == 1) && op != Suspend(t) && op != DeleteTask(t)
    ensures Held(Step(c, op).k, t)
  {
    hide Good, Steppable, NewState;
    if TakesTime(op) {
      HeldInTime(c, op, t);
    } else {
      CallFrame(c.k, op);
      StepEvolves(c, op);
      HeldGives(c, t);
      assert TaskEvolves(c.k, NewState(c.k, op), op, t);
      if op.Delay? && t == c.k.current {
        HeldBlocks(c, op.ticks, op.forever);
      }
    }
  }

  lemma HeldGives(c: Config, t: TaskId)
    requires Good(c) && Held(c.k, t)
    ensures c.k.tcbs[t].notify != Waiting && c.k.tcbs[t].list != Termination
  {
    hide Clocked, Counted, FineTcbs;
  }

  lemma HeldBlocks(c: Config, ticks: nat, forever: bool)
    requires Good(c) && Steppable(c.k) && Enabled(c.k, Delay(ticks, forever)) && Held(c.k, c.k.current)
    ensures Held(Step(c, Delay(ticks, forever)).k, c.k.current)
  {
    hide Sound, Placed, FineTcbs, SomeReady, PendingKnown, Block;
    BlockedTask(c.k, ticks, forever);
  }

  /** A task on the pending-ready list stays there through any run of steps while
      the scheduler is suspended, and the resumption that ends the suspension
      readies it. */
  lemma {:induction false} HeldUntilResumed(c: Config, ops: seq<Op>, t: TaskId)
    requires Good(c) && IsRun(c, ops) && Held(c.k, t) && KeepsHolding(c, ops, t)
    ensures var f := Final(c, ops);
            && Held(f.k, t) && Steppable(f.k) && Enabled(f.k, ResumeScheduler)
            && (f.k.suspendCount == 1 ==>
                  var r := Step(f, ResumeScheduler).k;
                  && t in r.tcbs && r.tcbs[t].event == Nowhere && r.tcbs[t].list == Ready(r.tcbs[t].priority)
                  && r.pending == [])
    decreases |ops|
  {
    hide Good, Step, Held;
    if ops == [] {
      HeldIsFreed(c, t);
    } else {
      StepKeeps(c, ops[0]);
      HeldStep(c, ops[0], t);
      HeldUntilResumed(Step(c, ops[0]), ops[1..], t);
    }
  }

  lemma HeldIsFreed(f: Config, t: TaskId)
    requires Good(f) && Held(f.k, t)
    ensures Steppable(f.k) && Enabled(f.k, ResumeScheduler)
    ensures f.k.suspendCount == 1 ==>
              var r := Step(f, ResumeScheduler).k;
              && t in r.tcbs && r.tcbs[t].event == Nowhere && r.tcbs[t].list == Ready(r.tcbs[t].priority)
              && r.pending == []
  {
    hide Sound, Placed, FineTcbs, SomeReady, WakesIn, Members, ResumeAll, NoDuplicates;
    InvGives(f.k, f.now, f.due);
    PendingMember(f.k, t, f.now, f.due);
    if f.k.suspendCount == 1 {
      OutermostResume(f.k, f.now, f.due);
      assert t in NewState(f.k, ResumeScheduler).tcbs.Keys;
    }
  }
}
