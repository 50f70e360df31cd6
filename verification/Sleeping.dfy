/** A blocked task sleeps exactly until its deadline, over whole runs of the
    scheduler and of the mutexes beside it. */
module Sleeping {
  import opened Lists
  import opened Kernel
  import opened Ticks
  import opened Suspension
  import opened Tasks
  import opened Lifecycle
  import opened Priorities
  import opened Runs
  import opened Evolution
  import opened Mutexes
  import Preemption

  /** Before the deadline t is on a delayed list, from then on it is ready. */
  ghost predicate AsleepUntil(c: Config, t: TaskId, deadline: nat) {
    && t in c.k.tcbs
    && if c.now < deadline then OnDelayedList(c.k, t) && t in c.due && c.due[t] == deadline
       else c.k.tcbs[t].list.Ready?
  }

  /** No step of the run wakes, blocks, suspends or deletes t. */
  ghost predicate Undisturbed(c: Config, ops: seq<Op>, t: TaskId)
    requires IsRun(c, ops)
    decreases |ops|
  {
    ops != [] ==>
      && t in c.k.tcbs && !Disturbs(c.k, ops[0], t)
      && Undisturbed(Step(c, ops[0]), ops[1..], t)
  }

  /** Ticks wake t when they reach its deadline, and only then. */
  lemma TimePasses(c: Config, op: Op, t: TaskId, deadline: nat)
    requires Good(c) && Steppable(c.k) && Enabled(c.k, op) && TakesTime(op) && AsleepUntil(c, t, deadline)
    requires !Disturbs(c.k, op, t)
    ensures AsleepUntil(Step(c, op), t, deadline)
  {
    hide Sound, Steppable, NewState, Good;
    var c' := Step(c, op);
    TimeStepKeeps(c, op);
    var extra: iset<TaskId> :| extra <= Runs.Freed(c.k, op) &&
                               WokeExactly(c.k, c'.k, extra + WakesIn(c.k, c.now, c'.now, c.due));
  }

  lemma SleepStep(c: Config, op: Op, t: TaskId, deadline: nat)
    requires Good(c) && Steppable(c.k) && Enabled(c.k, op) && AsleepUntil(c, t, deadline)
    requires !Disturbs(c.k, op, t)
    ensures AsleepUntil(Step(c, op), t, deadline)
  {
    hide Sound, Steppable, NewState, Good;
    if TakesTime(op) {
      TimePasses(c, op, t, deadline);
    } else {
      StepEvolves(c, op);
      assert TaskEvolves(c.k, NewState(c.k, op), op, t);
    }
  }

  /** A task that blocks at time T for w ticks and is not woken otherwise is on
      a delayed list at every moment before T + w and ready from T + w on:
      through wraps of the tick count, list switches, skipped scans, ticks
      that were pended while the scheduler was suspended, changes of its
      priority, and notifications that it does not wait for. */
  lemma {:induction false} SleepsExactly(c: Config, ops: seq<Op>, t: TaskId, deadline: nat)
    requires Good(c) && IsRun(c, ops) && AsleepUntil(c, t, deadline) && Undisturbed(c, ops, t)
    ensures AsleepUntil(Final(c, ops), t, deadline)
    decreases |ops|
  {
    hide Good, Step, AsleepUntil, Disturbs;
    if ops != [] {
      StepKeeps(c, ops[0]);
      SleepStep(c, ops[0], t, deadline);
      SleepsExactly(Step(c, ops[0]), ops[1..], t, deadline);
    }
  }

  /** A delay, or a wait for an event, of a finite number of ticks. */
  lemma BlockingSleeps(c: Config, op: Op)
    requires Good(c) && Enabled(c.k, op) && (op.Delay? || op.WaitForEvent?)
    requires op.ticks < MAX_DELAY || (op.Delay? && !op.forever)
    ensures Steppable(c.k)
    ensures AsleepUntil(Step(c, op), c.k.current, c.now + op.ticks)
  {
    hide Sound, Placed, FineTcbs, SomeReady, PendingKnown, Block;
    InvGives(c.k, c.now, c.due);
    var forever := if op.Delay? then op.forever else true;
    BlockedTask(c.k, op.ticks, forever);
  }

  // ----- suspended tasks ---------------------------------------------------------------

  ghost predicate OutOfPlay(k: State, t: TaskId) {
    t in k.tcbs && IsSuspended(k, t) && t != k.current
  }

  predicate Recalls(op: Op, t: TaskId) {
    op == Resume(t) || op == ResumeInterrupt(t) || op == DeleteTask(t)
  }

  lemma NotPending(c: Config, t: TaskId)
    requires Good(c) && t in c.k.tcbs && c.k.tcbs[t].event == Nowhere
    ensures t !in c.k.pending
  {
    hide Clocked, Counted, FineTcbs;
  }

  lemma SuspendedByTime(c: Config, op: Op, t: TaskId)
    requires Good(c) && Steppable(c.k) && Enabled(c.k, op) && TakesTime(op) && t in c.k.tcbs && IsSuspended(c.k, t)
    ensures t in NewState(c.k, op).tcbs && IsSuspended(NewState(c.k, op), t)
  {
    hide Good, Steppable, NewState;
    TimeStepKeeps(c, op);
    NotPending(c, t);
    var c' := Step(c, op);
    var extra: iset<TaskId> :| extra <= Runs.Freed(c.k, op) &&
                               WokeExactly(c.k, c'.k, extra + WakesIn(c.k, c.now, c'.now, c.due));
    assert t in c'.k.tcbs.Keys;
  }

  lemma OutStep(c: Config, op: Op, t: TaskId)
    requires Good(c) && Steppable(c.k) && Enabled(c.k, op) && OutOfPlay(c.k, t) && !Recalls(op, t)
    ensures OutOfPlay(Step(c, op).k, t)
  {
    hide Good, Steppable, NewState;
    Preemption.ControlStays(c, op);
    if TakesTime(op) {
      SuspendedByTime(c, op, t);
    } else if op == Suspend(t) {
      Preemption.SuspendIs(c.k, t);
      StateGives(c.k);
      SuspendedTask(c.k, t);
    } else {
      StepEvolves(c, op);
      assert TaskEvolves(c.k, NewState(c.k, op), op, t);
    }
  }

  /** A suspended task stays out until it is resumed or deleted: no tick, event,
      notification or priority change readies it, and no switch picks it. */
  lemma {:induction false} SuspendedStaysOut(c: Config, ops: seq<Op>, t: TaskId)
    requires Good(c) && IsRun(c, ops) && OutOfPlay(c.k, t) && forall i :: 0 <= i < |ops| ==> !Recalls(ops[i], t)
    ensures OutOfPlay(Final(c, ops).k, t)
    decreases |ops|
  {
    hide Good, Step, OutOfPlay, Recalls;
    if ops != [] {
      StepKeeps(c, ops[0]);
      OutStep(c, ops[0], t);
      SuspendedStaysOut(Step(c, ops[0]), ops[1..], t);
    }
  }

  // ----- beside mutexes ------------------------------------------------------------------

  ghost predicate Disturbing(s: System, op: MutexOp, t: TaskId)
    requires Possible(s, op) && t in s.c.k.tcbs
  {
    if op.KernelStep? then Disturbs(s.c.k, op.op, t) else Moves(s, op, t)
  }

  /** No step wakes, blocks, suspends or deletes t; its priority may change, and
      so may the mutexes that it holds. */
  ghost predicate LeftAsleep(s: System, ops: seq<MutexOp>, t: TaskId)
    requires IsMutexRun(s, ops)
    decreases |ops|
  {
    ops != [] ==>
      && t in s.c.k.tcbs && !Disturbing(s, ops[0], t)
      && LeftAsleep(After(s, ops[0]), ops[1..], t)
  }

  lemma MutexSleepStep(s: System, op: MutexOp, t: TaskId, deadline: nat)
    requires GoodSystem(s) && Possible(s, op) && AsleepUntil(s.c, t, deadline)
    requires !Disturbing(s, op, t)
    ensures AsleepUntil(After(s, op).c, t, deadline)
  {
    hide Good, Owned, Steppable, Step, Disturbs, Take, Give, Expire, Placed, FineTcbs, Inherit, PlaceOnEventList;
    match op {
      case KernelStep(o) => SleepStep(s.c, o, t, deadline);
      case _ =>
        OperationsLeave(s, op, t);
        TimeUnmoved(s, op, t);
    }
  }

  /** No operation on a mutex takes time, and only a waiter gets a deadline. */
  lemma TimeUnmoved(s: System, op: MutexOp, t: TaskId)
    requires Possible(s, op) && !op.KernelStep? && !(op.WaitMutex? && t == s.c.k.current)
    ensures var c := After(s, op).c; c.now == s.c.now && (t in s.c.due ==> t in c.due && c.due[t] == s.c.due[t])
  {
    hide Steppable, Placed, FineTcbs, Inherit, PlaceOnEventList, Disinherit, EventWake, DisinheritAfterTimeout;
  }

  /** A sleeping task that holds mutexes inherits and loses priorities as tasks
      block on them and time out, and wakes at exactly its deadline. */
  lemma {:induction false} HolderSleepsExactly(s: System, ops: seq<MutexOp>, t: TaskId, deadline: nat)
    requires GoodSystem(s) && IsMutexRun(s, ops) && NoHolderDeleted(s, ops)
    requires AsleepUntil(s.c, t, deadline) && LeftAsleep(s, ops, t)
    ensures AsleepUntil(Outcome(s, ops).c, t, deadline)
    decreases |ops|
  {
    hide GoodSystem, After, AsleepUntil, Disturbs, Moves, DeletesHolder;
    if ops != [] {
      MutexStepKeeps(s, ops[0]);
      MutexSleepStep(s, ops[0], t, deadline);
      HolderSleepsExactly(After(s, ops[0]), ops[1..], t, deadline);
    }
  }

  /** A task that blocks on a held mutex times out at exactly its deadline. */
  lemma MutexWaitSleeps(s: System, m: MutexId, ticks: nat)
    requires GoodSystem(s) && Possible(s, WaitMutex(m, ticks)) && ticks < MAX_DELAY
    ensures AsleepUntil(Wait(s, m, ticks).c, s.c.k.current, s.c.now + ticks)
  {
    hide Good, Steppable, Placed, FineTcbs, Owned, Inherit, Block, PendingKnown;
    var k, holder := s.c.k, s.mutexes[m].holder.task;
    StateGives(k);
    InheritOwned(s, holder, m);
    InheritLeavesCurrent(k, holder);
    var i := Inherit(k, holder).0;
    BlockedTask(i, ticks, true);
  }
}
