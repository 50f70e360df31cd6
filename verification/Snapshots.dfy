/** The value that a released task finds in its event item, over whole runs. */
module Snapshots {
  import opened Lists
  import opened Kernel
  import opened Suspension
  import opened Tasks
  import opened Lifecycle
  import opened Runs
  import opened Evolution
  import opened Mutexes

  /** The steps of t itself that set its event item's value. */
  ghost predicate Acts(s: System, op: MutexOp, t: TaskId) {
    && t == s.c.k.current
    && (op.GiveMutex? || (op.KernelStep? && (op.op.ReadEventValue? || op.op.WaitForEvent?)))
  }

  ghost predicate Releases(op: MutexOp, t: TaskId) {
    op.KernelStep? && op.op.UnorderedEvent? && op.op.task == t
  }

  ghost predicate Stores(k: State, t: TaskId, value: nat) {
    t in k.tcbs && k.tcbs[t].eventValue == value
  }

  /** t lives throughout the run, and takes none of the steps that set its value. */
  ghost predicate LeavesValue(s: System, ops: seq<MutexOp>, t: TaskId)
    requires IsMutexRun(s, ops)
    decreases |ops|
  {
    && t in s.c.k.tcbs
    && (ops != [] ==> !Acts(s, ops[0], t) && LeavesValue(After(s, ops[0]), ops[1..], t))
  }

  ghost predicate NotReleased(ops: seq<MutexOp>, t: TaskId) {
    forall i :: 0 <= i < |ops| ==> !Releases(ops[i], t)
  }

  ghost predicate OffEventLists(k: State, t: TaskId) {
    t in k.tcbs && k.tcbs[t].event != OnEventList
  }

  lemma KernelStepLeaves(s: System, op: Op, t: TaskId, value: nat)
    requires GoodSystem(s) && Possible(s, KernelStep(op)) && value >= IN_USE && Stores(s.c.k, t, value)
    requires !Acts(s, KernelStep(op), t) && !Releases(KernelStep(op), t) && t in After(s, KernelStep(op)).c.k.tcbs
    ensures Stores(After(s, KernelStep(op)).c.k, t, value)
    ensures OffEventLists(s.c.k, t) ==> OffEventLists(After(s, KernelStep(op)).c.k, t)
  {
    hide Good, Owned, Steppable, NewState;
    StepEvolves(s.c, op);
    assert TaskEvolves(s.c.k, NewState(s.c.k, op), op, t);
  }

  /** An event value in use is not one that waits for a mutex. */
  lemma WaitsForNoMutex(s: System, t: TaskId)
    requires GoodSystem(s) && t in s.c.k.tcbs && s.c.k.tcbs[t].eventValue >= IN_USE
    ensures forall m :: m in s.mutexes ==> t !in s.mutexes[m].waiters
  {
    hide Good, AllExclusive, HeldCounts;
    forall m | m in s.mutexes ensures t !in s.mutexes[m].waiters {
      assert Queued(s.c.k, s.mutexes[m]);
    }
  }

  lemma OperationLeaves(s: System, op: MutexOp, t: TaskId, value: nat)
    requires GoodSystem(s) && Possible(s, op) && !op.KernelStep? && value >= IN_USE && Stores(s.c.k, t, value)
    requires !Acts(s, op, t)
    ensures Stores(After(s, op).c.k, t, value)
    ensures OffEventLists(s.c.k, t) ==> OffEventLists(After(s, op).c.k, t)
  {
    hide Good, AllExclusive, HeldCounts, Steppable, After;
    OperationsLeave(s, op, t);
    WaitsForNoMutex(s, t);
  }

  lemma ValueStep(s: System, op: MutexOp, t: TaskId, value: nat)
    requires GoodSystem(s) && Possible(s, op) && value >= IN_USE && Stores(s.c.k, t, value)
    requires !Acts(s, op, t) && !Releases(op, t) && t in After(s, op).c.k.tcbs
    ensures Stores(After(s, op).c.k, t, value)
    ensures OffEventLists(s.c.k, t) ==> OffEventLists(After(s, op).c.k, t)
  {
    hide GoodSystem, Possible, After, OffEventLists, Stores, Releases, Acts;
    match op {
      case KernelStep(o) => KernelStepLeaves(s, o, t, value);
      case _ => OperationLeaves(s, op, t, value);
    }
  }

  /** While a task waits, its mask and control bits stay in its event item,
      whatever priorities it inherits and loses meanwhile. */
  lemma {:induction false} MaskSurvives(s: System, ops: seq<MutexOp>, t: TaskId, value: nat)
    requires GoodSystem(s) && IsMutexRun(s, ops) && NoHolderDeleted(s, ops)
    requires value >= IN_USE && Stores(s.c.k, t, value) && LeavesValue(s, ops, t) && NotReleased(ops, t)
    ensures Stores(Outcome(s, ops).c.k, t, value)
    decreases |ops|
  {
    hide GoodSystem, Possible, After, Stores, Releases, Acts, DeletesHolder;
    if ops != [] {
      MutexStepKeeps(s, ops[0]);
      assert !Releases(ops[0], t);
      ValueStep(s, ops[0], t, value);
      MaskSurvives(After(s, ops[0]), ops[1..], t, value);
    }
  }

  lemma CannotRelease(s: System, op: MutexOp, t: TaskId)
    requires Possible(s, op) && OffEventLists(s.c.k, t)
    ensures !Releases(op, t)
  {
    hide Steppable;
  }

  /** Once released, a task has the snapshot until it reads it itself: nothing
      can release it again, and no step of others sets its value. */
  lemma {:induction false} SnapshotSurvives(s: System, ops: seq<MutexOp>, t: TaskId, value: nat)
    requires GoodSystem(s) && IsMutexRun(s, ops) && NoHolderDeleted(s, ops)
    requires value >= IN_USE && Stores(s.c.k, t, value) && LeavesValue(s, ops, t) && OffEventLists(s.c.k, t)
    ensures Stores(Outcome(s, ops).c.k, t, value) && OffEventLists(Outcome(s, ops).c.k, t)
    decreases |ops|
  {
    hide GoodSystem, Possible, After, Stores, Releases, Acts, DeletesHolder, OffEventLists;
    if ops != [] {
      MutexStepKeeps(s, ops[0]);
      CannotRelease(s, ops[0], t);
      ValueStep(s, ops[0], t, value);
      SnapshotSurvives(After(s, ops[0]), ops[1..], t, value);
    }
  }

  lemma ReleaseStores(s: System, t: TaskId, value: nat)
    requires GoodSystem(s) && Possible(s, KernelStep(UnorderedEvent(t, value)))
    ensures var r := After(s, KernelStep(UnorderedEvent(t, value)));
            GoodSystem(r) && Stores(r.c.k, t, value) && OffEventLists(r.c.k, t)
  {
    hide Sound, Owned, Placed, FineTcbs, SomeReady, PendingKnown, Remove, InsertAt, NoDuplicates, Refresh;
    KernelStepOwned(s, UnorderedEvent(t, value));
  }

  /** A task released with a snapshot reads exactly that snapshot when it runs
      next, however many steps later. */
  lemma SnapshotIsRead(s: System, ops: seq<MutexOp>, t: TaskId, value: nat)
    requires GoodSystem(s) && Possible(s, KernelStep(UnorderedEvent(t, value)))
    requires var r := After(s, KernelStep(UnorderedEvent(t, value)));
             IsMutexRun(r, ops) && NoHolderDeleted(r, ops) && LeavesValue(r, ops, t)
             && Outcome(r, ops).c.k.current == t
    ensures var k := Outcome(After(s, KernelStep(UnorderedEvent(t, value))), ops).c.k;
            t in k.tcbs && k.tcbs[t].priority < MAX_PRIORITIES && ResetEventValue(k).1 == value
  {
    hide GoodSystem, Step, OffEventLists, Refresh, LeavesValue, NoHolderDeleted, Steppable, Independent;
    var r := After(s, KernelStep(UnorderedEvent(t, value)));
    ReleaseStores(s, t, value);
    SnapshotSurvives(r, ops, t, value);
    AlwaysGoodSystem(r, ops);
    GoodGivesFine(Outcome(r, ops), t);
  }

  lemma GoodGivesFine(s: System, t: TaskId)
    requires GoodSystem(s) && t in s.c.k.tcbs
    ensures FineTcb(s.c.k.tcbs[t])
  {
    hide Good, Owned;
    FineGiven(s.c, t);
  }
}
