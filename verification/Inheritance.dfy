/** What priority inheritance achieves over whole runs: while tasks wait for a
    mutex its holder runs at or above each of them, and exactly which calls
    end this. */
module Inheritance {
  import opened Lists
  import opened Kernel
  import opened Suspension
  import opened Tasks
  import opened Lifecycle
  import opened Priorities
  import opened Runs
  import opened Evolution
  import opened Mutexes

  // ----- what a step does to priorities --------------------------------------------------

  /** The task whose priority, or event item value, the step sets. */
  datatype Change = NoChange | Change(task: TaskId, priority: nat, value: nat)

  ghost function RankChange(s: System, op: MutexOp): Change
    requires Possible(s, op)
  {
    hide Placed, FineTcbs, SomeReady, PendingKnown;
    var k := s.c.k;
    match op
    case KernelStep(Prioritise(t, p)) =>
      var c := NewPriorities(k.tcbs[t], p);
      Change(t, c.priority, c.eventValue)
    case KernelStep(ReadEventValue) =>
      FineOne(k.tcbs, k.current);
      Change(k.current, k.tcbs[k.current].priority, MAX_PRIORITIES - k.tcbs[k.current].priority)
    case WaitMutex(m, _) =>
      FineOne(k.tcbs, k.current);
      Inherited(k, s.mutexes[m].holder.task)
    case ExpireMutex(m, inherited) =>
      if inherited && s.mutexes[m].holder.HeldBy? then
        FineOne(k.tcbs, s.mutexes[m].holder.task);
        Fallen(k, s.mutexes[m].holder.task, HighestWaiting(k, s.mutexes[m]))
      else NoChange
    case _ => NoChange
  }

  /** xTaskPriorityInherit */
  ghost function Inherited(k: State, holder: TaskId): Change
    requires holder in k.tcbs && k.current in k.tcbs && k.tcbs[k.current].priority < MAX_PRIORITIES
  {
    var c, p := k.tcbs[holder], k.tcbs[k.current].priority;
    if c.priority < p then Change(holder, p, EventValue(c, p)) else NoChange
  }

  /** vTaskPriorityDisinheritAfterTimeout */
  ghost function Fallen(k: State, holder: TaskId, waiting: nat): Change
    requires holder in k.tcbs && waiting < MAX_PRIORITIES && k.tcbs[holder].basePriority < MAX_PRIORITIES
  {
    var c := k.tcbs[holder];
    var p := HighestOf(c.basePriority, waiting);
    if Falls(c, waiting) then Change(holder, p, EventValue(c, p)) else NoChange
  }

  ghost predicate SameRank(c: Tcb, c': Tcb) {
    c'.priority == c.priority && c'.eventValue == c.eventValue
  }

  /** t's priority, and its event item's value, are what the change says. */
  ghost predicate Follows(ch: Change, t: TaskId, c: Tcb, c': Tcb) {
    if ch.Change? && ch.task == t then c'.priority == ch.priority && c'.eventValue == ch.value else SameRank(c, c')
  }

  /** The steps that store a new item value, but for the reset to the priority. */
  ghost predicate Stores(s: System, op: MutexOp, t: TaskId) {
    op.KernelStep? && !op.op.ReadEventValue? && Rewrites(s.c.k, op.op, t)
  }

  ghost predicate Ranked(s: System, op: MutexOp, r: State, t: TaskId)
    requires Possible(s, op) && t in s.c.k.tcbs && t in r.tcbs
  {
    hide Placed, FineTcbs, SomeReady, PendingKnown;
    var ch, c, c' := RankChange(s, op), s.c.k.tcbs[t], r.tcbs[t];
    if Stores(s, op, t) then c'.priority == c.priority else Follows(ch, t, c, c')
  }

  lemma KernelRanks(s: System, op: Op, t: TaskId)
    requires GoodSystem(s) && Possible(s, KernelStep(op))
    requires t in s.c.k.tcbs && t in After(s, KernelStep(op)).c.k.tcbs
    ensures Ranked(s, KernelStep(op), After(s, KernelStep(op)).c.k, t)
  {
    hide Good, Owned, Steppable, NewState, Refresh, Independent;
    StepEvolves(s.c, op);
    assert TaskEvolves(s.c.k, NewState(s.c.k, op), op, t);
  }

  lemma TakeRanks(s: System, m: MutexId, t: TaskId)
    requires GoodSystem(s) && Possible(s, TakeMutex(m)) && t in s.c.k.tcbs
    ensures t in Take(s, m).0.c.k.tcbs && SameRank(s.c.k.tcbs[t], Take(s, m).0.c.k.tcbs[t])
  {
    hide Good, Steppable, Placed, Owned;
    StateGives(s.c.k);
  }

  lemma ReleaseRanks(s: System, m: MutexId, t: TaskId)
    requires GoodSystem(s) && Gives(s, m) && t in s.c.k.tcbs && t != s.c.k.current
    ensures t in Release(s, m).c.k.tcbs && SameRank(s.c.k.tcbs[t], Release(s, m).c.k.tcbs[t])
  {
    hide Sound, Steppable, Placed, FineTcbs, Disinherit, AllExclusive, HeldCounts, Release, Step, NewState, EventWake;
    SystemGives(s);
    StateGives(s.c.k);
    ReleaseSplits(s, m);
    var k, f := s.c.k, Vacated(s, m);
    HolderHolds(s, m, k.current);
    DisinheritKeeps(k, s.c.now, s.c.due, s.c.now + 1);
    assert t in f.c.k.tcbs.Keys;
    if s.mutexes[m].waiters != [] {
      EventRanks(f, s.mutexes[m].waiters[0], t);
    }
  }

  lemma EventRanks(s: System, w: TaskId, t: TaskId)
    requires GoodSystem(s) && Possible(s, KernelStep(Event(w))) && t in s.c.k.tcbs
    ensures var r := After(s, KernelStep(Event(w))).c.k;
            t in r.tcbs && SameRank(s.c.k.tcbs[t], r.tcbs[t])
  {
    hide Good, Owned, Steppable, NewState;
    StepEvolves(s.c, Event(w));
    assert TaskEvolves(s.c.k, NewState(s.c.k, Event(w)), Event(w), t);
  }

  lemma WaitRanks(s: System, m: MutexId, ticks: nat, t: TaskId)
    requires GoodSystem(s) && Possible(s, WaitMutex(m, ticks)) && t in s.c.k.tcbs
    ensures t in Wait(s, m, ticks).c.k.tcbs && Ranked(s, WaitMutex(m, ticks), Wait(s, m, ticks).c.k, t)
  {
    hide Sound, Steppable, Placed, FineTcbs, Owned, Inherit, Block, Deadline, PendingKnown;
    var k, holder := s.c.k, s.mutexes[m].holder.task;
    SystemGives(s);
    StateGives(k);
    HolderHolds(s, m, holder);
    InheritKeeps(k, holder, s.c.now, s.c.due, s.c.now + 1);
    InheritLeavesCurrent(k, holder);
    BlockedTask(Inherit(k, holder).0, ticks, true);
    assert t in Inherit(k, holder).0.tcbs.Keys;
  }

  lemma ExpireRanks(s: System, m: MutexId, inherited: bool, t: TaskId)
    requires GoodSystem(s) && Possible(s, ExpireMutex(m, inherited)) && t in s.c.k.tcbs
    ensures t in Expire(s, m, inherited).c.k.tcbs
    ensures Ranked(s, ExpireMutex(m, inherited), Expire(s, m, inherited).c.k, t)
  {
    hide Sound, Steppable, Placed, FineTcbs, Owned, DisinheritAfterTimeout, HighestWaiting;
    if inherited && s.mutexes[m].holder != NoHolder {
      var k, holder, waiting := s.c.k, s.mutexes[m].holder.task, HighestWaiting(s.c.k, s.mutexes[m]);
      SystemGives(s);
      StateGives(k);
      HolderHolds(s, m, holder);
      DisinheritAfterTimeoutKeeps(k, holder, waiting, s.c.now, s.c.due, s.c.now + 1);
      assert t in DisinheritAfterTimeout(k, holder, waiting).tcbs.Keys;
    }
  }

  /** Each step ranks every task as RankChange says; a give ranks its own task anew. */
  lemma StepRanks(s: System, op: MutexOp, t: TaskId)
    requires GoodSystem(s) && Possible(s, op) && !(op.GiveMutex? && t == s.c.k.current)
    requires t in s.c.k.tcbs && t in After(s, op).c.k.tcbs
    ensures Ranked(s, op, After(s, op).c.k, t)
  {
    hide GoodSystem, Steppable, Release, Wait, Expire, Take, Step, NewState;
    match op {
      case KernelStep(o) => KernelRanks(s, o, t);
      case NewMutex(_, _) =>
      case TakeMutex(m) => TakeRanks(s, m, t);
      case GiveMutex(m) =>
        if s.mutexes[m].holder == HeldBy(s.c.k.current) && !(s.mutexes[m].recursive && s.mutexes[m].depth > 1) {
          ReleaseRanks(s, m, t);
        }
      case WaitMutex(m, ticks) => WaitRanks(s, m, ticks, t);
      case ExpireMutex(m, inherited) => ExpireRanks(s, m, inherited, t);
    }
  }

  // ----- holders above their waiters --------------------------------------------------------

  ghost predicate Above(k: State, h: TaskId, w: TaskId) {
    h in k.tcbs && w in k.tcbs && k.tcbs[w].priority <= k.tcbs[h].priority
  }

  /** Each holder runs at or above every task that waits for its mutex. */
  ghost predicate Covered(k: State, ms: map<MutexId, Mutex>) {
    forall m, w :: m in ms && ms[m].holder.HeldBy? && w in ms[m].waiters ==> Above(k, ms[m].holder.task, w)
  }

  /** Priority q is too low for t beside a task that waits for its mutex, or too
      high beside the holder of the mutex that t waits for. */
  ghost predicate Unbalances(k: State, ms: map<MutexId, Mutex>, t: TaskId, q: nat) {
    exists m, w :: m in ms && ms[m].holder.HeldBy? && w in ms[m].waiters && Between(k, ms[m].holder.task, w, t, q)
  }

  ghost predicate Between(k: State, h: TaskId, w: TaskId, t: TaskId, q: nat) {
    && h != w && h in k.tcbs && w in k.tcbs
    && ((h == t && k.tcbs[w].priority > q) || (w == t && k.tcbs[h].priority < q))
  }

  ghost predicate Acquires(s: System, m: MutexId)
    requires m in s.mutexes
  {
    var mx := s.mutexes[m];
    !(mx.recursive && mx.holder == HeldBy(s.c.k.current)) && mx.count > 0
  }

  /** The steps after which a waiter outranks a holder: a free mutex is taken past
      a higher waiter, or a task gets a priority that is too low for its own
      waiters or, as inheritance goes one mutex deep only, too high for the
      holder that it waits for. */
  ghost predicate Uncovers(s: System, op: MutexOp)
    requires Possible(s, op)
  {
    var k, ch := s.c.k, RankChange(s, op);
    || (op.TakeMutex? && Acquires(s, op.m) &&
        exists w :: w in s.mutexes[op.m].waiters && !Above(k, k.current, w))
    || (ch.Change? && Unbalances(k, s.mutexes, ch.task, ch.priority))
  }

  lemma Rebalance(k: State, r: State, ms: map<MutexId, Mutex>, t: TaskId, q: nat)
    requires Covered(k, ms)
    requires forall u :: u in k.tcbs ==> u in r.tcbs && r.tcbs[u].priority == if u == t then q else k.tcbs[u].priority
    ensures Covered(r, ms) <==> !Unbalances(k, ms, t, q)
  {
    if !Covered(r, ms) {
      var m, w :| m in ms && ms[m].holder.HeldBy? && w in ms[m].waiters && !Above(r, ms[m].holder.task, w);
      assert Above(k, ms[m].holder.task, w);
      assert Between(k, ms[m].holder.task, w, t, q);
    }
    if Unbalances(k, ms, t, q) {
      var m, w :| m in ms && ms[m].holder.HeldBy? && w in ms[m].waiters && Between(k, ms[m].holder.task, w, t, q);
      assert !Above(r, ms[m].holder.task, w);
    }
  }

  /** No more waiters, none of them higher, and no holder lower than before. */
  ghost predicate Relieved(k: State, r: State, ms: map<MutexId, Mutex>, ms': map<MutexId, Mutex>) {
    forall m, w :: m in ms' && ms'[m].holder.HeldBy? && w in ms'[m].waiters ==>
      && m in ms && ms[m].holder == ms'[m].holder && w in ms[m].waiters
      && (Above(k, ms[m].holder.task, w) ==> Above(r, ms[m].holder.task, w))
  }

  lemma RelievedCovered(k: State, r: State, ms: map<MutexId, Mutex>, ms': map<MutexId, Mutex>)
    requires Covered(k, ms) && Relieved(k, r, ms, ms')
    ensures Covered(r, ms')
  {
    forall m, w | m in ms' && ms'[m].holder.HeldBy? && w in ms'[m].waiters ensures Above(r, ms'[m].holder.task, w) {
      assert Above(k, ms[m].holder.task, w);
    }
  }

  lemma HolderThere(s: System, m: MutexId)
    requires GoodSystem(s) && m in s.mutexes && s.mutexes[m].holder.HeldBy?
    ensures s.mutexes[m].holder.task in s.c.k.tcbs
  {
    hide Good;
    HolderHolds(s, m, s.mutexes[m].holder.task);
  }

  lemma KernelRelieves(s: System, op: Op)
    requires GoodSystem(s) && Possible(s, KernelStep(op)) && !DeletesHolder(s.c.k, op) && !op.Prioritise?
    ensures var r := After(s, KernelStep(op)); Relieved(s.c.k, r.c.k, s.mutexes, r.mutexes)
  {
    hide GoodSystem, Steppable, Step, StillWaiting;
    KernelStepOwned(s, op);
    var r := After(s, KernelStep(op));
    forall m, w | m in r.mutexes && r.mutexes[m].holder.HeldBy? && w in r.mutexes[m].waiters
      ensures w in s.mutexes[m].waiters
      ensures Above(s.c.k, s.mutexes[m].holder.task, w) ==> Above(r.c.k, s.mutexes[m].holder.task, w)
    {
      StillThere(r.c.k, s.mutexes[m].waiters, w);
      HolderThere(r, m);
      if Above(s.c.k, s.mutexes[m].holder.task, w) {
        StepRanks(s, KernelStep(op), w);
        StepRanks(s, KernelStep(op), s.mutexes[m].holder.task);
      }
    }
  }

  lemma StillThere(k: State, waiters: seq<TaskId>, w: TaskId)
    requires w in StillWaiting(k, waiters)
    ensures w in waiters && w in k.tcbs
  {
  }

  lemma KernelCovered(s: System, op: Op)
    requires GoodSystem(s) && Possible(s, KernelStep(op)) && !DeletesHolder(s.c.k, op)
    requires Covered(s.c.k, s.mutexes)
    ensures var r := After(s, KernelStep(op)); Covered(r.c.k, r.mutexes) <==> !Uncovers(s, KernelStep(op))
  {
    hide GoodSystem, Steppable, Step, Unbalances, Covered;
    if op.Prioritise? {
      PrioritisedCovered(s, op);
    } else {
      var r := After(s, KernelStep(op));
      KernelRelieves(s, op);
      RelievedCovered(s.c.k, r.c.k, s.mutexes, r.mutexes);
      SameIsBalanced(s, op);
    }
  }

  lemma SameIsBalanced(s: System, op: Op)
    requires Possible(s, KernelStep(op)) && !op.Prioritise? && Covered(s.c.k, s.mutexes)
    ensures !Uncovers(s, KernelStep(op))
  {
    hide Steppable;
    var ch := RankChange(s, KernelStep(op));
    if ch.Change? {
      forall m, w | m in s.mutexes && s.mutexes[m].holder.HeldBy? && w in s.mutexes[m].waiters
        ensures !Between(s.c.k, s.mutexes[m].holder.task, w, ch.task, ch.priority)
      {
        assert Above(s.c.k, s.mutexes[m].holder.task, w);
      }
    }
  }

  lemma PrioritisedCovered(s: System, op: Op)
    requires GoodSystem(s) && Possible(s, KernelStep(op)) && op.Prioritise? && Covered(s.c.k, s.mutexes)
    ensures var r := After(s, KernelStep(op)); Covered(r.c.k, r.mutexes) <==> !Uncovers(s, KernelStep(op))
  {
    hide GoodSystem, Steppable, Step, Unbalances, Covered;
    var r, ch := After(s, KernelStep(op)), RankChange(s, KernelStep(op));
    RankedWaiters(s, op);
    forall u | u in s.c.k.tcbs
      ensures u in r.c.k.tcbs
      ensures r.c.k.tcbs[u].priority == if u == ch.task then ch.priority else s.c.k.tcbs[u].priority
    {
      StepRanks(s, KernelStep(op), u);
    }
    Rebalance(s.c.k, r.c.k, s.mutexes, ch.task, ch.priority);
  }

  /** A call that only ranks a task leaves all tasks, and all waiters, where they are. */
  lemma RankedWaiters(s: System, op: Op)
    requires GoodSystem(s) && Possible(s, KernelStep(op)) && (op.Prioritise? || op.ReadEventValue?)
    ensures var r := After(s, KernelStep(op));
            r.mutexes == s.mutexes && forall u :: u in s.c.k.tcbs ==> u in r.c.k.tcbs
  {
    hide Good, Steppable, NewState, AllExclusive, HeldCounts, StillWaiting, NoDuplicates;
    var k, r := s.c.k, NewState(s.c.k, op);
    StepEvolves(s.c, op);
    forall u | u in k.tcbs ensures u in r.tcbs && r.tcbs[u].event == k.tcbs[u].event {
      assert TaskEvolves(k, r, op, u);
    }
    forall m | m in s.mutexes ensures StillWaiting(r, s.mutexes[m].waiters) == s.mutexes[m].waiters {
      assert Queued(k, s.mutexes[m]);
      StillAll(r, s.mutexes[m].waiters);
    }
  }

  lemma TakeCovered(s: System, m: MutexId)
    requires GoodSystem(s) && Possible(s, TakeMutex(m)) && Covered(s.c.k, s.mutexes)
    ensures var r := Take(s, m).0; Covered(r.c.k, r.mutexes) <==> !Uncovers(s, TakeMutex(m))
  {
    hide Good, Owned, Steppable, Placed, FineTcbs;
    var k, r := s.c.k, Take(s, m).0;
    WaitersKnown(s);
    SameAbove(s, m);
    if Uncovers(s, TakeMutex(m)) {
      var w :| w in s.mutexes[m].waiters && !Above(k, k.current, w);
      assert r.mutexes[m].holder == HeldBy(k.current) && w in r.mutexes[m].waiters && !Above(r.c.k, k.current, w);
    } else {
      forall i, w | i in r.mutexes && r.mutexes[i].holder.HeldBy? && w in r.mutexes[i].waiters
        ensures Above(r.c.k, r.mutexes[i].holder.task, w)
      {
        assert w in s.mutexes[i].waiters;
        if i != m || !Acquires(s, m) {
          assert Above(k, s.mutexes[i].holder.task, w);
        }
      }
    }
  }

  lemma SameAbove(s: System, m: MutexId)
    requires GoodSystem(s) && Possible(s, TakeMutex(m))
    ensures forall h, w :: Above(Take(s, m).0.c.k, h, w) <==> Above(s.c.k, h, w)
  {
    hide GoodSystem, Steppable, Placed, FineTcbs;
  }

  lemma WaitersKnown(s: System)
    requires GoodSystem(s)
    ensures Workable(s)
    ensures forall m, w :: m in s.mutexes && w in s.mutexes[m].waiters ==> w in s.c.k.tcbs
  {
    hide Good, Owned, Steppable;
    SystemGives(s);
  }

  lemma NewCovered(s: System, m: MutexId, recursive: bool)
    requires Possible(s, NewMutex(m, recursive)) && Covered(s.c.k, s.mutexes)
    ensures var r := After(s, NewMutex(m, recursive));
            Covered(r.c.k, r.mutexes) && !Uncovers(s, NewMutex(m, recursive))
  {
    hide Steppable;
    var r := After(s, NewMutex(m, recursive));
    assert Relieved(s.c.k, r.c.k, s.mutexes, r.mutexes);
    RelievedCovered(s.c.k, r.c.k, s.mutexes, r.mutexes);
  }

  // ----- giving ------------------------------------------------------------------------------

  /** A task that holds a second mutex keeps its priority when it gives the first. */
  lemma ReleaseLowers(s: System, m: MutexId)
    requires GoodSystem(s) && Gives(s, m)
    ensures var k, r := s.c.k, Release(s, m).c.k;
            && k.current in k.tcbs && k.current in r.tcbs && r.tcbs[k.current].priority <= k.tcbs[k.current].priority
            && ((exists i :: i != m && i in s.mutexes && s.mutexes[i].holder == HeldBy(k.current)) ==>
                  r.tcbs[k.current].priority == k.tcbs[k.current].priority)
  {
    hide Sound, Steppable, Placed, FineTcbs, Disinherit, AllExclusive, AllQueued, Release, Step, NewState, EventWake;
    hide HeldCounts;
    SystemGives(s);
    StateGives(s.c.k);
    ReleaseSplits(s, m);
    var k, f := s.c.k, Vacated(s, m);
    HolderHolds(s, m, k.current);
    DisinheritKeeps(k, s.c.now, s.c.due, s.c.now + 1);
    assert k.current in f.c.k.tcbs.Keys;
    FineGiven(s.c, k.current);
    if i :| i != m && i in s.mutexes && s.mutexes[i].holder == HeldBy(k.current) {
      HoldsTwo(s, m, i, k.current);
    }
    if s.mutexes[m].waiters != [] {
      EventRanks(f, s.mutexes[m].waiters[0], k.current);
    }
  }

  lemma HoldsTwo(s: System, m: MutexId, i: MutexId, t: TaskId)
    requires GoodSystem(s) && m in s.mutexes && i in s.mutexes && i != m && t in s.c.k.tcbs
    requires s.mutexes[m].holder == HeldBy(t) && s.mutexes[i].holder == HeldBy(t)
    ensures s.c.k.tcbs[t].mutexesHeld > 1
  {
    hide Good, AllExclusive, AllQueued;
    assert {m, i} <= Held(s.mutexes, t);
    assert |Held(s.mutexes, t) - {m}| >= 1 by { assert i in Held(s.mutexes, t) - {m}; }
  }

  lemma ReleaseRelieves(s: System, m: MutexId)
    requires GoodSystem(s) && Gives(s, m)
    ensures Relieved(s.c.k, Release(s, m).c.k, s.mutexes, Release(s, m).mutexes)
  {
    hide GoodSystem, Steppable, Release;
    var k, r := s.c.k, Release(s, m);
    ReleaseLowers(s, m);
    ReleasedMutexes(s, m);
    forall i, w | i in r.mutexes && r.mutexes[i].holder.HeldBy? && w in r.mutexes[i].waiters
      ensures Above(k, s.mutexes[i].holder.task, w) ==> Above(r.c.k, s.mutexes[i].holder.task, w)
    {
      if Above(k, s.mutexes[i].holder.task, w) {
        if w != k.current { ReleaseRanks(s, m, w); }
        if s.mutexes[i].holder.task != k.current { ReleaseRanks(s, m, s.mutexes[i].holder.task); }
      }
    }
  }

  lemma ReleasedMutexes(s: System, m: MutexId)
    requires GoodSystem(s) && Gives(s, m)
    ensures m in s.mutexes
    ensures var r := Release(s, m).mutexes;
            r == s.mutexes[m := r[m]] && m in r && r[m].holder == NoHolder
    ensures Release(s, m).mutexes[m].waiters == if s.mutexes[m].waiters == [] then [] else s.mutexes[m].waiters[1..]
  {
    hide GoodSystem, Steppable, Placed, FineTcbs, Disinherit, EventWake;
  }

  lemma GiveCovered(s: System, m: MutexId)
    requires GoodSystem(s) && Possible(s, GiveMutex(m)) && Covered(s.c.k, s.mutexes)
    ensures Covered(Give(s, m).0.c.k, Give(s, m).0.mutexes) && !Uncovers(s, GiveMutex(m))
  {
    hide GoodSystem, Steppable, Release;
    if s.mutexes[m].holder == HeldBy(s.c.k.current) && !(s.mutexes[m].recursive && s.mutexes[m].depth > 1) {
      ReleaseRelieves(s, m);
      RelievedCovered(s.c.k, Release(s, m).c.k, s.mutexes, Release(s, m).mutexes);
    } else {
      RelievedCovered(s.c.k, s.c.k, s.mutexes, Give(s, m).0.mutexes);
    }
  }

  // ----- waiting -----------------------------------------------------------------------------

  lemma WaitMutexes(s: System, m: MutexId, ticks: nat)
    requires GoodSystem(s) && Possible(s, WaitMutex(m, ticks))
    ensures m in s.mutexes
    ensures var r := Wait(s, m, ticks).mutexes;
            && m in r && r == s.mutexes[m := s.mutexes[m].(waiters := r[m].waiters)]
            && forall u :: u in r[m].waiters <==> u == s.c.k.current || u in s.mutexes[m].waiters
  {
    hide Good, Steppable, Placed, FineTcbs, AllExclusive, HeldCounts, Inherit, PlaceOnEventList, NoDuplicates, InsertAt;
    var k, mx := s.c.k, s.mutexes[m];
    SystemGives(s);
    StateGives(k);
    InheritLeavesCurrent(k, mx.holder.task);
    var i := Inherit(k, mx.holder.task).0;
    var value := i.tcbs[i.current].eventValue;
    assert forall u :: u in mx.waiters ==> u in i.tcbs.Keys;
    JoinMembers(i, mx.waiters, k.current, value);
  }

  lemma JoinMembers(k: State, waiters: seq<TaskId>, t: TaskId, value: nat)
    requires forall u :: u in waiters ==> u in k.tcbs
    ensures forall u :: u in Enqueue(k, waiters, t, value) <==> u == t || u in waiters
  {
    var pos := InsertPosition(EventValues(k, waiters), value);
    assert Enqueue(k, waiters, t, value) == waiters[..pos] + [t] + waiters[pos..];
    assert waiters == waiters[..pos] + waiters[pos..];
  }

  lemma WaitCovered(s: System, m: MutexId, ticks: nat)
    requires GoodSystem(s) && Possible(s, WaitMutex(m, ticks)) && Covered(s.c.k, s.mutexes)
    ensures var r := Wait(s, m, ticks); Covered(r.c.k, r.mutexes) <==> !Uncovers(s, WaitMutex(m, ticks))
  {
    hide GoodSystem, Steppable, Wait, Unbalances;
    var k, r, op := s.c.k, Wait(s, m, ticks), WaitMutex(m, ticks);
    var h, ch := s.mutexes[m].holder.task, RankChange(s, op);
    WaitMutexes(s, m, ticks);
    forall u | u in k.tcbs
      ensures u in r.c.k.tcbs
      ensures r.c.k.tcbs[u].priority == if ch.Change? && u == ch.task then ch.priority else k.tcbs[u].priority
    {
      WaitRanks(s, m, ticks, u);
    }
    if ch.Change? {
      Rebalance(k, r.c.k, s.mutexes, ch.task, ch.priority);
    } else {
      RelievedCovered(k, r.c.k, s.mutexes, s.mutexes);
    }
    assert Above(r.c.k, h, k.current);
    JoinedCovered(r.c.k, s.mutexes, r.mutexes, m, k.current);
  }

  lemma JoinedCovered(k: State, ms: map<MutexId, Mutex>, ms': map<MutexId, Mutex>, m: MutexId, t: TaskId)
    requires m in ms && m in ms' && ms' == ms[m := ms[m].(waiters := ms'[m].waiters)]
    requires forall u :: u in ms'[m].waiters <==> u == t || u in ms[m].waiters
    requires ms[m].holder.HeldBy? && Above(k, ms[m].holder.task, t)
    ensures Covered(k, ms') <==> Covered(k, ms)
  {
    if Covered(k, ms') {
      forall i, w | i in ms && ms[i].holder.HeldBy? && w in ms[i].waiters ensures Above(k, ms[i].holder.task, w) {
        assert w in ms'[i].waiters && ms'[i].holder == ms[i].holder;
      }
    }
  }

  lemma ExpireCovered(s: System, m: MutexId, inherited: bool)
    requires GoodSystem(s) && Possible(s, ExpireMutex(m, inherited)) && Covered(s.c.k, s.mutexes)
    ensures var r := Expire(s, m, inherited); Covered(r.c.k, r.mutexes) <==> !Uncovers(s, ExpireMutex(m, inherited))
  {
    hide GoodSystem, Steppable, Expire, Unbalances, Covered;
    var k, r, op := s.c.k, Expire(s, m, inherited), ExpireMutex(m, inherited);
    var ch := RankChange(s, op);
    ExpiredMutexes(s, m, inherited);
    forall u | u in k.tcbs
      ensures u in r.c.k.tcbs
      ensures r.c.k.tcbs[u].priority == if ch.Change? && u == ch.task then ch.priority else k.tcbs[u].priority
    {
      ExpireRanks(s, m, inherited, u);
    }
    if ch.Change? {
      Rebalance(k, r.c.k, s.mutexes, ch.task, ch.priority);
    } else {
      RelievedCovered(k, r.c.k, s.mutexes, s.mutexes);
    }
  }

  lemma ExpiredMutexes(s: System, m: MutexId, inherited: bool)
    requires Possible(s, ExpireMutex(m, inherited))
    ensures Expire(s, m, inherited).mutexes == s.mutexes
  {
    hide Steppable, Placed, FineTcbs, DisinheritAfterTimeout, HighestWaiting;
  }

  // ----- whole runs --------------------------------------------------------------------------

  lemma StepCovered(s: System, op: MutexOp)
    requires GoodSystem(s) && Possible(s, op) && Covered(s.c.k, s.mutexes)
    requires !(op.KernelStep? && DeletesHolder(s.c.k, op.op))
    ensures Covered(After(s, op).c.k, After(s, op).mutexes) <==> !Uncovers(s, op)
  {
    hide GoodSystem, Steppable, Covered, Uncovers, Take, Give, Wait, Expire, Step;
    match op {
      case KernelStep(o) => KernelCovered(s, o);
      case NewMutex(m, recursive) => NewCovered(s, m, recursive);
      case TakeMutex(m) => TakeCovered(s, m);
      case GiveMutex(m) => GiveCovered(s, m);
      case WaitMutex(m, ticks) => WaitCovered(s, m, ticks);
      case ExpireMutex(m, inherited) => ExpireCovered(s, m, inherited);
    }
  }

  ghost predicate AlwaysCovered(s: System, ops: seq<MutexOp>)
    requires IsMutexRun(s, ops)
    decreases |ops|
  {
    Covered(s.c.k, s.mutexes) && (ops != [] ==> AlwaysCovered(After(s, ops[0]), ops[1..]))
  }

  ghost predicate NeverUncovers(s: System, ops: seq<MutexOp>)
    requires IsMutexRun(s, ops)
    decreases |ops|
  {
    ops != [] ==> !Uncovers(s, ops[0]) && NeverUncovers(After(s, ops[0]), ops[1..])
  }

  /** Inheritance over a run: at every moment each holder runs at or above all
      tasks that wait for its mutexes, exactly if the run never sets a priority
      past a holder or a waiter, directly or through another mutex, and never
      takes a free mutex past a higher waiter. */
  lemma {:induction false} CoveredUnless(s: System, ops: seq<MutexOp>)
    requires GoodSystem(s) && IsMutexRun(s, ops) && NoHolderDeleted(s, ops) && Covered(s.c.k, s.mutexes)
    ensures AlwaysCovered(s, ops) <==> NeverUncovers(s, ops)
    decreases |ops|
  {
    hide GoodSystem, After, Covered, Uncovers, DeletesHolder;
    if ops != [] {
      MutexStepKeeps(s, ops[0]);
      StepCovered(s, ops[0]);
      if !Uncovers(s, ops[0]) {
        CoveredUnless(After(s, ops[0]), ops[1..]);
      }
    }
  }
}
