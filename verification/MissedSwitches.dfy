/** Preemption beside mutexes: the two calls after which a ready task may outrank
    the running one though no switch was asked for, and exactly when. */
module MissedSwitches {
  import opened Kernel
  import opened Suspension
  import opened Tasks
  import opened Lifecycle
  import opened Priorities
  import opened Runs
  import opened Evolution
  import opened Mutexes
  import opened Preemption
  import Population

  /** The give ends the running task's inheritance. */
  ghost predicate EndsInheritance(k: State) {
    && k.current in k.tcbs && k.tcbs[k.current].priority != k.tcbs[k.current].basePriority
    && k.tcbs[k.current].mutexesHeld == 1
  }

  ghost predicate ReleasesMutex(s: System, m: MutexId)
    requires m in s.mutexes
  {
    var mx := s.mutexes[m];
    mx.holder == HeldBy(s.c.k.current) && !(mx.recursive && mx.depth > 1)
  }

  /** xQueueGenericSend and a blocking xQueueSemaphoreTake yield themselves; the
      give passes on the end of inheritance only if nobody waits. */
  ghost predicate MutexAsks(s: System, op: MutexOp)
    requires Possible(s, op)
  {
    hide Placed, FineTcbs, SomeReady, PendingKnown;
    match op
    case KernelStep(o) => Asks(s.c.k, o)
    case GiveMutex(m) =>
      ReleasesMutex(s, m) && s.mutexes[m].waiters == [] && EndsInheritance(s.c.k)
    case WaitMutex(_, _) => true
    case _ => false
  }

  /** Of the operations on mutexes only two ask for a switch: a wait, and the give
      that nobody waits for and that ends the giver's inheritance. */
  lemma MutexAsksWhen(s: System, op: MutexOp)
    requires GoodSystem(s) && Possible(s, op)
    ensures Workable(s) && s.c.k.current in s.c.k.tcbs
    ensures var k, c := s.c.k, s.c.k.tcbs[s.c.k.current];
            MutexAsks(s, op) <==>
            match op
            case KernelStep(o) => Asks(k, o)
            case WaitMutex(_, _) => true
            case GiveMutex(m) =>
              && s.mutexes[m].holder == HeldBy(k.current) && s.mutexes[m].waiters == []
              && (s.mutexes[m].recursive ==> s.mutexes[m].depth == 1)
              && c.mutexesHeld == 1 && c.priority > c.basePriority
            case _ => false
  {
    hide Good, AllQueued, Queued, HeldCounts, Placed, FineTcbs, SomeReady, PendingKnown;
    SystemGives(s);
    StateGives(s.c.k);
    FineGiven(s.c, s.c.k.current);
    if op.GiveMutex? {
      assert Exclusive(s.c.k, s.mutexes[op.m]);
    }
  }

  /** A give lowers the running task and wakes a waiter that does not outrank it,
      while another ready task does; or the timeout of a waiter raises a ready
      holder above the running task, because another waiter was raised after
      it blocked. */
  ghost predicate Misses(s: System, op: MutexOp)
    requires Possible(s, op)
  {
    hide Placed, FineTcbs, SomeReady, PendingKnown;
    var k := s.c.k;
    match op
    case GiveMutex(m) =>
      && ReleasesMutex(s, m) && s.mutexes[m].waiters != [] && EndsInheritance(k)
      && k.tcbs[s.mutexes[m].waiters[0]].priority <= k.tcbs[k.current].basePriority
      && exists u :: u in k.tcbs && k.tcbs[u].list.Ready? && k.tcbs[u].priority > k.tcbs[k.current].basePriority
                     && u != k.current
    case ExpireMutex(m, inherited) =>
      && inherited && s.mutexes[m].holder.HeldBy?
      && Falls(k.tcbs[s.mutexes[m].holder.task], HighestWaiting(k, s.mutexes[m]))
      && k.tcbs[s.mutexes[m].holder.task].list.Ready?
      && HighestWaiting(k, s.mutexes[m]) > k.tcbs[k.current].priority
    case _ => false
  }

  // ----- giving --------------------------------------------------------------------------------

  /** What the end of a holder's claim on a mutex does to the running task. */
  ghost predicate Lowered(k: State, d: State)
    requires k.current in k.tcbs
  {
    && d.current == k.current && d.yieldPending == k.yieldPending && d.tcbs.Keys == k.tcbs.Keys
    && (forall u :: u in k.tcbs && u != k.current ==> d.tcbs[u] == k.tcbs[u])
    && (d.tcbs[k.current].list.Ready? <==> k.tcbs[k.current].list.Ready?)
    && d.tcbs[k.current].priority ==
       if EndsInheritance(k) then k.tcbs[k.current].basePriority else k.tcbs[k.current].priority
  }

  lemma GiveLowers(s: System, m: MutexId)
    requires GoodSystem(s) && Gives(s, m)
    ensures s.c.k.current in s.c.k.tcbs && Lowered(s.c.k, Vacated(s, m).c.k)
  {
    hide Sound, Steppable, Placed, FineTcbs, Disinherit, Owned;
    SystemGives(s);
    StateGives(s.c.k);
    HolderHolds(s, m, s.c.k.current);
    DisinheritKeeps(s.c.k, s.c.now, s.c.due, s.c.now + 1);
  }

  /** A woken waiter is pended as a switch exactly if it outranks the task that runs. */
  ghost predicate WakesOne(d: State, r: State, w: TaskId) {
    && d.current in d.tcbs && w in d.tcbs && w in r.tcbs && w != d.current && !d.tcbs[w].list.Ready?
    && r.current == d.current && r.tcbs.Keys == d.tcbs.Keys
    && r.yieldPending == (d.yieldPending || Outranks(d, w))
    && r.tcbs[w].priority == d.tcbs[w].priority
    && forall u :: u in d.tcbs && u != w ==> r.tcbs[u] == d.tcbs[u]
  }

  lemma EventWakes(k: State, w: TaskId)
    requires Steppable(k) && Enabled(k, Event(w)) && Sleeping(k.tcbs[w].list) && k.tcbs[k.current].list.Ready?
    ensures WakesOne(k, NewState(k, Event(w)), w)
  {
    hide Placed, FineTcbs, SomeReady, EventWake, PendingKnown;
    EventWoken(k, w);
  }

  lemma WakeOutcome(k: State, d: State, r: State, w: TaskId)
    requires Dominates(k) && !k.yieldPending && Lowered(k, d) && WakesOne(d, r, w)
    ensures Settled(r, false) <==>
            !(&& EndsInheritance(k) && k.tcbs[w].priority <= k.tcbs[k.current].basePriority
              && exists u :: u in k.tcbs && k.tcbs[u].list.Ready? && k.tcbs[u].priority > k.tcbs[k.current].basePriority
                             && u != k.current)
  {
    assert forall u :: u in k.tcbs <==> u in r.tcbs.Keys;
    if u :| u in k.tcbs && k.tcbs[u].list.Ready? && k.tcbs[u].priority > k.tcbs[k.current].basePriority
            && u != k.current {
      assert u in r.tcbs && r.tcbs[u] == k.tcbs[u];
    }
  }

  lemma GiveSettles(s: System, m: MutexId)
    requires GoodSystem(s) && Possible(s, GiveMutex(m)) && Dominates(s.c.k) && !s.c.k.yieldPending
    requires ReleasesMutex(s, m)
    ensures Settled(Release(s, m).c.k, MutexAsks(s, GiveMutex(m))) <==> !Misses(s, GiveMutex(m))
  {
    hide GoodSystem, Steppable, Dominates, EndsInheritance, Release, Vacated, Lowered, WakesOne;
    var k, g, waiters := s.c.k, Vacated(s, m), s.mutexes[m].waiters;
    GiveLowers(s, m);
    if waiters == [] {
      VacatedIs(s, m);
      StaysOnTop(k, g.c.k);
    } else {
      VacatedWakes(s, m, waiters[0]);
      WakeOutcome(k, g.c.k, Release(s, m).c.k, waiters[0]);
    }
  }

  ghost predicate NobodyWaits(s: System, m: MutexId) {
    m in s.mutexes && s.mutexes[m].waiters == []
  }

  ghost predicate FirstWaits(s: System, m: MutexId, w: TaskId) {
    m in s.mutexes && s.mutexes[m].waiters != [] && s.mutexes[m].waiters[0] == w
  }

  lemma VacatedIs(s: System, m: MutexId)
    requires GoodSystem(s) && Gives(s, m)
    ensures NobodyWaits(s, m) ==> Release(s, m) == Vacated(s, m)
  {
    hide Good, Owned, Steppable, Release, Vacated;
    ReleaseSplits(s, m);
  }

  lemma StaysOnTop(k: State, d: State)
    requires Dominates(k) && Lowered(k, d)
    ensures EndsInheritance(k) || Dominates(d)
  {
    assert forall u :: u in k.tcbs <==> u in d.tcbs.Keys;
  }

  lemma VacatedWakes(s: System, m: MutexId, w: TaskId)
    requires GoodSystem(s) && Gives(s, m) && FirstWaits(s, m, w) && Dominates(s.c.k)
    ensures WakesOne(Vacated(s, m).c.k, Release(s, m).c.k, w)
  {
    hide Good, Owned, Steppable, NewState, Independent, Vacated, Release;
    var g := Vacated(s, m);
    ReleaseSplits(s, m);
    GiveLowers(s, m);
    GoodSystemGives(g);
    TaskGives(g.c, w);
    EventWakes(g.c.k, w);
  }

  lemma GoodSystemGives(s: System)
    requires GoodSystem(s)
    ensures Good(s.c) && Steppable(s.c.k)
  {
    hide Good, Owned, Steppable;
    SystemGives(s);
  }

  // ----- the other operations ------------------------------------------------------------------

  lemma ExpireSettles(s: System, m: MutexId, inherited: bool)
    requires GoodSystem(s) && Possible(s, ExpireMutex(m, inherited)) && Dominates(s.c.k) && !s.c.k.yieldPending
    ensures Settled(Expire(s, m, inherited).c.k, false) <==> !Misses(s, ExpireMutex(m, inherited))
  {
    hide Sound, Steppable, Placed, FineTcbs, Owned, DisinheritAfterTimeout, HighestWaiting, Falls;
    if inherited && s.mutexes[m].holder != NoHolder {
      var k, holder, waiting := s.c.k, s.mutexes[m].holder.task, HighestWaiting(s.c.k, s.mutexes[m]);
      SystemGives(s);
      StateGives(k);
      HolderHolds(s, m, holder);
      var r := DisinheritAfterTimeout(k, holder, waiting);
      DisinheritAfterTimeoutKeeps(k, holder, waiting, s.c.now, s.c.due, s.c.now + 1);
      FineGiven(s.c, holder);
      FallenHolder(k, holder, waiting);
      ExpireOutcome(k, r, holder, waiting);
    }
  }

  lemma FallenHolder(k: State, holder: TaskId, waiting: nat)
    requires Placed(k) && FineTcbs(k.tcbs) && holder in k.tcbs && waiting < MAX_PRIORITIES
    ensures Falls(k.tcbs[holder], waiting) ==> k.tcbs[holder].mutexesHeld == 1
    ensures !Falls(k.tcbs[holder], waiting) ==> DisinheritAfterTimeout(k, holder, waiting) == k
  {
    hide Placed, FineTcbs;
  }

  lemma ExpireOutcome(k: State, r: State, holder: TaskId, waiting: nat)
    requires Dominates(k) && !k.yieldPending && holder in k.tcbs
    requires k.tcbs[holder].basePriority <= k.tcbs[holder].priority
    requires r.tcbs.Keys == k.tcbs.Keys && SameRest(k, r)
    requires forall u :: u in k.tcbs && u != holder ==> r.tcbs[u] == k.tcbs[u]
    requires if Falls(k.tcbs[holder], waiting)
             then holder != k.current && SameLists(k.tcbs[holder], r.tcbs[holder])
                  && r.tcbs[holder].priority == HighestOf(k.tcbs[holder].basePriority, waiting)
             else r == k
    ensures Settled(r, false) <==>
            !(Falls(k.tcbs[holder], waiting) && k.tcbs[holder].list.Ready? && waiting > k.tcbs[k.current].priority)
  {
    hide Falls;
    assert forall u :: u in k.tcbs <==> u in r.tcbs.Keys;
  }

  lemma TakeSettles(s: System, m: MutexId)
    requires Possible(s, TakeMutex(m)) && Settled(s.c.k, false)
    ensures Settled(Take(s, m).0.c.k, false)
  {
    hide Placed, FineTcbs, PendingKnown, SomeReady;
  }

  /** Mutexes leave a pending switch pending. */
  lemma PendingStays(s: System, op: MutexOp)
    requires GoodSystem(s) && Possible(s, op) && !op.KernelStep? && s.c.k.yieldPending
    ensures MutexAsks(s, op) || After(s, op).c.k.yieldPending
  {
    hide Good, Owned, Steppable, Placed, FineTcbs, Disinherit, DisinheritAfterTimeout, EventWake, Inherit;
    hide PlaceOnEventList;
    match op {
      case GiveMutex(m) =>
        if ReleasesMutex(s, m) {
          ReleasePends(s, m);
        }
      case ExpireMutex(m, inherited) => ExpirePends(s, m, inherited);
      case TakeMutex(m) => TakePends(s, m);
      case _ =>
    }
  }

  lemma TakePends(s: System, m: MutexId)
    requires Possible(s, TakeMutex(m))
    ensures Take(s, m).0.c.k.yieldPending == s.c.k.yieldPending
  {
    hide Steppable, Placed, FineTcbs;
  }

  lemma ReleasePends(s: System, m: MutexId)
    requires GoodSystem(s) && Gives(s, m)
    requires s.c.k.yieldPending
    ensures Release(s, m).c.k.yieldPending
  {
    hide GoodSystem, Steppable, Vacated, Release, Splits;
    ReleaseSplits(s, m);
    GiveLowers(s, m);
    VacatedPends(s, m);
  }

  lemma VacatedPends(s: System, m: MutexId)
    requires Gives(s, m) && Splits(s, m) && Vacated(s, m).c.k.yieldPending
    ensures Release(s, m).c.k.yieldPending
  {
    hide Steppable, NewState, Independent, Vacated, Release;
    if s.mutexes[m].waiters != [] {
      EventPends(Vacated(s, m).c.k, s.mutexes[m].waiters[0]);
    }
  }

  lemma EventPends(k: State, w: TaskId)
    requires Steppable(k) && Enabled(k, Event(w)) && k.yieldPending
    ensures NewState(k, Event(w)).yieldPending
  {
    hide Placed, FineTcbs, SomeReady, EventWake, PendingKnown;
    EventWoken(k, w);
  }

  lemma ExpirePends(s: System, m: MutexId, inherited: bool)
    requires GoodSystem(s) && Possible(s, ExpireMutex(m, inherited))
    ensures Expire(s, m, inherited).c.k.yieldPending == s.c.k.yieldPending
  {
    hide Sound, Steppable, Placed, FineTcbs, Owned, DisinheritAfterTimeout, HighestWaiting;
    if inherited && s.mutexes[m].holder != NoHolder {
      var holder := s.mutexes[m].holder.task;
      SystemGives(s);
      StateGives(s.c.k);
      HolderHolds(s, m, holder);
      DisinheritAfterTimeoutKeeps(s.c.k, holder, HighestWaiting(s.c.k, s.mutexes[m]), s.c.now, s.c.due, s.c.now + 1);
    }
  }

  // ----- whole runs ----------------------------------------------------------------------------

  ghost function MutexAsked(s: System, op: MutexOp, asked: bool): bool
    requires Possible(s, op)
  {
    if op == KernelStep(Switch) then false else asked || MutexAsks(s, op)
  }

  /** The step misses a switch: none is asked for or pending, and none is made. */
  ghost predicate MissesSwitch(s: System, op: MutexOp, asked: bool)
    requires Possible(s, op)
  {
    !asked && !s.c.k.yieldPending && Misses(s, op)
  }

  lemma MutexStepSettles(s: System, op: MutexOp, asked: bool)
    requires GoodSystem(s) && Possible(s, op) && Settled(s.c.k, asked)
    ensures Settled(After(s, op).c.k, MutexAsked(s, op, asked)) <==> !MissesSwitch(s, op, asked)
  {
    hide Good, Owned, Steppable, Step, NewState, Dominates, Misses, MutexAsks, Release, Take, Expire, Wait, Asks;
    GoodSystemGives(s);
    if op.KernelStep? {
      KernelSettles(s, op.op, asked);
    } else if !asked {
      if s.c.k.yieldPending {
        PendingStays(s, op);
      } else {
        MutexSettles(s, op);
      }
    }
  }

  lemma KernelSettles(s: System, op: Op, asked: bool)
    requires GoodSystem(s) && Possible(s, KernelStep(op)) && Settled(s.c.k, asked)
    ensures Settled(After(s, KernelStep(op)).c.k, MutexAsked(s, KernelStep(op), asked))
    ensures !MissesSwitch(s, KernelStep(op), asked)
  {
    hide Good, Owned, Steppable, Step, Dominates, Asks;
    GoodSystemGives(s);
    StepSettles(s.c, op, asked);
  }

  lemma MutexSettles(s: System, op: MutexOp)
    requires GoodSystem(s) && Possible(s, op) && !op.KernelStep? && Dominates(s.c.k) && !s.c.k.yieldPending
    ensures Settled(After(s, op).c.k, MutexAsks(s, op)) <==> !Misses(s, op)
  {
    hide GoodSystem, Steppable, Dominates, Release, Take, Expire, Wait;
    match op {
      case NewMutex(_, _) =>
      case TakeMutex(m) => TakeSettles(s, m);
      case GiveMutex(m) => if ReleasesMutex(s, m) { GiveSettles(s, m); }
      case WaitMutex(_, _) =>
      case ExpireMutex(m, inherited) => ExpireSettles(s, m, inherited);
    }
  }

  /** At every moment of the run, nothing outranks the running task, or a switch
      is pending, or one was asked for since the last switch. */
  ghost predicate AlwaysSettled(s: System, ops: seq<MutexOp>, asked: bool)
    requires IsMutexRun(s, ops)
    decreases |ops|
  {
    && Settled(s.c.k, asked)
    && (ops != [] ==> AlwaysSettled(After(s, ops[0]), ops[1..], MutexAsked(s, ops[0], asked)))
  }

  ghost predicate NeverMisses(s: System, ops: seq<MutexOp>, asked: bool)
    requires IsMutexRun(s, ops)
    decreases |ops|
  {
    ops != [] ==>
      && !MissesSwitch(s, ops[0], asked)
      && NeverMisses(After(s, ops[0]), ops[1..], MutexAsked(s, ops[0], asked))
  }

  /** Whether a switch that the run asked for has not been made at its end. */
  ghost function LastAsked(s: System, ops: seq<MutexOp>, asked: bool): bool
    requires IsMutexRun(s, ops)
    decreases |ops|
  {
    if ops == [] then asked else LastAsked(After(s, ops[0]), ops[1..], MutexAsked(s, ops[0], asked))
  }

  /** Preemption beside mutexes: no switch is missed at any moment of a run exactly
      if it has neither of the two calls that Misses describes. */
  lemma {:induction false} SettledUnlessMissed(s: System, ops: seq<MutexOp>, asked: bool)
    requires GoodSystem(s) && IsMutexRun(s, ops) && NoHolderDeleted(s, ops) && Settled(s.c.k, asked)
    ensures AlwaysSettled(s, ops, asked) <==> NeverMisses(s, ops, asked)
    decreases |ops|
  {
    hide GoodSystem, After, Settled, MissesSwitch, MutexAsked, DeletesHolder;
    if ops != [] {
      MutexStepKeeps(s, ops[0]);
      MutexStepSettles(s, ops[0], asked);
      if !MissesSwitch(s, ops[0], asked) {
        SettledUnlessMissed(After(s, ops[0]), ops[1..], MutexAsked(s, ops[0], asked));
      }
    }
  }

  /** So it is from the first state on: at the end of a run without these calls,
      no ready task outranks the running one, unless a switch is due. */
  lemma SettledFromStart(idle: TaskId, ops: seq<MutexOp>)
    requires var first := System(Config(Population.Started(idle), 0, map[]), map[]);
             IsMutexRun(first, ops) && NoHolderDeleted(first, ops)
    ensures var first := System(Config(Population.Started(idle), 0, map[]), map[]);
            && (AlwaysSettled(first, ops, false) <==> NeverMisses(first, ops, false))
            && (NeverMisses(first, ops, false) ==> Settled(Outcome(first, ops).c.k, LastAsked(first, ops, false)))
  {
    hide Population.Started, GoodSystem, IsMutexRun, AlwaysSettled, NeverMisses, NoHolderDeleted, LastAsked, Outcome;
    var first := System(Config(Population.Started(idle), 0, map[]), map[]);
    Population.StartsGoodSystem(idle);
    Population.StartsEmpty(idle);
    SettledUnlessMissed(first, ops, false);
    if NeverMisses(first, ops, false) {
      SettledAtEnd(first, ops, false);
    }
  }

  lemma {:induction false} SettledAtEnd(s: System, ops: seq<MutexOp>, asked: bool)
    requires IsMutexRun(s, ops) && AlwaysSettled(s, ops, asked)
    ensures Settled(Outcome(s, ops).c.k, LastAsked(s, ops, asked))
    decreases |ops|
  {
    hide Possible, After, Settled, MutexAsked;
    if ops != [] {
      SettledAtEnd(After(s, ops[0]), ops[1..], MutexAsked(s, ops[0], asked));
    }
  }
}
