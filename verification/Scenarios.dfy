/** Runs from the first state of the scheduler on which the code does less than
    one might expect of it. */
module Scenarios {
  import opened Lists
  import opened Kernel
  import opened Ticks
  import opened Suspension
  import opened Tasks
  import opened Lifecycle
  import opened Priorities
  import opened Runs
  import opened Mutexes
  import opened Preemption
  import opened MissedSwitches
  import opened Sleeping
  import Evolution
  import Inheritance
  import WaitOrder
  import Population

  ghost function First(): System {
    System(Config(Population.Started(0), 0, map[]), map[])
  }

  // ----- where a run is ------------------------------------------------------------------

  /** c is e, but for the wake time and for which delayed list it is on. */
  ghost predicate Like(c: Tcb, e: Tcb) {
    && c == e.(list := c.list, wake := c.wake) && e.list != Delayed2
    && (if e.list == Delayed1 then c.list == Delayed1 || c.list == Delayed2 else c.list == e.list)
  }

  ghost predicate Shows(k: State, tasks: map<TaskId, Tcb>) {
    k.tcbs.Keys == tasks.Keys && forall t :: t in tasks ==> Like(k.tcbs[t], tasks[t])
  }

  /** The tasks, the running one and the mutexes at some moment of a run. */
  ghost predicate Stage(s: System, tasks: map<TaskId, Tcb>, current: TaskId, ms: map<MutexId, Mutex>) {
    && GoodSystem(s) && s.mutexes == ms && ShowsRunning(s.c.k, tasks, current)
  }

  ghost predicate ShowsRunning(k: State, tasks: map<TaskId, Tcb>, current: TaskId) {
    && Shows(k, tasks) && k.current == current && current in tasks && k.idle == 0 && k.suspendCount == 0
  }

  ghost predicate Waiting(tasks: map<TaskId, Tcb>, ms: map<MutexId, Mutex>) {
    forall m, w :: m in ms && w in ms[m].waiters ==> w in tasks && tasks[w].event == OnEventList
  }

  lemma StageGives(s: System, tasks: map<TaskId, Tcb>, current: TaskId, ms: map<MutexId, Mutex>)
    requires Stage(s, tasks, current, ms)
    ensures Workable(s) && Steppable(s.c.k) && Good(s.c)
    ensures GoodSystem(s) && s.mutexes == ms && ShowsRunning(s.c.k, tasks, current)
    ensures s.c.k.current in s.c.k.tcbs && Like(s.c.k.tcbs[s.c.k.current], tasks[current])
  {
    hide Good, Owned, Steppable;
    SystemGives(s);
    StateGives(s.c.k);
    Shown(s.c.k, tasks, current, current);
  }

  lemma Shown(k: State, tasks: map<TaskId, Tcb>, current: TaskId, t: TaskId)
    requires ShowsRunning(k, tasks, current)
    ensures t in k.tcbs <==> t in tasks
    ensures t in tasks ==> Like(k.tcbs[t], tasks[t])
    ensures k.current == current && k.idle == 0 && k.suspendCount == 0 && current in tasks
  {
    assert t in k.tcbs.Keys <==> t in tasks.Keys;
  }

  lemma AfterKernel(s: System, op: Op)
    requires Possible(s, KernelStep(op))
    ensures Steppable(s.c.k) && Enabled(s.c.k, op)
    ensures var r := After(s, KernelStep(op));
            r.c == Step(s.c, op) && r.c.k == NewState(s.c.k, op) && r.mutexes == Refresh(r.c.k, s.mutexes)
  {
    hide Steppable, NewState, Refresh;
  }

  lemma Allowed(s: System, op: Op)
    requires Workable(s) && Enabled(s.c.k, op) && !op.Event? && !op.UnorderedEvent?
    ensures Possible(s, KernelStep(op))
  {
    hide Workable;
  }

  lemma Undisturbing(k: State, tasks: map<TaskId, Tcb>, ms: map<MutexId, Mutex>)
    requires Shows(k, tasks) && Waiting(tasks, ms)
    ensures Refresh(k, ms) == ms
  {
    forall m | m in ms ensures StillWaiting(k, ms[m].waiters) == ms[m].waiters {
      forall w | w in ms[m].waiters ensures w in k.tcbs && k.tcbs[w].event == OnEventList {
        assert Like(k.tcbs[w], tasks[w]);
      }
      StillAll(k, ms[m].waiters);
    }
  }

  /** A step of the scheduler that leaves all waiters waiting. */
  lemma KernelStage(s: System, op: Op, tasks: map<TaskId, Tcb>, current: TaskId, ms: map<MutexId, Mutex>)
    requires GoodSystem(s) && s.mutexes == ms && Possible(s, KernelStep(op)) && !DeletesHolder(s.c.k, op)
    requires ShowsRunning(Step(s.c, op).k, tasks, current) && Waiting(tasks, ms)
    ensures Stage(After(s, KernelStep(op)), tasks, current, ms)
  {
    hide Good, GoodSystem, Steppable, Step, Shows, Refresh;
    KernelStepOwned(s, op);
    Undisturbing(Step(s.c, op).k, tasks, ms);
  }

  /** The step sets one task's TCB to something like e, and switches to no other. */
  ghost predicate SetsOne(k: State, op: Op, t: TaskId, e: Tcb)
    requires Steppable(k) && Enabled(k, op)
  {
    var r := NewState(k, op);
    && t in r.tcbs && r.tcbs == k.tcbs[t := r.tcbs[t]] && Like(r.tcbs[t], e)
    && r.current == k.current && r.idle == k.idle && r.suspendCount == k.suspendCount
  }

  lemma SetOne(s: System, op: Op, tasks: map<TaskId, Tcb>, current: TaskId, ms: map<MutexId, Mutex>, t: TaskId, e: Tcb)
    requires Stage(s, tasks, current, ms) && Possible(s, KernelStep(op)) && !DeletesHolder(s.c.k, op)
    requires Waiting(tasks[t := e], ms) && SetsOne(s.c.k, op, t, e)
    ensures Stage(After(s, KernelStep(op)), tasks[t := e], current, ms)
  {
    hide Good, GoodSystem, Steppable, NewState, Waiting, Independent;
    KernelStage(s, op, tasks[t := e], current, ms);
  }

  lemma StillWaits(tasks: map<TaskId, Tcb>, ms: map<MutexId, Mutex>, t: TaskId, e: Tcb)
    requires Waiting(tasks, ms) && (t in tasks ==> e.event == tasks[t].event)
    ensures Waiting(tasks[t := e], ms)
  {
  }

  lemma NewPrioritiesKeep(c: Tcb, p: nat)
    ensures NewPriorities(c, p).event == c.event && NewPriorities(c, p).list == c.list
  {
  }

  // ----- the steps -----------------------------------------------------------------------

  lemma CreateStage(s: System, tasks: map<TaskId, Tcb>, current: TaskId, ms: map<MutexId, Mutex>, t: TaskId, p: nat)
    requires Stage(s, tasks, current, ms) && t !in tasks && Waiting(tasks, ms)
    ensures Possible(s, KernelStep(NewTask(t, p)))
    ensures Stage(After(s, KernelStep(NewTask(t, p))), tasks[t := NewTcb(p)], current, ms)
  {
    hide Stage, ShowsRunning, Good, GoodSystem, Steppable, Possible, After, SetsOne, Waiting, NewState, Workable, Like;
    StageGives(s, tasks, current, ms);
    Shown(s.c.k, tasks, current, t);
    Allowed(s, NewTask(t, p));
    Creates(s.c.k, t, p);
    StillWaits(tasks, ms, t, NewTcb(p));
    SetOne(s, NewTask(t, p), tasks, current, ms, t, NewTcb(p));
  }

  lemma Creates(k: State, t: TaskId, p: nat)
    requires Steppable(k) && Enabled(k, NewTask(t, p))
    ensures SetsOne(k, NewTask(t, p), t, NewTcb(p))
  {
    hide Placed, FineTcbs, SomeReady, PendingKnown;
  }

  lemma SwitchStage(s: System, tasks: map<TaskId, Tcb>, current: TaskId, ms: map<MutexId, Mutex>, next: TaskId)
    requires Stage(s, tasks, current, ms) && Waiting(tasks, ms) && next in tasks && tasks[next].list.Ready?
    requires forall t :: t in tasks && tasks[t].list.Ready? && t != next ==> tasks[t].priority < tasks[next].priority
    ensures Possible(s, KernelStep(Switch))
    ensures Stage(After(s, KernelStep(Switch)), tasks, next, ms)
    ensures !After(s, KernelStep(Switch)).c.k.yieldPending
  {
    hide Stage, Good, Steppable, Owned, SwitchContext, Placed, FineTcbs, SomeReady, NewState, Possible, Waiting;
    StageGives(s, tasks, current, ms);
    Allowed(s, Switch);
    Evolution.SwitchIs(s.c.k);
    SwitchedTasks(s.c.k);
    Picks(s, tasks, current, next);
    KernelStage(s, Switch, tasks, next, ms);
  }

  lemma Picks(s: System, tasks: map<TaskId, Tcb>, current: TaskId, next: TaskId)
    requires Good(s.c) && Steppable(s.c.k) && ShowsRunning(s.c.k, tasks, current)
    requires next in tasks && tasks[next].list.Ready?
    requires forall t :: t in tasks && tasks[t].list.Ready? && t != next ==> tasks[t].priority < tasks[next].priority
    ensures SwitchContext(s.c.k).current == next && !SwitchContext(s.c.k).yieldPending
  {
    hide Clocked, Fine, Steppable, SwitchContext, Placed, FineTcbs, SomeReady;
    InvGives(s.c.k, s.c.now, s.c.due);
    SoundGives(s.c.k, s.c.now, s.c.due, s.c.now + 1);
    SwitchPicksHighest(s.c.k);
    assert Like(s.c.k.tcbs[next], tasks[next]);
  }

  lemma SwitchedTasks(k: State)
    requires Steppable(k)
    ensures SwitchContext(k).idle == k.idle
    ensures SwitchContext(k).tcbs == k.tcbs && SwitchContext(k).suspendCount == k.suspendCount
  {
    hide Placed, FineTcbs, SomeReady, PendingKnown;
  }

  /** A task that is not ready gets a new priority. */
  lemma PrioritiseStage(s: System, tasks: map<TaskId, Tcb>, current: TaskId, ms: map<MutexId, Mutex>, t: TaskId, p: nat)
    requires Stage(s, tasks, current, ms) && Waiting(tasks, ms) && t in tasks && !tasks[t].list.Ready?
    ensures Possible(s, KernelStep(Prioritise(t, p)))
    ensures Stage(After(s, KernelStep(Prioritise(t, p))), tasks[t := NewPriorities(tasks[t], p)], current, ms)
  {
    hide Stage, ShowsRunning, Good, GoodSystem, Steppable, Possible, After, SetsOne, Waiting, NewState, Workable;
    hide NewPriorities, Like;
    StageGives(s, tasks, current, ms);
    Shown(s.c.k, tasks, current, t);
    Allowed(s, Prioritise(t, p));
    Prioritises(s.c.k, t, p, tasks[t]);
    NewPrioritiesKeep(tasks[t], p);
    StillWaits(tasks, ms, t, NewPriorities(tasks[t], p));
    SetOne(s, Prioritise(t, p), tasks, current, ms, t, NewPriorities(tasks[t], p));
  }

  lemma Prioritises(k: State, t: TaskId, p: nat, e: Tcb)
    requires t in k.tcbs && Like(k.tcbs[t], e) && !e.list.Ready?
    requires Steppable(k) && Enabled(k, Prioritise(t, p))
    ensures SetsOne(k, Prioritise(t, p), t, NewPriorities(e, p))
  {
    hide Placed, FineTcbs, SomeReady, PendingKnown, SetPriority;
    PrioritisedTask(k, t, p);
  }

  /** The running task delays for a while. */
  lemma DelayStage(s: System, tasks: map<TaskId, Tcb>, current: TaskId, ms: map<MutexId, Mutex>, ticks: nat)
    requires Stage(s, tasks, current, ms) && Waiting(tasks, ms) && current != 0 && tasks[current].list.Ready?
    requires 0 < ticks < MAX_DELAY && tasks[current].event == Nowhere
    ensures var op := Delay(ticks, false);
            && Possible(s, KernelStep(op))
            && Stage(After(s, KernelStep(op)), tasks[current := tasks[current].(list := Delayed1)], current, ms)
            && AsleepUntil(After(s, KernelStep(op)).c, current, s.c.now + ticks)
  {
    hide Stage, ShowsRunning, Good, GoodSystem, Steppable, Possible, Step, SetsOne, Waiting, NewState, Workable;
    hide AsleepUntil, Refresh, Like, After;
    var op := Delay(ticks, false);
    StageGives(s, tasks, current, ms);
    Shown(s.c.k, tasks, current, current);
    Allowed(s, op);
    Delays(s.c.k, ticks, tasks[current]);
    BlockingSleeps(s.c, op);
    AfterKernel(s, op);
    StillWaits(tasks, ms, current, tasks[current].(list := Delayed1));
    SetOne(s, op, tasks, current, ms, current, tasks[current].(list := Delayed1));
  }

  lemma Delays(k: State, ticks: nat, e: Tcb)
    requires Steppable(k) && Enabled(k, Delay(ticks, false)) && k.current in k.tcbs && Like(k.tcbs[k.current], e)
    ensures SetsOne(k, Delay(ticks, false), k.current, e.(list := Delayed1))
  {
    hide Placed, FineTcbs, SomeReady, PendingKnown, Block;
    BlockedTask(k, ticks, false);
  }

  /** The waiters that are still on an event list. */
  function StillIn(tasks: map<TaskId, Tcb>, waiters: seq<TaskId>): seq<TaskId> {
    if waiters == [] then []
    else
      var rest := StillIn(tasks, waiters[1..]);
      if waiters[0] in tasks && tasks[waiters[0]].event == OnEventList then [waiters[0]] + rest else rest
  }

  function StillQueued(tasks: map<TaskId, Tcb>, ms: map<MutexId, Mutex>): map<MutexId, Mutex> {
    map m | m in ms :: ms[m].(waiters := StillIn(tasks, ms[m].waiters))
  }

  lemma StillShown(k: State, tasks: map<TaskId, Tcb>, current: TaskId, ms: map<MutexId, Mutex>)
    requires ShowsRunning(k, tasks, current)
    ensures Refresh(k, ms) == StillQueued(tasks, ms)
  {
    forall m | m in ms ensures StillWaiting(k, ms[m].waiters) == StillIn(tasks, ms[m].waiters) {
      StillOne(k, tasks, ms[m].waiters);
    }
  }

  lemma {:induction false} StillOne(k: State, tasks: map<TaskId, Tcb>, waiters: seq<TaskId>)
    requires Shows(k, tasks)
    ensures StillWaiting(k, waiters) == StillIn(tasks, waiters)
  {
    if waiters != [] {
      StillOne(k, tasks, waiters[1..]);
      assert waiters[0] in tasks ==> Like(k.tcbs[waiters[0]], tasks[waiters[0]]);
    }
  }

  function Woken(c: Tcb): Tcb {
    if c.list == Delayed1 then c.(list := Ready(c.priority), event := Nowhere) else c
  }

  function AllWoken(tasks: map<TaskId, Tcb>): map<TaskId, Tcb> {
    map t | t in tasks :: Woken(tasks[t])
  }

  /** A tick that reaches the deadlines of all delayed tasks. */
  lemma TickStage(s: System, tasks: map<TaskId, Tcb>, current: TaskId, ms: map<MutexId, Mutex>)
    requires Stage(s, tasks, current, ms)
    requires forall t :: t in tasks && tasks[t].list == Delayed1 ==> AsleepUntil(s.c, t, s.c.now + 1)
    ensures Possible(s, KernelStep(TickInterrupt))
    ensures var tasks' := AllWoken(tasks);
            Stage(After(s, KernelStep(TickInterrupt)), tasks', current, StillQueued(tasks', ms))
  {
    hide ShowsRunning, Good, GoodSystem, Steppable, Possible, After, AsleepUntil, StillQueued, Refresh, AllWoken;
    hide NewState, Workable;
    StageGives(s, tasks, current, ms);
    Allowed(s, TickInterrupt);
    AfterKernel(s, TickInterrupt);
    KernelStepOwned(s, TickInterrupt);
    TickShows(s, tasks, current, ms);
    StillShown(After(s, KernelStep(TickInterrupt)).c.k, AllWoken(tasks), current, ms);
  }

  lemma TickShows(s: System, tasks: map<TaskId, Tcb>, current: TaskId, ms: map<MutexId, Mutex>)
    requires Stage(s, tasks, current, ms) && Steppable(s.c.k)
    requires forall t :: t in tasks && tasks[t].list == Delayed1 ==> AsleepUntil(s.c, t, s.c.now + 1)
    ensures ShowsRunning(NewState(s.c.k, TickInterrupt), AllWoken(tasks), current)
  {
    hide Stage, Good, GoodSystem, Steppable, NewState, Like, WokeExactly, WakesIn, AsleepUntil, Woken, Workable;
    hide Placed, FineTcbs;
    StageGives(s, tasks, current, ms);
    var r, tasks' := NewState(s.c.k, TickInterrupt), AllWoken(tasks);
    TickWakes(s.c);
    TickControl(s.c.k);
    forall t | t in tasks' ensures t in r.tcbs && Like(r.tcbs[t], tasks'[t]) {
      TickTask(s.c, r, t, tasks[t]);
    }
    assert r.tcbs.Keys == tasks'.Keys by { SameKeys(s.c, r); }
  }

  lemma TickWakes(c: Config)
    requires Good(c) && Steppable(c.k) && c.k.suspendCount == 0 && c.k.current in c.k.tcbs
    ensures WokeExactly(c.k, NewState(c.k, TickInterrupt), WakesIn(c.k, c.now, c.now + 1, c.due))
  {
    hide Good, Steppable, NewState, WokeExactly, WakesIn;
    TimeStepKeeps(c, TickInterrupt);
    var woken := WakesIn(c.k, c.now, c.now + 1, c.due);
    var extra: iset<TaskId> :| extra <= Runs.Freed(c.k, TickInterrupt) &&
                               WokeExactly(c.k, NewState(c.k, TickInterrupt), extra + woken);
    assert extra + woken == woken;
  }

  lemma SameKeys(c: Config, r: State)
    requires WokeExactly(c.k, r, WakesIn(c.k, c.now, c.now + 1, c.due))
    ensures r.tcbs.Keys == c.k.tcbs.Keys
  {
  }

  lemma TickTask(c: Config, r: State, t: TaskId, e: Tcb)
    requires WokeExactly(c.k, r, WakesIn(c.k, c.now, c.now + 1, c.due)) && t in c.k.tcbs && Like(c.k.tcbs[t], e)
    requires e.list == Delayed1 ==> AsleepUntil(c, t, c.now + 1)
    ensures t in r.tcbs && Like(r.tcbs[t], Woken(e))
  {
    assert t in r.tcbs.Keys;
  }

  lemma TickControl(k: State)
    requires Steppable(k) && k.suspendCount == 0
    ensures var r := NewState(k, TickInterrupt); r.current == k.current && r.idle == k.idle && r.suspendCount == 0
  {
    hide Placed, FineTcbs, PendingKnown, SomeReady, TickNow;
  }

  // ----- mutexes --------------------------------------------------------------------------

  lemma NewMutexStage(s: System, tasks: map<TaskId, Tcb>, current: TaskId, ms: map<MutexId, Mutex>, m: MutexId)
    requires Stage(s, tasks, current, ms) && m !in ms
    ensures Possible(s, NewMutex(m, false))
    ensures Stage(After(s, NewMutex(m, false)), tasks, current, ms[m := Mutex(NoHolder, 1, false, 0, [])])
  {
    hide Good, Owned, Steppable, Shows;
    StageGives(s, tasks, current, ms);
    MutexStepKeeps(s, NewMutex(m, false));
  }

  lemma TakeStage(s: System, tasks: map<TaskId, Tcb>, current: TaskId, ms: map<MutexId, Mutex>, m: MutexId)
    requires Stage(s, tasks, current, ms) && m in ms && ms[m] == Mutex(NoHolder, 1, false, 0, [])
    requires tasks[current].list.Ready?
    ensures Possible(s, TakeMutex(m))
    ensures var c := tasks[current];
            Stage(After(s, TakeMutex(m)), tasks[current := c.(mutexesHeld := c.mutexesHeld + 1)], current,
                  ms[m := Mutex(HeldBy(current), 0, false, 0, [])])
  {
    hide Good, Owned, Steppable, Placed, FineTcbs;
    StageGives(s, tasks, current, ms);
    assert Like(s.c.k.tcbs[current], tasks[current]);
    MutexStepKeeps(s, TakeMutex(m));
  }

  function Inheriting(c: Tcb, p: nat): Tcb
    requires p < MAX_PRIORITIES
  {
    if c.priority >= p then c
    else c.(priority := p, eventValue := EventValue(c, p), list := if c.list.Ready? then Ready(p) else c.list)
  }

  function Blocked(c: Tcb, ticks: nat): Tcb {
    c.(list := if ticks == MAX_DELAY then Suspended else Delayed1, event := OnEventList)
  }

  lemma InheritedTasks(s: System, m: MutexId, h: TaskId)
    requires GoodSystem(s) && m in s.mutexes && s.mutexes[m].holder == HeldBy(h)
    ensures Workable(s) && Placed(s.c.k) && FineTcbs(s.c.k.tcbs) && h in s.c.k.tcbs && s.c.k.current in s.c.k.tcbs
    ensures s.c.k.tcbs[s.c.k.current].priority < MAX_PRIORITIES
    ensures var k := s.c.k;
            Inherit(k, h).0.tcbs == k.tcbs[h := Inheriting(k.tcbs[h], k.tcbs[k.current].priority)]
  {
    hide Sound, Steppable, Placed, FineTcbs, Reprioritise, Owned;
    SystemGives(s);
    StateGives(s.c.k);
    HolderHolds(s, m, h);
    var k := s.c.k;
    TcbGives(k, h, s.c.now, s.c.due, s.c.now + 1);
    TcbGives(k, k.current, s.c.now, s.c.due, s.c.now + 1);
    var c, p := k.tcbs[h], k.tcbs[k.current].priority;
    if c.priority < p {
      ReprioritiseKeeps(k, h, c.(priority := p, eventValue := EventValue(c, p)), s.c.now, s.c.due, s.c.now + 1);
    }
  }

  /** What a wait for a mutex does to the tasks. */
  ghost predicate WaitSets(s: System, m: MutexId, ticks: nat, h: TaskId, holder: Tcb, waiter: Tcb)
    requires Possible(s, WaitMutex(m, ticks))
  {
    var k, r := s.c.k, Wait(s, m, ticks).c.k;
    && h in r.tcbs && k.current in r.tcbs && r.tcbs == k.tcbs[h := r.tcbs[h]][k.current := r.tcbs[k.current]]
    && Like(r.tcbs[h], holder) && Like(r.tcbs[k.current], waiter)
    && r.current == k.current && r.idle == k.idle && r.suspendCount == k.suspendCount
  }

  lemma WaitTasks(s: System, m: MutexId, ticks: nat, h: TaskId, holder: Tcb, waiter: Tcb)
    requires m in s.mutexes && s.mutexes[m].holder == HeldBy(h) && h != s.c.k.current
    requires GoodSystem(s) && Possible(s, WaitMutex(m, ticks))
    requires h in s.c.k.tcbs && s.c.k.current in s.c.k.tcbs && waiter.priority < MAX_PRIORITIES
    requires Like(s.c.k.tcbs[h], holder) && Like(s.c.k.tcbs[s.c.k.current], waiter)
    ensures WaitSets(s, m, ticks, h, Inheriting(holder, waiter.priority), Blocked(waiter, ticks))
  {
    hide Good, GoodSystem, Steppable, Placed, FineTcbs, Inherit, Block, Deadline, PendingKnown;
    var k := s.c.k;
    InheritedTasks(s, m, h);
    InheritLeavesCurrent(k, h);
    var i := Inherit(k, h).0;
    BlockedTask(i, ticks, true);
  }

  lemma JoinFirst(k: State, waiters: seq<TaskId>, t: TaskId, value: nat)
    requires forall u :: u in waiters ==> u in k.tcbs
    requires waiters == [] || (assert waiters[0] in waiters; value < k.tcbs[waiters[0]].eventValue)
    ensures Enqueue(k, waiters, t, value) == [t] + waiters
  {
    assert EventValues(k, waiters) == [] || EventValues(k, waiters)[0] > value by {
      if waiters != [] { assert waiters[0] in waiters; }
    }
  }

  lemma WaitQueues(s: System, m: MutexId, ticks: nat)
    requires m in s.mutexes && GoodSystem(s) && Possible(s, WaitMutex(m, ticks))
    requires s.mutexes[m].holder.HeldBy? && s.mutexes[m].holder.task !in s.mutexes[m].waiters
    requires forall u :: u in s.mutexes[m].waiters ==> u in s.c.k.tcbs
    requires var w := s.mutexes[m].waiters;
             s.c.k.current in s.c.k.tcbs &&
             (w == [] || (assert w[0] in w; s.c.k.tcbs[s.c.k.current].eventValue < s.c.k.tcbs[w[0]].eventValue))
    ensures var w := s.mutexes[m].waiters;
            Wait(s, m, ticks).mutexes == s.mutexes[m := s.mutexes[m].(waiters := [s.c.k.current] + w)]
  {
    hide Good, GoodSystem, Steppable, Placed, FineTcbs, Inherit, PlaceOnEventList, Deadline, PendingKnown, Enqueue;
    var k, mx := s.c.k, s.mutexes[m];
    InheritedTasks(s, m, mx.holder.task);
    InheritLeavesCurrent(k, mx.holder.task);
    var i := Inherit(k, mx.holder.task).0;
    assert forall u :: u in mx.waiters ==> u in i.tcbs && i.tcbs[u] == k.tcbs[u];
    if mx.waiters != [] { assert mx.waiters[0] in mx.waiters; }
    JoinFirst(i, mx.waiters, k.current, i.tcbs[k.current].eventValue);
  }

  /** The running task may wait for the mutex that h holds, at the head of its queue. */
  ghost predicate CanJoin(tasks: map<TaskId, Tcb>, current: TaskId, ms: map<MutexId, Mutex>, m: MutexId, h: TaskId) {
    && current in tasks && current != 0 && h in tasks && h != current
    && m in ms && ms[m].holder == HeldBy(h) && ms[m].count == 0 && h !in ms[m].waiters
    && tasks[current].list.Ready? && tasks[current].event == Nowhere && tasks[current].notify != Kernel.Waiting
    && tasks[current].eventValue < IN_USE && tasks[current].priority < MAX_PRIORITIES
    && (ms[m].waiters != [] ==>
          ms[m].waiters[0] in tasks && tasks[current].eventValue < tasks[ms[m].waiters[0]].eventValue)
  }

  function Joined(tasks: map<TaskId, Tcb>, current: TaskId, h: TaskId, ticks: nat): map<TaskId, Tcb> {
    if current in tasks && h in tasks && tasks[current].priority < MAX_PRIORITIES then
      tasks[h := Inheriting(tasks[h], tasks[current].priority)][current := Blocked(tasks[current], ticks)]
    else tasks
  }

  function JoinedAt(ms: map<MutexId, Mutex>, m: MutexId, t: TaskId): map<MutexId, Mutex> {
    if m in ms then ms[m := ms[m].(waiters := [t] + ms[m].waiters)] else ms
  }

  lemma JoinPossible(s: System, tasks: map<TaskId, Tcb>, current: TaskId, ms: map<MutexId, Mutex>, m: MutexId,
                     h: TaskId, ticks: nat)
    requires Stage(s, tasks, current, ms) && CanJoin(tasks, current, ms, m, h) && 0 < ticks <= MAX_DELAY
    ensures Possible(s, WaitMutex(m, ticks)) && h in s.c.k.tcbs && s.c.k.current == current
    ensures Like(s.c.k.tcbs[h], tasks[h]) && Like(s.c.k.tcbs[current], tasks[current])
  {
    hide Good, GoodSystem, Steppable, ShowsRunning;
    StageGives(s, tasks, current, ms);
    Shown(s.c.k, tasks, current, h);
  }

  lemma WaitStage(s: System, tasks: map<TaskId, Tcb>, current: TaskId, ms: map<MutexId, Mutex>, m: MutexId,
                  h: TaskId, ticks: nat)
    requires Stage(s, tasks, current, ms) && CanJoin(tasks, current, ms, m, h) && 0 < ticks <= MAX_DELAY
    ensures Possible(s, WaitMutex(m, ticks))
    ensures Stage(After(s, WaitMutex(m, ticks)), Joined(tasks, current, h, ticks), current, JoinedAt(ms, m, current))
    ensures ticks < MAX_DELAY ==> AsleepUntil(After(s, WaitMutex(m, ticks)).c, current, s.c.now + ticks)
  {
    hide ShowsRunning, Good, GoodSystem, Steppable, Wait, WaitSets, Possible, Like, AsleepUntil, Workable;
    hide Inheriting, Blocked, Joined;
    StageGives(s, tasks, current, ms);
    JoinPossible(s, tasks, current, ms, m, h, ticks);
    MutexStepKeeps(s, WaitMutex(m, ticks));
    WaitTasks(s, m, ticks, h, tasks[h], tasks[current]);
    JoinsFirst(s, tasks, current, ms, m, h);
    WaitQueues(s, m, ticks);
    WaitShows(s, tasks, current, m, ticks, h);
    if ticks < MAX_DELAY {
      MutexWaitSleeps(s, m, ticks);
    }
  }

  lemma JoinsFirst(s: System, tasks: map<TaskId, Tcb>, current: TaskId, ms: map<MutexId, Mutex>, m: MutexId, h: TaskId)
    requires Stage(s, tasks, current, ms) && CanJoin(tasks, current, ms, m, h)
    ensures (forall u :: u in ms[m].waiters ==> u in s.c.k.tcbs) && current in s.c.k.tcbs
    ensures var w := ms[m].waiters;
            w == [] || (assert w[0] in w; s.c.k.tcbs[current].eventValue < s.c.k.tcbs[w[0]].eventValue)
  {
    hide Good, Steppable, AllExclusive, HeldCounts, NoDuplicates;
    assert Queued(s.c.k, ms[m]);
    assert Like(s.c.k.tcbs[current], tasks[current]);
    if ms[m].waiters != [] {
      assert Like(s.c.k.tcbs[ms[m].waiters[0]], tasks[ms[m].waiters[0]]);
    }
  }

  ghost predicate JoinSets(s: System, tasks: map<TaskId, Tcb>, current: TaskId, m: MutexId, ticks: nat, h: TaskId)
    requires Possible(s, WaitMutex(m, ticks)) && current in tasks && h in tasks
  {
    && tasks[current].priority < MAX_PRIORITIES
    && WaitSets(s, m, ticks, h, Inheriting(tasks[h], tasks[current].priority), Blocked(tasks[current], ticks))
  }

  lemma WaitShows(s: System, tasks: map<TaskId, Tcb>, current: TaskId, m: MutexId, ticks: nat, h: TaskId)
    requires Possible(s, WaitMutex(m, ticks)) && current in tasks && h in tasks && h != current
    requires ShowsRunning(s.c.k, tasks, current)
    requires JoinSets(s, tasks, current, m, ticks, h)
    ensures ShowsRunning(Wait(s, m, ticks).c.k, Joined(tasks, current, h, ticks), current)
  {
    hide Possible, Wait, Inheriting, Blocked, Like;
  }

  // ----- walking along a run --------------------------------------------------------------

  /** The steps so far, the system that they lead to, what it shows, whether a
      switch was asked for, the time, and the tasks that sleep until the next tick. */
  datatype Walk = Walk(
    ops: seq<MutexOp>, s: System, tasks: map<TaskId, Tcb>, current: TaskId, ms: map<MutexId, Mutex>,
    asked: bool, now: nat, sleepers: set<TaskId>)

  ghost predicate At(w: Walk) {
    && IsMutexRun(First(), w.ops) && Outcome(First(), w.ops) == w.s && LastAsked(First(), w.ops, false) == w.asked
    && Stage(w.s, w.tasks, w.current, w.ms) && Asleep(w)
  }

  ghost predicate Asleep(w: Walk) {
    w.s.c.now == w.now && forall t :: t in w.sleepers ==> AsleepUntil(w.s.c, t, w.now + 1)
  }

  lemma {:induction false} RunAppend(s: System, ops: seq<MutexOp>, op: MutexOp, asked: bool)
    requires IsMutexRun(s, ops) && Possible(Outcome(s, ops), op)
    ensures IsMutexRun(s, ops + [op]) && Outcome(s, ops + [op]) == After(Outcome(s, ops), op)
    ensures LastAsked(s, ops + [op], asked) == MutexAsked(Outcome(s, ops), op, LastAsked(s, ops, asked))
    decreases |ops|
  {
    hide Possible, After, MutexAsked;
    if ops != [] {
      RunAppend(After(s, ops[0]), ops[1..], op, MutexAsked(s, ops[0], asked));
      assert (ops + [op])[1..] == ops[1..] + [op];
    }
  }

  lemma AtGives(w: Walk)
    requires At(w)
    ensures Stage(w.s, w.tasks, w.current, w.ms) && w.current in w.tasks && w.s.c.now == w.now
  {
    hide IsMutexRun, Outcome, LastAsked, GoodSystem;
  }

  lemma SleepersWake(w: Walk)
    requires At(w)
    ensures w.s.c.now == w.now && forall t :: t in w.sleepers ==> AsleepUntil(w.s.c, t, w.now + 1)
  {
    hide IsMutexRun, Outcome, LastAsked, Stage;
  }

  lemma AtEnds(w: Walk)
    requires At(w)
    ensures IsMutexRun(First(), w.ops) && Outcome(First(), w.ops) == w.s && LastAsked(First(), w.ops, false) == w.asked
  {
    hide Stage;
  }

  lemma StageIsGood(w: Walk)
    requires At(w)
    ensures GoodSystem(w.s)
  {
    hide IsMutexRun, Outcome, LastAsked, GoodSystem, ShowsRunning;
  }

  /** A step that moves none of the sleeping tasks. */
  ghost predicate Quietly(w: Walk, op: MutexOp)
    requires Possible(w.s, op)
  {
    forall t :: t in w.sleepers ==> t in w.s.c.k.tcbs && !Disturbing(w.s, op, t)
  }

  lemma StaysAsleep(w: Walk, op: MutexOp)
    requires At(w) && Possible(w.s, op) && Quietly(w, op)
    requires op.KernelStep? ==> !TakesTime(op.op)
    ensures var c := After(w.s, op).c; c.now == w.now && forall t :: t in w.sleepers ==> AsleepUntil(c, t, w.now + 1)
  {
    hide At, GoodSystem, Possible, After, AsleepUntil, Disturbing, Stage;
    StageIsGood(w);
    SleepersWake(w);
    forall t | t in w.sleepers ensures AsleepUntil(After(w.s, op).c, t, w.now + 1) {
      MutexSleepStep(w.s, op, t, w.now + 1);
    }
    NoTime(w.s, op);
  }

  lemma NoTime(s: System, op: MutexOp)
    requires Possible(s, op) && (op.KernelStep? ==> !TakesTime(op.op))
    ensures After(s, op).c.now == s.c.now
  {
    hide Steppable, Take, Give, Expire, NewState, Wait;
    if !op.KernelStep? {
      TimeUnmoved(s, op, s.c.k.current + 1);
    }
  }

  /** One step further along the run. */
  lemma Extend(w: Walk, op: MutexOp, w': Walk)
    requires At(w) && Possible(w.s, op) && (op.KernelStep? ==> !TakesTime(op.op))
    requires w'.ops == w.ops + [op] && w'.s == After(w.s, op) && w'.asked == MutexAsked(w.s, op, w.asked)
    requires Stage(w'.s, w'.tasks, w'.current, w'.ms) && w'.now == w.now
    requires Quietly(w, op) && forall t :: t in w'.sleepers && t !in w.sleepers ==> AsleepUntil(w'.s.c, t, w.now + 1)
    ensures At(w')
  {
    hide GoodSystem, Possible, After, Stage, MutexAsked, Quietly, IsMutexRun, Outcome, LastAsked, Asleep;
    RunAppend(First(), w.ops, op, false);
    AsleepNext(w, op, w');
  }

  lemma AsleepNext(w: Walk, op: MutexOp, w': Walk)
    requires At(w) && Possible(w.s, op) && (op.KernelStep? ==> !TakesTime(op.op)) && Quietly(w, op)
    requires w'.s == After(w.s, op) && w'.now == w.now
    requires forall t :: t in w'.sleepers && t !in w.sleepers ==> AsleepUntil(w'.s.c, t, w.now + 1)
    ensures Asleep(w')
  {
    hide At, Possible, After, AsleepUntil, Quietly;
    StaysAsleep(w, op);
  }

  ghost function Next(w: Walk, op: MutexOp, tasks: map<TaskId, Tcb>, current: TaskId, ms: map<MutexId, Mutex>): Walk
    requires Possible(w.s, op)
  {
    w.(ops := w.ops + [op], s := After(w.s, op), tasks := tasks, current := current, ms := ms,
       asked := MutexAsked(w.s, op, w.asked))
  }

  /** w' is one step further, and shows this. */
  ghost predicate Comes(w: Walk, op: MutexOp, w': Walk, tasks: map<TaskId, Tcb>, current: TaskId,
                        ms: map<MutexId, Mutex>) {
    w'.ops == w.ops + [op] && w'.tasks == tasks && w'.current == current && w'.ms == ms
  }

  /** A step that only concerns others. */
  ghost predicate OnlyOthers(w: Walk, op: MutexOp) {
    match op
    case NewMutex(_, _) => true
    case TakeMutex(_) => true
    case WaitMutex(_, _) => w.current !in w.sleepers
    case KernelStep(o) => o.Switch? || o.NewTask? || o.Prioritise? || (o.Delay? && w.current !in w.sleepers)
    case _ => false
  }

  lemma LeavesSleepers(w: Walk, op: MutexOp)
    requires At(w) && Possible(w.s, op) && OnlyOthers(w, op)
    ensures Quietly(w, op)
  {
    hide At, Possible, Disturbing, Stage, AsleepUntil;
    AtGives(w);
    SleepersWake(w);
    forall t | t in w.sleepers ensures t in w.s.c.k.tcbs && !Disturbing(w.s, op, t) {
      SleeperKnown(w.s.c, t);
      RunningIs(w);
      LeavesOne(w.s, op, t);
    }
  }

  lemma SleeperKnown(c: Config, t: TaskId)
    requires AsleepUntil(c, t, c.now + 1)
    ensures t in c.k.tcbs
  {
  }

  lemma RunningIs(w: Walk)
    requires Stage(w.s, w.tasks, w.current, w.ms)
    ensures w.s.c.k.current == w.current
  {
    hide GoodSystem, Shows;
  }

  lemma LeavesOne(s: System, op: MutexOp, t: TaskId)
    requires Possible(s, op) && t in s.c.k.tcbs
    requires match op
             case NewMutex(_, _) => true
             case TakeMutex(_) => true
             case WaitMutex(_, _) => t != s.c.k.current
             case KernelStep(o) => o.Switch? || o.NewTask? || o.Prioritise? || (o.Delay? && t != s.c.k.current)
             case _ => false
    ensures !Disturbing(s, op, t)
  {
    hide Possible;
  }

  lemma FirstStage()
    ensures Stage(First(), map[0 := NewTcb(0)], 0, map[]) && First().c.now == 0
  {
    hide GoodSystem, Population.Started;
    Population.StartsGoodSystem(0);
    Population.StartsEmpty(0);
  }

  lemma Begin() returns (w: Walk)
    ensures At(w) && w == Walk([], First(), map[0 := NewTcb(0)], 0, map[], false, 0, {})
  {
    hide Stage, First;
    w := Walk([], First(), map[0 := NewTcb(0)], 0, map[], false, 0, {});
    FirstStage();
  }

  lemma Create(w: Walk, t: TaskId, p: nat) returns (w': Walk)
    requires At(w) && t !in w.tasks && Waiting(w.tasks, w.ms)
    ensures At(w') && Comes(w, KernelStep(NewTask(t, p)), w', w.tasks[t := NewTcb(p)], w.current, w.ms)
    ensures w'.sleepers == w.sleepers
  {
    hide At, Asleep, MutexAsked, Stage, Possible, After, Waiting, Quietly;
    var op := KernelStep(NewTask(t, p));
    AtGives(w);
    CreateStage(w.s, w.tasks, w.current, w.ms, t, p);
    w' := Next(w, op, w.tasks[t := NewTcb(p)], w.current, w.ms);
    LeavesSleepers(w, op);
    Extend(w, op, w');
  }

  ghost predicate Highest(tasks: map<TaskId, Tcb>, next: TaskId) {
    && next in tasks && tasks[next].list.Ready?
    && forall t :: t in tasks && tasks[t].list.Ready? && t != next ==> tasks[t].priority < tasks[next].priority
  }

  lemma SwitchAnswers(s: System, asked: bool)
    requires Possible(s, KernelStep(Switch))
    ensures !MutexAsked(s, KernelStep(Switch), asked)
  {
    hide Possible, MutexAsks;
  }

  lemma SwitchTo(w: Walk, next: TaskId) returns (w': Walk)
    requires At(w) && Waiting(w.tasks, w.ms) && Highest(w.tasks, next)
    ensures At(w') && Comes(w, KernelStep(Switch), w', w.tasks, next, w.ms) && w'.sleepers == w.sleepers
    ensures !w'.asked && !w'.s.c.k.yieldPending
  {
    hide At, Asleep, MutexAsked, Stage, Possible, After, Waiting, Quietly;
    AtGives(w);
    SwitchStage(w.s, w.tasks, w.current, w.ms, next);
    SwitchAnswers(w.s, w.asked);
    w' := Next(w, KernelStep(Switch), w.tasks, next, w.ms);
    LeavesSleepers(w, KernelStep(Switch));
    Extend(w, KernelStep(Switch), w');
  }

  lemma Raise(w: Walk, t: TaskId, p: nat) returns (w': Walk)
    requires At(w) && Waiting(w.tasks, w.ms) && t in w.tasks && !w.tasks[t].list.Ready?
    ensures Possible(w.s, KernelStep(Prioritise(t, p))) && At(w')
    ensures Comes(w, KernelStep(Prioritise(t, p)), w', w.tasks[t := NewPriorities(w.tasks[t], p)], w.current, w.ms)
    ensures w'.s == After(w.s, KernelStep(Prioritise(t, p))) && w'.sleepers == w.sleepers
  {
    hide At, Asleep, MutexAsked, Stage, Possible, After, Waiting, Quietly, NewPriorities;
    var op := KernelStep(Prioritise(t, p));
    AtGives(w);
    PrioritiseStage(w.s, w.tasks, w.current, w.ms, t, p);
    w' := Next(w, op, w.tasks[t := NewPriorities(w.tasks[t], p)], w.current, w.ms);
    LeavesSleepers(w, op);
    Extend(w, op, w');
  }

  lemma NewAndTake(w: Walk) returns (w': Walk)
    requires At(w) && w.ms == map[] && w.current in w.tasks && w.tasks[w.current].list.Ready? && w.sleepers == {}
    requires w.tasks[w.current].mutexesHeld == 0
    ensures At(w') && w'.ops == w.ops + [NewMutex(0, false), TakeMutex(0)]
    ensures w'.tasks == w.tasks[w.current := w.tasks[w.current].(mutexesHeld := 1)] && w'.sleepers == {}
    ensures w'.current == w.current && w'.ms == map[0 := Mutex(HeldBy(w.current), 0, false, 0, [])]
  {
    hide At, Asleep, MutexAsked, Stage, Possible, After, Quietly;
    var c := w.tasks[w.current];
    AtGives(w);
    NewMutexStage(w.s, w.tasks, w.current, w.ms, 0);
    var made := Next(w, NewMutex(0, false), w.tasks, w.current, w.ms[0 := Mutex(NoHolder, 1, false, 0, [])]);
    LeavesSleepers(w, NewMutex(0, false));
    Extend(w, NewMutex(0, false), made);
    AtGives(made);
    TakeStage(made.s, made.tasks, made.current, made.ms, 0);
    w' := Next(made, TakeMutex(0), made.tasks[made.current := c.(mutexesHeld := 1)], made.current,
               made.ms[0 := Mutex(HeldBy(made.current), 0, false, 0, [])]);
    LeavesSleepers(made, TakeMutex(0));
    Extend(made, TakeMutex(0), w');
  }

  lemma DelayOne(w: Walk) returns (w': Walk)
    requires At(w) && Waiting(w.tasks, w.ms) && w.current != 0 && w.current !in w.sleepers
    requires w.current in w.tasks && w.tasks[w.current].list.Ready? && w.tasks[w.current].event == Nowhere
    ensures var op := KernelStep(Delay(1, false));
            && At(w') && Comes(w, op, w', w.tasks[w.current := w.tasks[w.current].(list := Delayed1)], w.current, w.ms)
            && w'.sleepers == w.sleepers + {w.current}
  {
    hide At, Asleep, MutexAsked, Stage, Possible, After, Waiting, Quietly, AsleepUntil;
    var op := KernelStep(Delay(1, false));
    AtGives(w);
    DelayStage(w.s, w.tasks, w.current, w.ms, 1);
    w' := Next(w, op, w.tasks[w.current := w.tasks[w.current].(list := Delayed1)], w.current, w.ms)
          .(sleepers := w.sleepers + {w.current});
    LeavesSleepers(w, op);
    Extend(w, op, w');
  }

  lemma WaitFor(w: Walk, h: TaskId, ticks: nat) returns (w': Walk)
    requires At(w) && CanJoin(w.tasks, w.current, w.ms, 0, h) && w.current !in w.sleepers
    requires ticks == 1 || ticks == MAX_DELAY
    ensures var op := WaitMutex(0, ticks);
            && At(w') && Comes(w, op, w', Joined(w.tasks, w.current, h, ticks), w.current, JoinedAt(w.ms, 0, w.current))
            && w'.sleepers == if ticks == 1 then w.sleepers + {w.current} else w.sleepers
  {
    hide At, Asleep, MutexAsked, Stage, Possible, After, Quietly, AsleepUntil, Joined, CanJoin, JoinedAt;
    var op := WaitMutex(0, ticks);
    AtGives(w);
    WaitStage(w.s, w.tasks, w.current, w.ms, 0, h, ticks);
    w' := Next(w, op, Joined(w.tasks, w.current, h, ticks), w.current, JoinedAt(w.ms, 0, w.current))
          .(sleepers := if ticks == 1 then w.sleepers + {w.current} else w.sleepers);
    LeavesSleepers(w, op);
    Extend(w, op, w');
  }

  /** A tick wakes all sleepers. */
  lemma Tick(w: Walk) returns (w': Walk)
    requires At(w) && forall t :: t in w.tasks && w.tasks[t].list == Delayed1 ==> t in w.sleepers
    ensures var op := KernelStep(TickInterrupt);
            && At(w') && Comes(w, op, w', AllWoken(w.tasks), w.current, StillQueued(AllWoken(w.tasks), w.ms))
            && w'.sleepers == {}
  {
    hide At, Asleep, MutexAsked, Stage, Possible, After, AllWoken, StillQueued, AsleepUntil;
    var op := KernelStep(TickInterrupt);
    AtGives(w);
    SleepersWake(w);
    TickStage(w.s, w.tasks, w.current, w.ms);
    w' := Next(w, op, AllWoken(w.tasks), w.current, StillQueued(AllWoken(w.tasks), w.ms))
          .(now := w.now + 1, sleepers := {});
    TickTakesOne(w);
    Arrive(w, op, w');
  }

  lemma TickTakesOne(w: Walk)
    requires At(w) && Possible(w.s, KernelStep(TickInterrupt))
    ensures After(w.s, KernelStep(TickInterrupt)).c.now == w.now + 1
  {
    hide GoodSystem, Shows, IsMutexRun, Outcome, LastAsked, NewState, Steppable;
  }

  lemma Arrive(w: Walk, op: MutexOp, w': Walk)
    requires At(w) && Possible(w.s, op) && w'.ops == w.ops + [op] && w'.s == After(w.s, op)
    requires w'.asked == MutexAsked(w.s, op, w.asked) && Stage(w'.s, w'.tasks, w'.current, w'.ms)
    requires w'.sleepers == {} && w'.s.c.now == w'.now
    ensures At(w')
  {
    hide GoodSystem, Possible, After, Stage, MutexAsked, IsMutexRun, Outcome, LastAsked;
    RunAppend(First(), w.ops, op, false);
  }

  // ----- a task takes a mutex ---------------------------------------------------------------

  function TakeRun(): seq<MutexOp> {
    [KernelStep(NewTask(1, 1)), KernelStep(Switch), NewMutex(0, false), TakeMutex(0)]
  }

  function Holder(): Tcb {
    NewTcb(1).(mutexesHeld := 1)
  }

  function Held(waiters: seq<TaskId>): map<MutexId, Mutex> {
    map[0 := Mutex(HeldBy(1), 0, false, 0, waiters)]
  }

  lemma HeldGrows(t: TaskId, waiters: seq<TaskId>, grown: seq<TaskId>)
    requires grown == [t] + waiters
    ensures JoinedAt(Held(waiters), 0, t) == Held(grown)
  {
  }

  /** A new task t may wait for the mutex that task 1 holds, ahead of lower ones. */
  lemma JoinsHolder(tasks: map<TaskId, Tcb>, holder: Tcb, c: Tcb, t: TaskId, waiters: seq<TaskId>, ticks: nat)
    requires 1 in tasks && tasks[1] == holder && t in tasks && tasks[t] == c && t > 1 && 1 !in waiters
    requires c.list.Ready? && c.event == Nowhere && c.notify == NotWaiting && c.eventValue < IN_USE
    requires c.priority < MAX_PRIORITIES
    requires waiters != [] ==> waiters[0] in tasks && c.eventValue < tasks[waiters[0]].eventValue
    ensures CanJoin(tasks, t, Held(waiters), 0, 1)
    ensures Joined(tasks, t, 1, ticks) == tasks[1 := Inheriting(holder, c.priority)][t := Blocked(c, ticks)]
  {
    hide Inheriting, Blocked;
  }

  lemma FirstLeft(tasks: map<TaskId, Tcb>)
    requires 2 in tasks && tasks[2].event == Nowhere && 3 in tasks && tasks[3].event == OnEventList
    ensures StillQueued(tasks, Held([2, 3])) == Held([3])
  {
    assert [2, 3][1..] == [3] && [3][1..] == [];
    assert StillIn(tasks, [3]) == [3];
    assert StillIn(tasks, [2, 3]) == [3];
  }

  lemma Taken() returns (w: Walk)
    ensures At(w) && w.ops == TakeRun() && w.tasks == map[0 := NewTcb(0), 1 := Holder()]
    ensures w.current == 1 && w.ms == Held([]) && w.sleepers == {}
  {
    hide At, Possible, After, MutexAsked, First;
    var w0 := Begin();
    var w1 := Create(w0, 1, 1);
    assert w1.tasks == map[0 := NewTcb(0), 1 := NewTcb(1)];
    var w2 := SwitchTo(w1, 1);
    w := NewAndTake(w2);
  }

  /** Nothing keeps a task from being deleted while it holds a mutex, and then
      the mutex names a task that has gone. */
  lemma HolderDeleted()
    ensures var run := TakeRun() + [KernelStep(DeleteTask(1))];
            && GoodSystem(First()) && IsMutexRun(First(), run)
            && !GoodSystem(Outcome(First(), run))
  {
    hide GoodSystem, Possible, After, At, DeletesHolder;
    Population.StartsGoodSystem(0);
    var w := Taken();
    StageIsGood(w);
    AtGives(w);
    Deletable(w.s, w.tasks, w.ms);
    KernelStepOwned(w.s, DeleteTask(1));
    AtEnds(w);
    RunAppend(First(), w.ops, KernelStep(DeleteTask(1)), false);
  }

  lemma Deletable(s: System, tasks: map<TaskId, Tcb>, ms: map<MutexId, Mutex>)
    requires Stage(s, tasks, 1, ms) && tasks == map[0 := NewTcb(0), 1 := Holder()]
    ensures Possible(s, KernelStep(DeleteTask(1))) && DeletesHolder(s.c.k, DeleteTask(1))
  {
    hide Stage, ShowsRunning, Good, GoodSystem, Steppable, Workable, Possible;
    StageGives(s, tasks, 1, ms);
    Shown(s.c.k, tasks, 1, 1);
    Allowed(s, DeleteTask(1));
  }

  // ----- a give that misses a switch -----------------------------------------------------

  function GiveSetUp(): seq<MutexOp> {
    [KernelStep(NewTask(3, 3)), KernelStep(Switch), WaitMutex(0, MAX_DELAY), KernelStep(Switch),
     KernelStep(Prioritise(3, 1)), KernelStep(NewTask(2, 2)), KernelStep(Switch)]
  }

  /** The holder inherited 3, its waiter was lowered to 1, and a task of priority 2 is ready. */
  function GiveTasks(): map<TaskId, Tcb> {
    map[0 := NewTcb(0), 1 := Inheriting(Holder(), 3), 2 := NewTcb(2),
        3 := NewPriorities(Blocked(NewTcb(3), MAX_DELAY), 1)]
  }

  lemma HighWaits() returns (w: Walk)
    ensures At(w) && w.ops == TakeRun() + GiveSetUp()[..4] && w.current == 1 && w.ms == Held([3]) && w.sleepers == {}
    ensures w.tasks == map[0 := NewTcb(0), 1 := Inheriting(Holder(), 3), 3 := Blocked(NewTcb(3), MAX_DELAY)]
  {
    hide At, Possible, After, MutexAsked, First, Joined, CanJoin, JoinedAt;
    var w0 := Taken();
    var w1 := Create(w0, 3, 3);
    var w2 := SwitchTo(w1, 3);
    JoinsHolder(w2.tasks, Holder(), NewTcb(3), 3, [], MAX_DELAY);
    var w3 := WaitFor(w2, 1, MAX_DELAY);
    HeldGrows(3, [], [3]);
    w := SwitchTo(w3, 1);
  }

  lemma GiveIsNear() returns (w: Walk)
    ensures At(w) && w.ops == TakeRun() + GiveSetUp() && w.tasks == GiveTasks() && w.current == 1 && w.ms == Held([3])
    ensures !w.asked && !w.s.c.k.yieldPending
  {
    hide At, Possible, After, MutexAsked, First;
    var w0 := HighWaits();
    var w1 := Raise(w0, 3, 1);
    var w2 := Create(w1, 2, 2);
    assert w2.tasks == GiveTasks();
    w := SwitchTo(w2, 1);
  }

  lemma Tops(k: State, tasks: map<TaskId, Tcb>, current: TaskId)
    requires ShowsRunning(k, tasks, current) && Highest(tasks, current)
    ensures Dominates(k)
  {
  }

  /** A task of base priority 1 runs at 3 for a waiter that is lowered to 1 while it
      waits. When it gives the mutex it falls to 1 beside a ready task of
      priority 2, and no switch is asked for or pending. */
  lemma GiveExample()
    ensures var run := TakeRun() + GiveSetUp() + [GiveMutex(0)];
            && IsMutexRun(First(), run)
            && !Settled(Outcome(First(), run).c.k, LastAsked(First(), run, false))
  {
    hide GoodSystem, At, Possible, After, Dominates, Misses, MutexAsks, First, IsMutexRun, Outcome, LastAsked;
    var w := GiveIsNear();
    StageIsGood(w);
    AtGives(w);
    AtEnds(w);
    Tops(w.s.c.k, w.tasks, 1);
    GiveMisses(w.s);
    MutexStepSettles(w.s, GiveMutex(0), false);
    RunAppend(First(), w.ops, GiveMutex(0), false);
  }

  lemma GiveMisses(s: System)
    requires Stage(s, GiveTasks(), 1, Held([3]))
    ensures Possible(s, GiveMutex(0)) && Misses(s, GiveMutex(0))
  {
    hide Good, Steppable, Stage;
    StageGives(s, GiveTasks(), 1, Held([3]));
    Shown(s.c.k, GiveTasks(), 1, 2);
    Shown(s.c.k, GiveTasks(), 1, 3);
    assert s.c.k.tcbs[2].list.Ready? && s.c.k.tcbs[2].priority > s.c.k.tcbs[1].basePriority;
  }

  // ----- a timeout that misses a switch --------------------------------------------------

  function RaiseSetUp(): seq<MutexOp> {
    [KernelStep(Delay(1, false)), KernelStep(Switch), KernelStep(NewTask(3, 1)), KernelStep(Switch),
     WaitMutex(0, MAX_DELAY), KernelStep(Switch), KernelStep(NewTask(2, 2)), KernelStep(Switch),
     WaitMutex(0, 1), KernelStep(Switch)]
  }

  function ExpireSetUp(): seq<MutexOp> {
    [KernelStep(Prioritise(3, 4)), KernelStep(Prioritise(2, 3)), KernelStep(TickInterrupt), KernelStep(Switch)]
  }

  /** The holder sleeps with an inherited 2; two tasks of priorities 2 and 1 wait. */
  function RaiseTasks(): map<TaskId, Tcb> {
    map[0 := NewTcb(0), 1 := Inheriting(Holder().(list := Delayed1), 2), 2 := Blocked(NewTcb(2), 1),
        3 := Blocked(NewTcb(1), MAX_DELAY)]
  }

  lemma HolderSleeps() returns (w: Walk)
    ensures At(w) && w.ops == TakeRun() + RaiseSetUp()[..2] && w.current == 0
    ensures w.tasks == map[0 := NewTcb(0), 1 := Holder().(list := Delayed1)] && w.ms == Held([]) && w.sleepers == {1}
  {
    hide At, Possible, After, MutexAsked, First;
    var w0 := Taken();
    var w1 := DelayOne(w0);
    assert w1.tasks == map[0 := NewTcb(0), 1 := Holder().(list := Delayed1)];
    w := SwitchTo(w1, 0);
  }

  lemma LowTaskRuns()
    ensures var tasks := map[0 := NewTcb(0), 1 := Holder().(list := Delayed1)];
            var low, waits := tasks[3 := NewTcb(1)], tasks[3 := Blocked(NewTcb(1), MAX_DELAY)];
            && Waiting(tasks, Held([])) && Waiting(low, Held([])) && Highest(low, 3)
            && Waiting(waits, Held([3])) && Highest(waits, 0)
            && low[1 := Inheriting(Holder().(list := Delayed1), 1)][3 := Blocked(NewTcb(1), MAX_DELAY)] == waits
  {
  }

  lemma OneWaits() returns (w: Walk)
    ensures At(w) && w.ops == TakeRun() + RaiseSetUp()[..6] && w.current == 0
    ensures w.tasks == map[0 := NewTcb(0), 1 := Holder().(list := Delayed1), 3 := Blocked(NewTcb(1), MAX_DELAY)]
    ensures w.ms == Held([3]) && w.sleepers == {1}
  {
    hide At, Possible, After, MutexAsked, First, Joined, CanJoin, JoinedAt, Highest, Waiting;
    var w0 := HolderSleeps();
    LowTaskRuns();
    var w1 := Create(w0, 3, 1);
    var w2 := SwitchTo(w1, 3);
    JoinsHolder(w2.tasks, Holder().(list := Delayed1), NewTcb(1), 3, [], MAX_DELAY);
    var w3 := WaitFor(w2, 1, MAX_DELAY);
    HeldGrows(3, [], [3]);
    w := SwitchTo(w3, 0);
  }

  lemma RaiseTasksAre(tasks: map<TaskId, Tcb>)
    requires tasks == map[0 := NewTcb(0), 1 := Holder().(list := Delayed1), 3 := Blocked(NewTcb(1), MAX_DELAY)]
    ensures tasks[2 := NewTcb(2)][1 := Inheriting(Holder().(list := Delayed1), 2)][2 := Blocked(NewTcb(2), 1)]
            == RaiseTasks()
    ensures Waiting(RaiseTasks(), Held([2, 3])) && Highest(RaiseTasks(), 0)
  {
  }

  lemma RaiseIsNear() returns (w: Walk)
    ensures At(w) && w.ops == TakeRun() + RaiseSetUp() && w.tasks == RaiseTasks() && w.current == 0
    ensures w.ms == Held([2, 3]) && w.sleepers == {1, 2}
  {
    hide At, Possible, After, MutexAsked, First, Joined, CanJoin, JoinedAt, RaiseTasks;
    var w0 := OneWaits();
    var w1 := Create(w0, 2, 2);
    var w2 := SwitchTo(w1, 2);
    JoinsHolder(w2.tasks, Holder().(list := Delayed1), NewTcb(2), 2, [3], 1);
    var w3 := WaitFor(w2, 1, 1);
    HeldGrows(2, [3], [2, 3]);
    RaiseTasksAre(w0.tasks);
    w := SwitchTo(w3, 0);
  }

  function ExpireTasks(): map<TaskId, Tcb> {
    map[0 := NewTcb(0), 1 := Inheriting(Holder(), 2), 2 := NewPriorities(NewTcb(2), 3).(list := Ready(3)),
        3 := NewPriorities(Blocked(NewTcb(1), MAX_DELAY), 4)]
  }

  lemma BothRaised() returns (w: Walk)
    ensures At(w) && w.ops == TakeRun() + RaiseSetUp() + ExpireSetUp()[..2] && w.current == 0 && w.ms == Held([2, 3])
    ensures w.tasks == RaiseTasks()[3 := NewPriorities(RaiseTasks()[3], 4)][2 := NewPriorities(RaiseTasks()[2], 3)]
    ensures w.sleepers == {1, 2}
  {
    hide At, Possible, After, MutexAsked, First, NewPriorities;
    var w0 := RaiseIsNear();
    var w1 := Raise(w0, 3, 4);
    NewPrioritiesKeep(RaiseTasks()[3], 4);
    w := Raise(w1, 2, 3);
  }

  lemma ExpireIsNear() returns (w: Walk)
    ensures At(w) && w.ops == TakeRun() + RaiseSetUp() + ExpireSetUp() && w.tasks == ExpireTasks() && w.current == 2
    ensures w.ms == Held([3]) && !w.asked && !w.s.c.k.yieldPending
  {
    hide At, Possible, After, MutexAsked, First;
    var w0 := BothRaised();
    var w1 := Tick(w0);
    assert w1.tasks == ExpireTasks();
    FirstLeft(w1.tasks);
    w := SwitchTo(w1, 2);
  }

  /** Two tasks wait for a mutex, and the later one in the queue is raised to 4
      while it waits. When the other one times out, the holder gets priority 4
      beside it, and no switch is asked for or pending. */
  lemma ExpireExample()
    ensures var run := TakeRun() + RaiseSetUp() + ExpireSetUp() + [ExpireMutex(0, true)];
            && IsMutexRun(First(), run)
            && !Settled(Outcome(First(), run).c.k, LastAsked(First(), run, false))
  {
    hide GoodSystem, At, Possible, After, Dominates, Misses, MutexAsks, First, IsMutexRun, Outcome, LastAsked;
    var w := ExpireIsNear();
    StageIsGood(w);
    AtGives(w);
    AtEnds(w);
    Tops(w.s.c.k, w.tasks, 2);
    ExpireMisses(w.s);
    MutexStepSettles(w.s, ExpireMutex(0, true), false);
    RunAppend(First(), w.ops, ExpireMutex(0, true), false);
  }

  lemma ExpireMisses(s: System)
    requires Stage(s, ExpireTasks(), 2, Held([3]))
    ensures Possible(s, ExpireMutex(0, true)) && Misses(s, ExpireMutex(0, true))
  {
    hide Good, Steppable, Stage;
    StageGives(s, ExpireTasks(), 2, Held([3]));
    Shown(s.c.k, ExpireTasks(), 2, 1);
    Shown(s.c.k, ExpireTasks(), 2, 3);
  }

  // ----- a waiter that is raised ---------------------------------------------------------

  /** Raising a waiter lifts it above the holder, and out of its place in the queue. */
  lemma RaiseExample()
    ensures var run, op := TakeRun() + RaiseSetUp(), KernelStep(Prioritise(3, 4));
            && IsMutexRun(First(), run) && Possible(Outcome(First(), run), op)
            && var s, r := Outcome(First(), run), After(Outcome(First(), run), op);
               && Inheritance.Covered(s.c.k, s.mutexes) && !Inheritance.Covered(r.c.k, r.mutexes)
               && WaitOrder.Ordered(s.c.k, s.mutexes) && !WaitOrder.Ordered(r.c.k, r.mutexes)
  {
    hide GoodSystem, At, Possible, After, First, IsMutexRun, Outcome, LastAsked, MutexAsked;
    hide Inheritance.Covered, WaitOrder.Ordered;
    var w := RaiseIsNear();
    AtGives(w);
    AtEnds(w);
    Balanced(w.s);
    var w' := Raise(w, 3, 4);
    AtGives(w');
    Unbalanced(w'.s);
  }

  lemma Balanced(s: System)
    requires Stage(s, RaiseTasks(), 0, Held([2, 3]))
    ensures Inheritance.Covered(s.c.k, s.mutexes) && WaitOrder.Ordered(s.c.k, s.mutexes)
  {
    hide GoodSystem;
    Shown(s.c.k, RaiseTasks(), 0, 1);
    Shown(s.c.k, RaiseTasks(), 0, 2);
    Shown(s.c.k, RaiseTasks(), 0, 3);
  }

  lemma Unbalanced(s: System)
    requires Stage(s, RaiseTasks()[3 := NewPriorities(RaiseTasks()[3], 4)], 0, Held([2, 3]))
    ensures !Inheritance.Covered(s.c.k, s.mutexes) && !WaitOrder.Ordered(s.c.k, s.mutexes)
  {
    hide GoodSystem;
    var tasks := RaiseTasks()[3 := NewPriorities(RaiseTasks()[3], 4)];
    Shown(s.c.k, tasks, 0, 1);
    Shown(s.c.k, tasks, 0, 2);
    Shown(s.c.k, tasks, 0, 3);
    assert 3 in s.mutexes[0].waiters && !Inheritance.Above(s.c.k, 1, 3);
    assert WaitOrder.Values(s.c.k, s.mutexes[0].waiters)[0] > WaitOrder.Values(s.c.k, s.mutexes[0].waiters)[1];
  }
}
