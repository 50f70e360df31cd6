/** Mutexes and recursive mutexes (queue.c) with priority inheritance
    (tasks.c), interleaved with every other step of the scheduler. */
module Mutexes {
  import opened Lists
  import opened Kernel
  import opened Ticks
  import opened Suspension
  import opened Tasks
  import opened Lifecycle
  import opened Priorities
  import opened Runs
  import opened Evolution

  type MutexId = nat

  datatype Holder = NoHolder | HeldBy(task: TaskId)

  datatype Mutex = Mutex(
    holder: Holder,            // u.xSemaphore.xMutexHolder
    count: nat,                // uxMessagesWaiting
    recursive: bool,           // used through the recursive calls
    depth: nat,                // u.xSemaphore.uxRecursiveCallCount
    waiters: seq<TaskId>)      // xTasksWaitingToReceive

  datatype System = System(c: Config, mutexes: map<MutexId, Mutex>)

  // ----- invariant -------------------------------------------------------------------

  ghost function Held(ms: map<MutexId, Mutex>, t: TaskId): set<MutexId> {
    set m | m in ms && ms[m].holder == HeldBy(t)
  }

  /** A held mutex has count 0 and one live holder, a free one count 1. */
  ghost predicate Exclusive(k: State, m: Mutex) {
    match m.holder
    case NoHolder => m.count == 1 && m.depth == 0
    case HeldBy(t) =>
      && m.count == 0 && (m.recursive <==> m.depth > 0)
      && t in k.tcbs && k.tcbs[t].list != Termination
  }

  ghost predicate Queued(k: State, m: Mutex) {
    && NoDuplicates(m.waiters)
    && forall t :: t in m.waiters ==> t in k.tcbs && k.tcbs[t].event == OnEventList && k.tcbs[t].eventValue < IN_USE
  }

  ghost predicate AllExclusive(k: State, ms: map<MutexId, Mutex>) {
    forall m :: m in ms ==> Exclusive(k, ms[m])
  }

  ghost predicate AllQueued(k: State, ms: map<MutexId, Mutex>) {
    && (forall m :: m in ms ==> Queued(k, ms[m]))
    && (forall m, m', t :: m in ms && m' in ms && t in ms[m].waiters && t in ms[m'].waiters ==> m == m')
  }

  ghost predicate HeldCounts(k: State, ms: map<MutexId, Mutex>) {
    forall t :: t in k.tcbs ==> k.tcbs[t].mutexesHeld == |Held(ms, t)|
  }

  ghost predicate Owned(k: State, ms: map<MutexId, Mutex>) {
    AllExclusive(k, ms) && HeldCounts(k, ms) && AllQueued(k, ms)
  }

  ghost predicate GoodSystem(s: System) {
    Good(s.c) && Owned(s.c.k, s.mutexes)
  }

  // ----- operations ------------------------------------------------------------------

  /** The waiters whose event items are still on an event list. */
  function StillWaiting(k: State, waiters: seq<TaskId>): (r: seq<TaskId>)
    ensures forall t :: t in r <==> t in waiters && t in k.tcbs && k.tcbs[t].event == OnEventList
  {
    if waiters == [] then []
    else
      var rest := StillWaiting(k, waiters[1..]);
      if waiters[0] in k.tcbs && k.tcbs[waiters[0]].event == OnEventList then [waiters[0]] + rest else rest
  }

  function Refresh(k: State, ms: map<MutexId, Mutex>): map<MutexId, Mutex> {
    map m | m in ms :: ms[m].(waiters := StillWaiting(k, ms[m].waiters))
  }

  /** The critical section of xQueueSemaphoreTake that succeeds. */
  ghost function Acquire(s: System, m: MutexId): System
    requires Possible(s, TakeMutex(m)) && s.mutexes[m].count > 0
  {
    var mx := s.mutexes[m];
    System(s.c.(k := IncrementHeld(s.c.k)),
           s.mutexes[m := mx.(holder := HeldBy(s.c.k.current), count := mx.count - 1,
                              depth := if mx.recursive then mx.depth + 1 else mx.depth)])
  }

  /** xQueueSemaphoreTake or xQueueTakeMutexRecursive without waiting; the
      second result is pdPASS. */
  ghost function Take(s: System, m: MutexId): (System, bool)
    requires Possible(s, TakeMutex(m))
  {
    var mx := s.mutexes[m];
    if mx.recursive && mx.holder == HeldBy(s.c.k.current) then
      (s.(mutexes := s.mutexes[m := mx.(depth := mx.depth + 1)]), true)
    else if mx.count > 0 then (Acquire(s, m), true)
    else (s, false)
  }

  /** The running task gives a mutex that it holds. */
  ghost predicate Gives(s: System, m: MutexId) {
    Possible(s, GiveMutex(m)) && s.mutexes[m].holder == HeldBy(s.c.k.current)
  }

  /** Disinheritance, and the wake-up of the first waiter, in xQueueGenericSend. */
  ghost function Release(s: System, m: MutexId): System
    requires Gives(s, m)
  {
    hide Placed, FineTcbs, Disinherit, EventWake;
    var k, mx := s.c.k, s.mutexes[m];
    var d, free := Disinherit(k).0, mx.(holder := NoHolder, count := mx.count + 1, depth := 0);
    if mx.waiters == [] then System(s.c.(k := d), s.mutexes[m := free])
    else
      assert mx.waiters[0] in mx.waiters && k.current in d.tcbs.Keys && mx.waiters[0] in k.tcbs.Keys;
      System(s.c.(k := EventWake(d, mx.waiters[0])), s.mutexes[m := free.(waiters := mx.waiters[1..])])
  }

  /** What type safety needs of a state before an operation. */
  ghost predicate Workable(s: System) {
    && Steppable(s.c.k)
    && forall m, t :: m in s.mutexes && t in s.mutexes[m].waiters ==> t in s.c.k.tcbs
  }

  /** xQueueGenericSend on a mutex, or xQueueGiveMutexRecursive; the second
      result is pdPASS. */
  ghost function Give(s: System, m: MutexId): (System, bool)
    requires Possible(s, GiveMutex(m))
  {
    var mx := s.mutexes[m];
    if mx.holder != HeldBy(s.c.k.current) then (s, false)
    else if mx.recursive && mx.depth > 1 then (s.(mutexes := s.mutexes[m := mx.(depth := mx.depth - 1)]), true)
    else (Release(s, m), true)
  }

  /** The assertions of xTaskPriorityDisinherit: a held mutex is given by its
      running holder. A recursive give by another task just fails. */
  ghost predicate CanGive(s: System, m: MutexId)
    requires m in s.mutexes && Steppable(s.c.k)
  {
    var k, mx := s.c.k, s.mutexes[m];
    if mx.holder == HeldBy(k.current) then k.tcbs[k.current].list.Ready? && k.tcbs[k.current].mutexesHeld > 0
    else mx.holder == NoHolder || mx.recursive
  }

  /** vListInsert on xTasksWaitingToReceive */
  ghost function Enqueue(k: State, waiters: seq<TaskId>, t: TaskId, value: nat): seq<TaskId>
    requires forall u :: u in waiters ==> u in k.tcbs
  {
    InsertAt(ListV(waiters, 0), InsertPosition(EventValues(k, waiters), value), t).items
  }

  ghost function EventValues(k: State, waiters: seq<TaskId>): (r: seq<nat>)
    requires forall u :: u in waiters ==> u in k.tcbs
    ensures |r| == |waiters|
  {
    seq(|waiters|, i requires 0 <= i < |waiters| => assert waiters[i] in waiters; k.tcbs[waiters[i]].eventValue)
  }

  /** The running task finds the mutex taken and blocks: its holder inherits
      the priority, then the task joins the waiters. */
  ghost function Wait(s: System, m: MutexId, ticks: nat): System
    requires Possible(s, WaitMutex(m, ticks))
  {
    hide Placed, FineTcbs, Inherit, PlaceOnEventList;
    var k, mx := s.c.k, s.mutexes[m];
    var i := Inherit(k, mx.holder.task).0;
    assert i.tcbs.Keys == k.tcbs.Keys;
    assert i.current in i.tcbs.Keys && forall u :: u in mx.waiters ==> u in i.tcbs.Keys;
    var value := i.tcbs[i.current].eventValue;
    System(Config(PlaceOnEventList(i, value, ticks), s.c.now, Deadline(i, ticks, true, s.c.now, s.c.due)),
           s.mutexes[m := mx.(waiters := Enqueue(i, mx.waiters, k.current, value))])
  }

  ghost predicate CanWait(s: System, m: MutexId, ticks: nat)
    requires m in s.mutexes && Steppable(s.c.k)
  {
    var k, mx := s.c.k, s.mutexes[m];
    && mx.count == 0 && mx.holder.HeldBy? && mx.holder.task in k.tcbs
    && CanPlace(k, k.tcbs[k.current].eventValue, ticks) && k.tcbs[k.current].eventValue < IN_USE
  }

  /** prvGetHighestPriorityOfWaitToReceiveList */
  ghost function HighestWaiting(k: State, mx: Mutex): int
    requires forall t :: t in mx.waiters ==> t in k.tcbs
  {
    if mx.waiters == [] then 0
    else
      assert mx.waiters[0] in mx.waiters;
      MAX_PRIORITIES - k.tcbs[mx.waiters[0]].eventValue
  }

  /** The end of a wait that timed out; inherited is xInheritanceOccurred. The
      mutex may have been given meanwhile, and then there is no holder. */
  ghost function Expire(s: System, m: MutexId, inherited: bool): System
    requires Possible(s, ExpireMutex(m, inherited))
  {
    hide Placed, FineTcbs, DisinheritAfterTimeout;
    var k, mx := s.c.k, s.mutexes[m];
    if !inherited || mx.holder == NoHolder then s
    else s.(c := s.c.(k := DisinheritAfterTimeout(k, mx.holder.task, HighestWaiting(k, mx))))
  }

  /** The assertions of vTaskPriorityDisinheritAfterTimeout: the holder is a
      task, and is not the running one if its priority falls. */
  ghost predicate CanExpire(s: System, m: MutexId, inherited: bool)
    requires m in s.mutexes && Workable(s)
  {
    var k, mx := s.c.k, s.mutexes[m];
    inherited && mx.holder.HeldBy? ==>
      && mx.holder.task in k.tcbs && 0 <= HighestWaiting(k, mx) < MAX_PRIORITIES
      && (Falls(k.tcbs[mx.holder.task], HighestWaiting(k, mx)) ==> mx.holder.task != k.current)
  }

  datatype MutexOp =
    | KernelStep(op: Op)
    | NewMutex(m: MutexId, recursive: bool)
    | TakeMutex(m: MutexId)
    | GiveMutex(m: MutexId)
    | WaitMutex(m: MutexId, ticks: nat)
    | ExpireMutex(m: MutexId, inherited: bool)

  /** A step of the scheduler that leaves mutexes out: no waiter is woken but
      through its mutex or its timeout. */
  ghost predicate Independent(s: System, op: Op)
    requires Enabled(s.c.k, op)
  {
    op.Event? || op.UnorderedEvent? ==> forall m :: m in s.mutexes ==> op.task !in s.mutexes[m].waiters
  }

  /** vTaskDelete does not look at uxMutexesHeld. */
  ghost predicate DeletesHolder(k: State, op: Op) {
    op.DeleteTask? && op.task in k.tcbs && k.tcbs[op.task].mutexesHeld > 0
  }

  ghost predicate Possible(s: System, op: MutexOp) {
    Workable(s) &&
    match op
    case KernelStep(o) => Enabled(s.c.k, o) && Independent(s, o)
    case NewMutex(m, _) => m !in s.mutexes
    case TakeMutex(m) => m in s.mutexes && Live(s.c.k, s.c.k.current)
    case GiveMutex(m) => m in s.mutexes && CanGive(s, m)
    case WaitMutex(m, ticks) => m in s.mutexes && CanWait(s, m, ticks)
    case ExpireMutex(m, inherited) => m in s.mutexes && CanExpire(s, m, inherited)
  }

  ghost function After(s: System, op: MutexOp): System
    requires Possible(s, op)
  {
    match op
    case KernelStep(o) => var c := Step(s.c, o); System(c, Refresh(c.k, s.mutexes))
    case NewMutex(m, recursive) => s.(mutexes := s.mutexes[m := Mutex(NoHolder, 1, recursive, 0, [])])
    case TakeMutex(m) => Take(s, m).0
    case GiveMutex(m) => Give(s, m).0
    case WaitMutex(m, ticks) => Wait(s, m, ticks)
    case ExpireMutex(m, inherited) => Expire(s, m, inherited)
  }

  // ----- preservation ----------------------------------------------------------------

  lemma SystemGives(s: System)
    requires GoodSystem(s)
    ensures Workable(s) && Good(s.c) && Owned(s.c.k, s.mutexes)
    ensures Sound(s.c.k, s.c.now, s.c.due, s.c.now + 1) && Quiet(s.c.k)
  {
    hide Clocked, Steppable;
    InvGives(s.c.k, s.c.now, s.c.due);
  }

  lemma StillDistinct(k: State, waiters: seq<TaskId>)
    requires NoDuplicates(waiters)
    ensures NoDuplicates(StillWaiting(k, waiters))
  {
    if waiters != [] {
      StillDistinct(k, waiters[1..]);
    }
  }

  /** A holder outlives every other step of the scheduler, and keeps its count. */
  lemma HolderSurvives(s: System, op: Op, m: MutexId)
    requires GoodSystem(s) && Enabled(s.c.k, op) && !DeletesHolder(s.c.k, op) && m in s.mutexes
    requires Steppable(s.c.k)
    ensures Exclusive(NewState(s.c.k, op), s.mutexes[m])
  {
    hide Good, Steppable, NewState, AllQueued;
    StepEvolves(s.c, op);
    var k, mx := s.c.k, s.mutexes[m];
    assert Exclusive(k, mx);
    if mx.holder.HeldBy? {
      var t := mx.holder.task;
      assert m in Held(s.mutexes, t);
      assert k.tcbs[t].mutexesHeld > 0;
      assert TaskEvolves(k, NewState(k, op), op, t);
    }
  }

  lemma WaitersSurvive(s: System, op: Op, m: MutexId)
    requires GoodSystem(s) && Enabled(s.c.k, op) && Independent(s, op) && m in s.mutexes
    requires Steppable(s.c.k)
    ensures var r, mx := NewState(s.c.k, op), s.mutexes[m];
            Queued(r, mx.(waiters := StillWaiting(r, mx.waiters)))
  {
    hide Good, Steppable, NewState, AllExclusive, HeldCounts;
    StepEvolves(s.c, op);
    var k, mx, r := s.c.k, s.mutexes[m], NewState(s.c.k, op);
    assert Queued(k, mx);
    StillDistinct(r, mx.waiters);
    forall t | t in StillWaiting(r, mx.waiters) ensures r.tcbs[t].eventValue < IN_USE {
      assert TaskEvolves(k, r, op, t);
    }
  }

  lemma HeldRefreshed(k: State, ms: map<MutexId, Mutex>, t: TaskId)
    ensures Held(Refresh(k, ms), t) == Held(ms, t)
  {
  }

  lemma CountsSurvive(s: System, op: Op)
    requires GoodSystem(s) && Enabled(s.c.k, op)
    requires Steppable(s.c.k)
    ensures HeldCounts(NewState(s.c.k, op), Refresh(NewState(s.c.k, op), s.mutexes))
  {
    hide Good, Steppable, NewState, AllQueued, Held, Refresh;
    StepEvolves(s.c, op);
    var k, r := s.c.k, NewState(s.c.k, op);
    forall t | t in r.tcbs ensures r.tcbs[t].mutexesHeld == |Held(Refresh(r, s.mutexes), t)| {
      HeldRefreshed(r, s.mutexes, t);
      if t in k.tcbs {
        assert TaskEvolves(k, r, op, t);
      } else {
        NothingHeld(k, s.mutexes, t);
      }
    }
  }

  lemma NothingHeld(k: State, ms: map<MutexId, Mutex>, t: TaskId)
    requires AllExclusive(k, ms) && t !in k.tcbs
    ensures Held(ms, t) == {}
  {
    forall m | m in ms ensures ms[m].holder != HeldBy(t) {
      assert Exclusive(k, ms[m]);
    }
  }

  lemma OtherStepOwned(s: System, op: Op)
    requires GoodSystem(s) && Possible(s, KernelStep(op)) && !DeletesHolder(s.c.k, op)
    ensures GoodSystem(After(s, KernelStep(op)))
  {
    hide Good, Steppable, NewState, Exclusive, Queued, HeldCounts;
    StepKeeps(s.c, op);
    var r := NewState(s.c.k, op);
    CountsSurvive(s, op);
    forall m | m in s.mutexes
      ensures Exclusive(r, Refresh(r, s.mutexes)[m]) && Queued(r, Refresh(r, s.mutexes)[m])
    {
      HolderSurvives(s, op, m);
      WaitersSurvive(s, op, m);
      SameOwner(r, s.mutexes[m], Refresh(r, s.mutexes)[m].waiters);
    }
  }

  /** The mutex of a deleted holder names a task that has gone. */
  lemma DeletionBreaks(s: System, t: TaskId)
    requires GoodSystem(s) && Possible(s, KernelStep(DeleteTask(t))) && DeletesHolder(s.c.k, DeleteTask(t))
    ensures !AllExclusive(After(s, KernelStep(DeleteTask(t))).c.k, After(s, KernelStep(DeleteTask(t))).mutexes)
  {
    hide Good, Placed, FineTcbs, PendingKnown, SomeReady, AllQueued, AllExclusive, Delete, StillWaiting;
    var k, r := s.c.k, After(s, KernelStep(DeleteTask(t)));
    DeleteIs(k, t);
    DeletedEnds(k, t);
    assert Held(s.mutexes, t) != {};
    var m :| m in Held(s.mutexes, t);
    assert r.mutexes[m].holder == HeldBy(t) && !Exclusive(r.c.k, r.mutexes[m]);
    NotAllExclusive(r.c.k, r.mutexes, m);
  }

  lemma NotAllExclusive(k: State, ms: map<MutexId, Mutex>, m: MutexId)
    requires m in ms && !Exclusive(k, ms[m])
    ensures !AllExclusive(k, ms)
  {
  }

  lemma DeletedEnds(k: State, t: TaskId)
    requires Placed(k) && PendingKnown(k) && t in k.tcbs
    ensures t in Delete(k, t).tcbs ==> Delete(k, t).tcbs[t].list == Termination
  {
    hide Placed, Remove, InsertAt, NoDuplicates, PendingKnown;
  }

  /** A step of the scheduler keeps the books of the mutexes exactly when it
      does not delete a task that holds one. */
  lemma KernelStepOwned(s: System, op: Op)
    requires GoodSystem(s) && Possible(s, KernelStep(op))
    ensures GoodSystem(After(s, KernelStep(op))) <==> !DeletesHolder(s.c.k, op)
  {
    hide Good, Steppable, Step, AllExclusive, HeldCounts, AllQueued, Refresh;
    if DeletesHolder(s.c.k, op) {
      DeletionBreaks(s, op.task);
    } else {
      OtherStepOwned(s, op);
    }
  }

  lemma SameOwner(k: State, mx: Mutex, waiters: seq<TaskId>)
    requires Exclusive(k, mx)
    ensures Exclusive(k, mx.(waiters := waiters))
  {
  }

  /** Every task keeps what mutexes need of it, except for its count. */
  ghost predicate Carries(k: State, r: State) {
    && r.tcbs.Keys == k.tcbs.Keys
    && forall t :: t in k.tcbs ==> SameLists(k.tcbs[t], r.tcbs[t])
  }

  lemma CarriesOwned(k: State, r: State, ms: map<MutexId, Mutex>)
    requires Carries(k, r) && AllExclusive(k, ms) && AllQueued(k, ms)
    ensures AllExclusive(r, ms) && AllQueued(r, ms)
  {
    hide NoDuplicates, SameLists;
    forall m | m in ms ensures Exclusive(r, ms[m]) && Queued(r, ms[m]) {
      assert Exclusive(k, ms[m]) && Queued(k, ms[m]);
      CarriesOne(k, r, ms[m]);
    }
  }

  lemma CarriesOne(k: State, r: State, mx: Mutex)
    requires Carries(k, r) && Exclusive(k, mx) && Queued(k, mx)
    ensures Exclusive(r, mx) && Queued(r, mx)
  {
    hide NoDuplicates;
    assert forall t :: t in k.tcbs ==> t in r.tcbs.Keys;
  }

  lemma SameCounts(k: State, r: State, ms: map<MutexId, Mutex>, ms': map<MutexId, Mutex>)
    requires HeldCounts(k, ms) && r.tcbs.Keys == k.tcbs.Keys
    requires forall t :: t in k.tcbs ==> r.tcbs[t].mutexesHeld == k.tcbs[t].mutexesHeld
    requires ms'.Keys == ms.Keys && forall m :: m in ms ==> ms'[m].holder == ms[m].holder
    ensures HeldCounts(r, ms')
  {
    forall t | t in r.tcbs ensures r.tcbs[t].mutexesHeld == |Held(ms', t)| {
      assert t in k.tcbs.Keys;
      assert Held(ms', t) == Held(ms, t);
    }
  }

  lemma HolderHolds(s: System, m: MutexId, t: TaskId)
    requires GoodSystem(s) && m in s.mutexes && s.mutexes[m].holder == HeldBy(t)
    ensures t in s.c.k.tcbs && s.c.k.tcbs[t].mutexesHeld > 0 && s.mutexes[m].count == 0
  {
    hide Good, Queued;
    assert Exclusive(s.c.k, s.mutexes[m]);
    assert m in Held(s.mutexes, t);
  }

  lemma AcquireOwned(s: System, m: MutexId)
    requires GoodSystem(s) && Possible(s, TakeMutex(m)) && s.mutexes[m].count > 0
    ensures GoodSystem(Acquire(s, m))
  {
    hide Sound, Steppable, Placed, Queued, AllQueued, HeldCounts, FineTcbs;
    SystemGives(s);
    StateGives(s.c.k);
    assert Exclusive(s.c.k, s.mutexes[m]);
    var k, r := s.c.k, IncrementHeld(s.c.k);
    TcbGives(k, k.current, s.c.now, s.c.due, s.c.now + 1);
    WithTcbKeeps(k, k.current, r.tcbs[k.current], s.c.now, s.c.due, s.c.now + 1);
    HoldOwned(k, r, s.mutexes, m, Acquire(s, m).mutexes[m]);
  }

  /** A free mutex gets the running task as its holder. */
  lemma HoldOwned(k: State, r: State, ms: map<MutexId, Mutex>, m: MutexId, mx: Mutex)
    requires Owned(k, ms) && m in ms && ms[m].holder == NoHolder && Carries(k, r) && Exclusive(r, mx)
    requires mx.holder.HeldBy? && mx.waiters == ms[m].waiters
    requires forall u :: u in k.tcbs ==>
               r.tcbs[u].mutexesHeld == k.tcbs[u].mutexesHeld + if u == mx.holder.task then 1 else 0
    ensures Owned(r, ms[m := mx])
  {
    hide Exclusive, AllQueued, SameLists, Queued;
    CarriesOwned(k, r, ms);
    RequeueOwned(r, ms, m, mx);
    forall u | u in r.tcbs ensures r.tcbs[u].mutexesHeld == |Held(ms[m := mx], u)| {
      assert u in k.tcbs.Keys;
      assert Held(ms[m := mx], u) == if u == mx.holder.task then Held(ms, u) + {m} else Held(ms, u);
    }
  }

  /** Replacing one mutex by one with the same waiters. */
  lemma RequeueOwned(k: State, ms: map<MutexId, Mutex>, m: MutexId, mx: Mutex)
    requires m in ms && AllQueued(k, ms) && AllExclusive(k, ms) && Exclusive(k, mx) && mx.waiters == ms[m].waiters
    ensures AllQueued(k, ms[m := mx]) && AllExclusive(k, ms[m := mx])
  {
    hide NoDuplicates, Exclusive;
    assert Queued(k, ms[m]);
  }

  /** A take succeeds exactly on a free mutex, or on a recursive one that the
      running task holds already. The running task is then the holder, and holds
      one mutex more if it was not; a take that fails changes nothing. */
  lemma TakeOwned(s: System, m: MutexId)
    requires GoodSystem(s) && Possible(s, TakeMutex(m))
    ensures GoodSystem(Take(s, m).0)
    ensures m in s.mutexes && s.c.k.current in s.c.k.tcbs
    ensures Take(s, m).1 <==>
            || s.mutexes[m].holder == NoHolder
            || (s.mutexes[m].recursive && s.mutexes[m].holder == HeldBy(s.c.k.current))
    ensures if Take(s, m).1 then Taken(s, Take(s, m).0, m) else Take(s, m).0 == s
  {
    hide Good, Steppable, Placed, Queued, AllQueued, Acquire, Taken;
    StateGives(s.c.k);
    var mx := s.mutexes[m];
    assert Exclusive(s.c.k, mx);
    if mx.recursive && mx.holder == HeldBy(s.c.k.current) {
      TakenAgain(s, m);
    } else if mx.count > 0 {
      AcquireOwned(s, m);
      AcquiredState(s, m);
    }
  }

  /** The running task is the holder of the mutex, and holds one mutex more if it
      was not its holder before. Nothing else differs. */
  ghost predicate Taken(s: System, r: System, m: MutexId) {
    && m in s.mutexes && s.c.k.current in s.c.k.tcbs
    && var k, mx, c := s.c.k, s.mutexes[m], s.c.k.tcbs[s.c.k.current];
       && r.mutexes == s.mutexes[m := Mutex(HeldBy(k.current), 0, mx.recursive,
                                            if mx.recursive then mx.depth + 1 else 0, mx.waiters)]
       && r.c == if mx.holder == HeldBy(k.current) then s.c
                 else s.c.(k := k.(tcbs := k.tcbs[k.current := c.(mutexesHeld := c.mutexesHeld + 1)]))
  }

  lemma TakenAgain(s: System, m: MutexId)
    requires GoodSystem(s) && Possible(s, TakeMutex(m))
    requires s.mutexes[m].recursive && s.mutexes[m].holder == HeldBy(s.c.k.current)
    ensures var r := s.(mutexes := s.mutexes[m := s.mutexes[m].(depth := s.mutexes[m].depth + 1)]);
            GoodSystem(r) && Taken(s, r, m)
  {
    hide Good, Steppable, Placed, Queued, AllQueued;
    var mx := s.mutexes[m];
    assert Exclusive(s.c.k, mx);
    RequeueOwned(s.c.k, s.mutexes, m, mx.(depth := mx.depth + 1));
    SameCounts(s.c.k, s.c.k, s.mutexes, s.mutexes[m := mx.(depth := mx.depth + 1)]);
  }

  lemma AcquiredState(s: System, m: MutexId)
    requires Possible(s, TakeMutex(m)) && s.mutexes[m].count > 0 && Exclusive(s.c.k, s.mutexes[m])
    ensures Taken(s, Acquire(s, m), m)
  {
    hide Steppable, Placed;
  }

  lemma NewMutexOwned(s: System, m: MutexId, recursive: bool)
    requires GoodSystem(s) && Possible(s, NewMutex(m, recursive))
    ensures GoodSystem(After(s, NewMutex(m, recursive)))
  {
    hide Good, Steppable, NoDuplicates, AllQueued, Exclusive, Queued;
    var mx := Mutex(NoHolder, 1, recursive, 0, []);
    var ms := s.mutexes[m := mx];
    FreeIsFine(s.c.k, recursive);
    NewQueued(s.c.k, s.mutexes, m, mx);
    forall t | t in s.c.k.tcbs ensures Held(ms, t) == Held(s.mutexes, t) {
    }
  }

  lemma NewQueued(k: State, ms: map<MutexId, Mutex>, m: MutexId, mx: Mutex)
    requires AllQueued(k, ms) && m !in ms && mx.waiters == []
    ensures AllQueued(k, ms[m := mx])
  {
  }

  lemma FreeIsFine(k: State, recursive: bool)
    ensures var mx := Mutex(NoHolder, 1, recursive, 0, []); Exclusive(k, mx) && Queued(k, mx)
  {
  }

  // ----- giving ----------------------------------------------------------------------

  lemma FreedOwned(k: State, d: State, ms: map<MutexId, Mutex>, m: MutexId, t: TaskId)
    requires Owned(k, ms) && m in ms && ms[m].holder == HeldBy(t) && Carries(k, d)
    requires forall u :: u in k.tcbs ==> d.tcbs[u].mutexesHeld == k.tcbs[u].mutexesHeld - if u == t then 1 else 0
    ensures Owned(d, ms[m := ms[m].(holder := NoHolder, count := 1, depth := 0)])
  {
    hide NoDuplicates, AllQueued;
    CarriesOwned(k, d, ms);
    var mx := ms[m].(holder := NoHolder, count := 1, depth := 0);
    RequeueOwned(d, ms, m, mx);
    forall u | u in d.tcbs ensures d.tcbs[u].mutexesHeld == |Held(ms[m := mx], u)| {
      assert u in k.tcbs.Keys;
      assert Held(ms[m := mx], u) == if u == t then Held(ms, u) - {m} else Held(ms, u);
      assert u == t ==> m in Held(ms, u);
    }
  }

  /** The mutex is free, and its holder has disinherited. */
  ghost function Relinquished(s: System, m: MutexId): System
    requires Gives(s, m)
  {
    hide Placed, FineTcbs, Disinherit;
    System(s.c.(k := Disinherit(s.c.k).0), s.mutexes[m := s.mutexes[m].(holder := NoHolder, count := 1, depth := 0)])
  }

  lemma DisinheritFrees(s: System, m: MutexId)
    requires GoodSystem(s) && Gives(s, m)
    ensures GoodSystem(Relinquished(s, m))
  {
    hide Sound, Steppable, Placed, FineTcbs, Disinherit, Queued, Exclusive, AllQueued, AllExclusive, HeldCounts;
    hide SameLists;
    SystemGives(s);
    var k, now, due := s.c.k, s.c.now, s.c.due;
    StateGives(k);
    var d := Disinherit(k).0;
    DisinheritKeeps(k, now, due, now + 1);
    forall u | u in k.tcbs ensures u in d.tcbs && SameLists(k.tcbs[u], d.tcbs[u]) {
      assert u in d.tcbs.Keys;
      SameListsRefl(k.tcbs[u]);
    }
    FreedOwned(k, d, s.mutexes, m, k.current);
  }

  lemma StateGives(k: State)
    requires Steppable(k)
    ensures Placed(k) && FineTcbs(k.tcbs) && k.current in k.tcbs && PendingKnown(k)
  {
    hide Placed, FineTcbs, PendingKnown;
  }

  lemma SameListsRefl(c: Tcb)
    ensures SameLists(c, c)
  {
  }

  lemma FirstLeaves(waiters: seq<TaskId>)
    requires NoDuplicates(waiters) && waiters != []
    ensures NoDuplicates(waiters[1..]) && waiters[0] !in waiters[1..]
    ensures forall t :: t in waiters[1..] ==> t in waiters
  {
  }

  /** The woken waiter has left the queue of its mutex. */
  lemma DequeuedOwned(k: State, ms: map<MutexId, Mutex>, m: MutexId)
    requires Owned(k, ms) && m in ms && ms[m].waiters != []
    ensures var w, ms' := ms[m].waiters[0], ms[m := ms[m].(waiters := ms[m].waiters[1..])];
            && w in k.tcbs && k.tcbs[w].event == OnEventList
            && Owned(k, ms') && forall i :: i in ms' ==> w !in ms'[i].waiters
  {
    hide NoDuplicates, Exclusive, HeldCounts;
    var mx := ms[m];
    assert Queued(k, mx) && mx.waiters[0] in mx.waiters;
    FirstLeaves(mx.waiters);
    SameOwner(k, mx, mx.waiters[1..]);
    SameCounts(k, k, ms, ms[m := mx.(waiters := mx.waiters[1..])]);
  }

  lemma {:induction false} StillAll(k: State, waiters: seq<TaskId>)
    requires forall t :: t in waiters ==> t in k.tcbs && k.tcbs[t].event == OnEventList
    ensures StillWaiting(k, waiters) == waiters
  {
    if waiters != [] {
      StillAll(k, waiters[1..]);
    }
  }

  lemma EventLeavesOthers(s: System, w: TaskId)
    requires GoodSystem(s) && Enabled(s.c.k, Event(w)) && Independent(s, Event(w)) && Workable(s)
    ensures Refresh(NewState(s.c.k, Event(w)), s.mutexes) == s.mutexes
  {
    hide Good, Steppable, NewState, NoDuplicates;
    var r := NewState(s.c.k, Event(w));
    CallFrame(s.c.k, Event(w));
    forall m | m in s.mutexes ensures StillWaiting(r, s.mutexes[m].waiters) == s.mutexes[m].waiters {
      assert Queued(s.c.k, s.mutexes[m]);
      StillAll(r, s.mutexes[m].waiters);
    }
  }

  lemma EventIs(k: State, w: TaskId)
    requires Steppable(k) && Enabled(k, Event(w))
    ensures FineTcbs(k.tcbs) && NewState(k, Event(w)) == EventWake(k, w)
  {
    hide Placed, FineTcbs, SomeReady, PendingKnown, EventWake;
  }

  /** The mutex is free, and its first waiter, if any, has left its queue. */
  ghost function Vacated(s: System, m: MutexId): System
    requires Gives(s, m)
  {
    hide Steppable;
    var f := Relinquished(s, m);
    var mx := f.mutexes[m];
    if mx.waiters == [] then f else f.(mutexes := f.mutexes[m := mx.(waiters := mx.waiters[1..])])
  }

  ghost predicate Splits(s: System, m: MutexId)
    requires Gives(s, m)
  {
    hide Steppable;
    var g, waiters := Vacated(s, m), s.mutexes[m].waiters;
    if waiters == [] then Release(s, m) == g
    else Possible(g, KernelStep(Event(waiters[0]))) && After(g, KernelStep(Event(waiters[0]))) == Release(s, m)
  }

  /** An event for a task that waits for no mutex changes the scheduler only. */
  lemma EventAlone(s: System, w: TaskId)
    requires GoodSystem(s) && w in s.c.k.tcbs && s.c.k.tcbs[w].event == OnEventList
    requires forall m :: m in s.mutexes ==> w !in s.mutexes[m].waiters
    ensures Placed(s.c.k) && FineTcbs(s.c.k.tcbs) && s.c.k.current in s.c.k.tcbs && Possible(s, KernelStep(Event(w)))
    ensures After(s, KernelStep(Event(w))) == s.(c := s.c.(k := EventWake(s.c.k, w)))
  {
    hide Good, Steppable, Placed, FineTcbs, AllExclusive, AllQueued, HeldCounts, EventWake, NewState, Refresh;
    SystemGives(s);
    StateGives(s.c.k);
    EventLeavesOthers(s, w);
    EventIs(s.c.k, w);
  }

  /** A release with waiters is the freeing followed by an event for the first. */
  lemma ReleaseSplits(s: System, m: MutexId)
    requires GoodSystem(s) && Gives(s, m)
    ensures GoodSystem(Vacated(s, m)) && Splits(s, m)
  {
    hide Good, Steppable, Disinherit, Placed, FineTcbs, Owned, EventWake, PendingKnown;
    StateGives(s.c.k);
    DisinheritFrees(s, m);
    HolderHolds(s, m, s.c.k.current);
    var f := Relinquished(s, m);
    var mx := f.mutexes[m];
    if mx.waiters != [] {
      var w, g := mx.waiters[0], Vacated(s, m);
      DequeuedOwned(f.c.k, f.mutexes, m);
      FreedTwice(s.mutexes, m, mx, mx.(waiters := mx.waiters[1..]));
      EventAlone(g, w);
    }
  }

  lemma FreedTwice(ms: map<MutexId, Mutex>, m: MutexId, a: Mutex, b: Mutex)
    ensures ms[m := a][m := b] == ms[m := b]
  {
  }

  lemma ReleaseOwned(s: System, m: MutexId)
    requires GoodSystem(s) && Gives(s, m)
    ensures GoodSystem(Release(s, m))
  {
    hide Steppable, Placed, FineTcbs, GoodSystem, Vacated, Step, EventWake;
    ReleaseSplits(s, m);
    if s.mutexes[m].waiters != [] {
      KernelStepOwned(Vacated(s, m), Event(s.mutexes[m].waiters[0]));
    }
  }

  lemma GiveOwned(s: System, m: MutexId)
    requires GoodSystem(s) && Possible(s, GiveMutex(m))
    ensures GoodSystem(Give(s, m).0)
  {
    hide Good, Steppable, Release, Placed, AllQueued, FineTcbs;
    var mx := s.mutexes[m];
    if mx.holder == HeldBy(s.c.k.current) {
      if mx.recursive && mx.depth > 1 {
        assert Exclusive(s.c.k, mx);
        RequeueOwned(s.c.k, s.mutexes, m, mx.(depth := mx.depth - 1));
        SameCounts(s.c.k, s.c.k, s.mutexes, Give(s, m).0.mutexes);
      } else {
        ReleaseOwned(s, m);
      }
    }
  }

  /** The first waiter is off the queue and off every event list; it is ready at
      once, or as soon as the scheduler is resumed. */
  ghost predicate WokeFirst(s: System, r: System, m: MutexId) {
    && m in s.mutexes && s.mutexes[m].waiters != [] && m in r.mutexes
    && r.mutexes == s.mutexes[m := r.mutexes[m]] && r.mutexes[m].waiters == s.mutexes[m].waiters[1..]
    && var w := s.mutexes[m].waiters[0];
       && w in r.c.k.tcbs && w in s.c.k.tcbs
       && if s.c.k.suspendCount == 0 then
            r.c.k.tcbs[w].event == Nowhere && r.c.k.tcbs[w].list == Ready(s.c.k.tcbs[w].priority)
          else r.c.k.tcbs[w].event == OnPendingReady && w in r.c.k.pending
  }

  /** Giving a mutex that others wait for frees it and wakes the first of them. */
  lemma GiveWakesFirst(s: System, m: MutexId)
    requires GoodSystem(s) && Gives(s, m) && Outermost(s, m) && s.mutexes[m].waiters != []
    ensures Give(s, m).1 && WokeFirst(s, Give(s, m).0, m) && Give(s, m).0.mutexes[m].holder == NoHolder
  {
    hide Good, AllExclusive, HeldCounts, Steppable, Placed, FineTcbs, Disinherit, EventWake, PendingKnown;
    SystemGives(s);
    StateGives(s.c.k);
    HolderHolds(s, m, s.c.k.current);
    assert Queued(s.c.k, s.mutexes[m]);
    var k, w := s.c.k, s.mutexes[m].waiters[0];
    assert w in s.mutexes[m].waiters;
    DisinheritKeeps(k, s.c.now, s.c.due, s.c.now + 1);
    WaiterIsAnother(s, m, w);
    EventWoken(Disinherit(k).0, w);
  }

  /** The task that gives a mutex does not wait for one. */
  lemma WaiterIsAnother(s: System, m: MutexId, w: TaskId)
    requires GoodSystem(s) && Gives(s, m) && w in s.c.k.tcbs && s.c.k.tcbs[w].event == OnEventList
    ensures w != s.c.k.current
  {
    hide Sound, Steppable, Owned;
    SystemGives(s);
    TcbGives(s.c.k, w, s.c.now, s.c.due, s.c.now + 1);
  }

  ghost predicate Outermost(s: System, m: MutexId) {
    m in s.mutexes && (s.mutexes[m].recursive ==> s.mutexes[m].depth <= 1)
  }

  // ----- waiting ---------------------------------------------------------------------

  lemma InheritOwned(s: System, t: TaskId, m: MutexId)
    requires GoodSystem(s) && m in s.mutexes && s.mutexes[m].holder == HeldBy(t)
    ensures Workable(s) && Placed(s.c.k) && FineTcbs(s.c.k.tcbs) && t in s.c.k.tcbs && s.c.k.current in s.c.k.tcbs
    ensures GoodSystem(s.(c := s.c.(k := Inherit(s.c.k, t).0)))
    ensures var k := s.c.k;
            Inherit(k, t).0.tcbs[t].priority == HighestOf(k.tcbs[t].priority, k.tcbs[k.current].priority)
  {
    hide Sound, Steppable, Placed, FineTcbs, Inherit, Queued, Exclusive, AllQueued, AllExclusive, SameLists, HeldCounts;
    SystemGives(s);
    HolderHolds(s, m, t);
    var k, now, due := s.c.k, s.c.now, s.c.due;
    StateGives(k);
    var i := Inherit(k, t).0;
    InheritKeeps(k, t, now, due, now + 1);
    forall u | u in k.tcbs ensures u in i.tcbs && SameLists(k.tcbs[u], i.tcbs[u]) {
      assert u in i.tcbs.Keys;
      SameListsRefl(k.tcbs[u]);
    }
    CarriesOwned(k, i, s.mutexes);
    SameCounts(k, i, s.mutexes, s.mutexes);
  }

  lemma ExpireOwned(s: System, m: MutexId, inherited: bool)
    requires GoodSystem(s) && Possible(s, ExpireMutex(m, inherited))
    ensures GoodSystem(Expire(s, m, inherited))
  {
    hide Sound, Steppable, Placed, FineTcbs, DisinheritAfterTimeout, Queued, Exclusive;
    hide AllQueued, AllExclusive, SameLists, HeldCounts;
    if inherited && s.mutexes[m].holder != NoHolder {
      var mx, k, now, due := s.mutexes[m], s.c.k, s.c.now, s.c.due;
      var t, p := mx.holder.task, HighestWaiting(k, mx);
      SystemGives(s);
      HolderHolds(s, m, t);
      StateGives(k);
      var r := DisinheritAfterTimeout(k, t, p);
      DisinheritAfterTimeoutKeeps(k, t, p, now, due, now + 1);
      forall u | u in k.tcbs ensures u in r.tcbs && SameLists(k.tcbs[u], r.tcbs[u]) {
        assert u in r.tcbs.Keys;
        SameListsRefl(k.tcbs[u]);
      }
      CarriesOwned(k, r, s.mutexes);
      SameCounts(k, r, s.mutexes, s.mutexes);
    }
  }

  lemma InheritLeavesCurrent(k: State, t: TaskId)
    requires Placed(k) && FineTcbs(k.tcbs) && t in k.tcbs && k.current in k.tcbs
    ensures var i := Inherit(k, t).0;
            i.current == k.current && k.current in i.tcbs && i.tcbs[k.current] == k.tcbs[k.current] && i.idle == k.idle
  {
    hide Placed, FineTcbs, MakeReady;
    if t != k.current && k.tcbs[t].priority < k.tcbs[k.current].priority {
      var c, p := k.tcbs[t], k.tcbs[k.current].priority;
      assert FineTcb(k.tcbs[k.current]) by { FineOne(k.tcbs, k.current); }
      ReadiedTask(WithTcb(k, t, c.(priority := p, eventValue := EventValue(c, p))), t);
    }
  }

  lemma PlaceLeavesOthers(s: System, value: nat, ticks: nat)
    requires GoodSystem(s) && Workable(s) && Enabled(s.c.k, WaitForEvent(value, ticks))
    ensures var r := NewState(s.c.k, WaitForEvent(value, ticks));
            && Refresh(r, s.mutexes) == s.mutexes && s.c.k.current in r.tcbs
            && r.tcbs[s.c.k.current].event == OnEventList && r.tcbs[s.c.k.current].eventValue == value
    ensures forall m :: m in s.mutexes ==> s.c.k.current !in s.mutexes[m].waiters
  {
    hide Good, Steppable, NewState, Queued, Enabled, AllExclusive, HeldCounts, StillWaiting;
    var op := WaitForEvent(value, ticks);
    var r := NewState(s.c.k, op);
    PlacedTask(s.c.k, value, ticks);
    forall m | m in s.mutexes
      ensures s.c.k.current !in s.mutexes[m].waiters && StillWaiting(r, s.mutexes[m].waiters) == s.mutexes[m].waiters
    {
      PlaceLeavesOne(s.c.k, value, ticks, s.mutexes[m]);
    }
  }

  lemma PlaceLeavesOne(k: State, value: nat, ticks: nat, mx: Mutex)
    requires Steppable(k) && Enabled(k, WaitForEvent(value, ticks)) && Queued(k, mx)
    ensures k.current !in mx.waiters
    ensures StillWaiting(NewState(k, WaitForEvent(value, ticks)), mx.waiters) == mx.waiters
  {
    hide Steppable, NewState, NoDuplicates;
    CallFrame(k, WaitForEvent(value, ticks));
    StillAll(NewState(k, WaitForEvent(value, ticks)), mx.waiters);
  }

  lemma PlacedTask(k: State, value: nat, ticks: nat)
    requires Steppable(k) && Enabled(k, WaitForEvent(value, ticks))
    ensures var r := NewState(k, WaitForEvent(value, ticks));
            && r == PlaceOnEventList(k, value, ticks)
            && k.current in r.tcbs && r.tcbs[k.current].event == OnEventList && r.tcbs[k.current].eventValue == value
  {
    hide Placed, FineTcbs, SomeReady, PendingKnown, Block;
    BlockedTask(k, ticks, true);
  }

  lemma JoinOwned(k: State, ms: map<MutexId, Mutex>, m: MutexId, t: TaskId, pos: nat)
    requires Owned(k, ms) && m in ms && pos <= |ms[m].waiters|
    requires t in k.tcbs && k.tcbs[t].event == OnEventList && k.tcbs[t].eventValue < IN_USE
    requires forall i :: i in ms ==> t !in ms[i].waiters
    ensures Owned(k, ms[m := ms[m].(waiters := InsertAt(ListV(ms[m].waiters, 0), pos, t).items)])
  {
    hide NoDuplicates, InsertAt, Held, HeldCounts, Exclusive;
    var mx := ms[m];
    assert Queued(k, mx) && Exclusive(k, mx);
    InsertAtMembers(ListV(mx.waiters, 0), pos, t);
    var mx' := mx.(waiters := InsertAt(ListV(mx.waiters, 0), pos, t).items);
    SameOwner(k, mx, mx'.waiters);
    SameCounts(k, k, ms, ms[m := mx']);
  }

  lemma WaitOwned(s: System, m: MutexId, ticks: nat)
    requires GoodSystem(s) && Possible(s, WaitMutex(m, ticks))
    ensures GoodSystem(Wait(s, m, ticks))
  {
    hide Good, Steppable, Placed, FineTcbs, Owned, Inherit, PlaceOnEventList, Deadline, Enqueue;
    var k, mx := s.c.k, s.mutexes[m];
    var t := mx.holder.task;
    StateGives(k);
    InheritOwned(s, t, m);
    InheritLeavesCurrent(k, t);
    var i := s.(c := s.c.(k := Inherit(k, t).0));
    PlaceOwned(i, m, k.tcbs[k.current].eventValue, ticks);
  }

  /** The running task joins an event list and the queue of a mutex. */
  lemma PlaceOwned(s: System, m: MutexId, value: nat, ticks: nat)
    requires GoodSystem(s) && m in s.mutexes && CanPlace(s.c.k, value, ticks) && value < IN_USE
    ensures Workable(s) && Placed(s.c.k) && s.c.k.current in s.c.k.tcbs
    ensures forall u :: u in s.mutexes[m].waiters ==> u in s.c.k.tcbs
    ensures var mx := s.mutexes[m];
            GoodSystem(System(Config(PlaceOnEventList(s.c.k, value, ticks), s.c.now,
                                     Deadline(s.c.k, ticks, true, s.c.now, s.c.due)),
                              s.mutexes[m := mx.(waiters := Enqueue(s.c.k, mx.waiters, s.c.k.current, value))]))
  {
    hide Good, Steppable, Placed, FineTcbs, Owned, PlaceOnEventList, PendingKnown, Deadline, NewState;
    SystemGives(s);
    StateGives(s.c.k);
    KernelStepOwned(s, WaitForEvent(value, ticks));
    PlaceLeavesOthers(s, value, ticks);
    PlacedTask(s.c.k, value, ticks);
    var pos := InsertPosition(EventValues(s.c.k, s.mutexes[m].waiters), value);
    JoinOwned(PlaceOnEventList(s.c.k, value, ticks), s.mutexes, m, s.c.k.current, pos);
  }

  // ----- every run -------------------------------------------------------------------

  /** Every operation on a mutex, and every other step, keeps the books, but for
      the deletion of a holder. */
  lemma MutexStepKeeps(s: System, op: MutexOp)
    requires GoodSystem(s) && Possible(s, op)
    ensures GoodSystem(After(s, op)) <==> !(op.KernelStep? && DeletesHolder(s.c.k, op.op))
  {
    hide GoodSystem, Step, Take, Give, Wait, Expire;
    match op {
      case KernelStep(o) => KernelStepOwned(s, o);
      case NewMutex(m, recursive) => NewMutexOwned(s, m, recursive);
      case TakeMutex(m) => TakeOwned(s, m);
      case GiveMutex(m) => GiveOwned(s, m);
      case WaitMutex(m, ticks) => WaitOwned(s, m, ticks);
      case ExpireMutex(m, inherited) => ExpireOwned(s, m, inherited);
    }
  }

  ghost predicate IsMutexRun(s: System, ops: seq<MutexOp>)
    decreases |ops|
  {
    ops != [] ==> Possible(s, ops[0]) && IsMutexRun(After(s, ops[0]), ops[1..])
  }

  ghost function Outcome(s: System, ops: seq<MutexOp>): System
    requires IsMutexRun(s, ops)
    decreases |ops|
  {
    if ops == [] then s else Outcome(After(s, ops[0]), ops[1..])
  }

  /** The books are in order at every moment of the run. */
  ghost predicate AllGood(s: System, ops: seq<MutexOp>)
    requires IsMutexRun(s, ops)
    decreases |ops|
  {
    GoodSystem(s) && (ops != [] ==> AllGood(After(s, ops[0]), ops[1..]))
  }

  ghost predicate NoHolderDeleted(s: System, ops: seq<MutexOp>)
    requires IsMutexRun(s, ops)
    decreases |ops|
  {
    ops != [] ==>
      && !(ops[0].KernelStep? && DeletesHolder(s.c.k, ops[0].op))
      && NoHolderDeleted(After(s, ops[0]), ops[1..])
  }

  /** The books stay in order over a run exactly when the run never deletes a
      task that holds a mutex. */
  lemma {:induction false} AlwaysGoodSystem(s: System, ops: seq<MutexOp>)
    requires GoodSystem(s) && IsMutexRun(s, ops)
    ensures AllGood(s, ops) <==> NoHolderDeleted(s, ops)
    ensures NoHolderDeleted(s, ops) ==> GoodSystem(Outcome(s, ops))
    decreases |ops|
  {
    hide GoodSystem, After;
    if ops != [] {
      MutexStepKeeps(s, ops[0]);
      if !(ops[0].KernelStep? && DeletesHolder(s.c.k, ops[0].op)) {
        AlwaysGoodSystem(After(s, ops[0]), ops[1..]);
      }
    }
  }

  /** In every reachable state: each task's held count is the number of mutexes
      that name it, a held mutex has count 0, and a task that holds none runs
      at its base priority, which never exceeds its priority. */
  lemma MutexBooks(s: System, ops: seq<MutexOp>)
    requires GoodSystem(s) && IsMutexRun(s, ops) && NoHolderDeleted(s, ops)
    ensures var r := Outcome(s, ops);
            && (forall m :: m in r.mutexes ==>
                  && (r.mutexes[m].holder.HeldBy? ==>
                        r.mutexes[m].count == 0 && Live(r.c.k, r.mutexes[m].holder.task))
                  && (r.mutexes[m].holder.NoHolder? ==> r.mutexes[m].count == 1 && r.mutexes[m].depth == 0))
            && forall t :: t in r.c.k.tcbs ==>
                 var c := r.c.k.tcbs[t];
                 && c.mutexesHeld == |Held(r.mutexes, t)|
                 && c.basePriority <= c.priority < MAX_PRIORITIES
                 && (Held(r.mutexes, t) == {} ==> c.priority == c.basePriority)
  {
    hide Good, Queued, Held, IsMutexRun;
    AlwaysGoodSystem(s, ops);
    var r := Outcome(s, ops);
    forall m | m in r.mutexes ensures Exclusive(r.c.k, r.mutexes[m]) {
    }
    forall t | t in r.c.k.tcbs ensures FineTcb(r.c.k.tcbs[t]) {
      FineGiven(r.c, t);
    }
  }

  /** The assertions in the inheritance code hold, and the priority that a
      timed-out waiter leaves to the holder is a valid one. */
  lemma AssertionsHold(s: System, m: MutexId)
    requires GoodSystem(s) && m in s.mutexes && s.mutexes[m].holder.HeldBy?
    ensures Workable(s) && s.mutexes[m].holder.task in s.c.k.tcbs
    ensures s.c.k.tcbs[s.mutexes[m].holder.task].mutexesHeld > 0
    ensures 0 <= HighestWaiting(s.c.k, s.mutexes[m]) < MAX_PRIORITIES
  {
    hide Good, Steppable;
    SystemGives(s);
    var mx := s.mutexes[m];
    HolderHolds(s, m, mx.holder.task);
    assert Queued(s.c.k, mx);
    if mx.waiters != [] {
      assert mx.waiters[0] in mx.waiters;
      FineGiven(s.c, mx.waiters[0]);
    }
  }

  /** Waiters in priority order stay in it when a task joins them. */
  lemma EnqueueKeepsOrder(k: State, waiters: seq<TaskId>, t: TaskId)
    requires (forall u :: u in waiters ==> u in k.tcbs) && t in k.tcbs && Sorted(EventValues(k, waiters))
    ensures var r := Enqueue(k, waiters, t, k.tcbs[t].eventValue);
            (forall u :: u in r ==> u in k.tcbs) && Sorted(EventValues(k, r))
  {
    hide Sorted;
    var keys, value := EventValues(k, waiters), k.tcbs[t].eventValue;
    var pos := InsertPosition(keys, value);
    InsertKeepsSorted(keys, value);
    EnqueuedValues(k, waiters, t, pos);
  }

  lemma EnqueuedValues(k: State, waiters: seq<TaskId>, t: TaskId, pos: nat)
    requires (forall u :: u in waiters ==> u in k.tcbs) && t in k.tcbs
    requires pos == InsertPosition(EventValues(k, waiters), k.tcbs[t].eventValue)
    ensures var r := Enqueue(k, waiters, t, k.tcbs[t].eventValue);
            && (forall u :: u in r ==> u in k.tcbs)
            && var keys := EventValues(k, waiters);
               EventValues(k, r) == keys[..pos] + [k.tcbs[t].eventValue] + keys[pos..]
  {
    var keys, value := EventValues(k, waiters), k.tcbs[t].eventValue;
    var r := Enqueue(k, waiters, t, value);
    assert r == waiters[..pos] + [t] + waiters[pos..];
    forall i | 0 <= i < |r| ensures EventValues(k, r)[i] == (keys[..pos] + [value] + keys[pos..])[i] {
      SplicedAt(keys, pos, value, i);
      SplicedAt(waiters, pos, t, i);
    }
  }

  /** In priority order, the head's value stands for the highest of the waiting
      priorities. */
  lemma HeadIsHighest(k: State, mx: Mutex, t: TaskId)
    requires (forall u :: u in mx.waiters ==> u in k.tcbs) && Sorted(EventValues(k, mx.waiters)) && t in mx.waiters
    ensures MAX_PRIORITIES - k.tcbs[t].eventValue <= HighestWaiting(k, mx)
  {
    var i := IndexOf(mx.waiters, t);
    assert EventValues(k, mx.waiters)[0] <= EventValues(k, mx.waiters)[i];
  }

  // ----- undoing a take --------------------------------------------------------------

  /** An uncontended take is undone exactly by one give: the mutex, the task's
      priorities and every list are as before, recursive or not. */
  lemma GiveUndoesTake(s: System, m: MutexId)
    requires GoodSystem(s) && Possible(s, TakeMutex(m)) && Take(s, m).1
    requires s.mutexes[m].waiters == [] && s.c.k.tcbs[s.c.k.current].list.Ready?
    ensures Possible(Take(s, m).0, GiveMutex(m)) && Give(Take(s, m).0, m) == (s, true)
  {
    hide Possible, Exclusive, GoodSystem, Give, Acquire, Steppable;
    var r := Take(s, m).0;
    TakeOwned(s, m);
    TakenState(s, m);
    CanGiveBack(r, m);
    if s.mutexes[m].recursive && s.mutexes[m].holder == HeldBy(s.c.k.current) {
      UndoNested(s, r, m);
    } else {
      UndoAcquire(s, m);
    }
  }

  lemma TakenState(s: System, m: MutexId)
    requires GoodSystem(s) && Possible(s, TakeMutex(m)) && Take(s, m).1
    ensures s.c.k.current in s.c.k.tcbs && m in s.mutexes
    ensures var r := Take(s, m).0;
            && r.c.k.current == s.c.k.current && r.c.k.current in r.c.k.tcbs
            && r.c.k.tcbs[r.c.k.current].list == s.c.k.tcbs[r.c.k.current].list
            && r.mutexes == s.mutexes[m := r.mutexes[m]] && m in r.mutexes
            && r.mutexes[m].holder == HeldBy(r.c.k.current) && r.mutexes[m].waiters == s.mutexes[m].waiters
  {
    hide Good, Steppable, AllQueued, HeldCounts, Placed, FineTcbs;
    SystemGives(s);
    StateGives(s.c.k);
    assert Exclusive(s.c.k, s.mutexes[m]);
  }

  lemma CanGiveBack(s: System, m: MutexId)
    requires GoodSystem(s) && m in s.mutexes && s.c.k.current in s.c.k.tcbs
    requires s.mutexes[m].holder == HeldBy(s.c.k.current) && s.c.k.tcbs[s.c.k.current].list.Ready?
    ensures Possible(s, GiveMutex(m))
  {
    hide GoodSystem, Possible;
    SystemGives(s);
    HolderHolds(s, m, s.c.k.current);
    GiveIsPossible(s, m);
  }

  lemma GiveIsPossible(s: System, m: MutexId)
    requires Workable(s) && m in s.mutexes && s.mutexes[m].holder == HeldBy(s.c.k.current)
    requires s.c.k.current in s.c.k.tcbs
    requires s.c.k.tcbs[s.c.k.current].list.Ready? && s.c.k.tcbs[s.c.k.current].mutexesHeld > 0
    ensures Possible(s, GiveMutex(m))
  {
    hide Steppable;
  }

  lemma UndoNested(s: System, r: System, m: MutexId)
    requires GoodSystem(s) && m in s.mutexes && s.mutexes[m].recursive && s.mutexes[m].holder == HeldBy(s.c.k.current)
    requires r == s.(mutexes := s.mutexes[m := s.mutexes[m].(depth := s.mutexes[m].depth + 1)])
    requires Possible(r, GiveMutex(m))
    ensures Give(r, m) == (s, true)
  {
    hide Good, Steppable, Queued, Possible, Release, HeldCounts;
    assert Exclusive(s.c.k, s.mutexes[m]);
    MutexTwice(s.mutexes, m, r.mutexes[m], s.mutexes[m]);
  }

  lemma UndoAcquire(s: System, m: MutexId)
    requires GoodSystem(s) && Possible(s, TakeMutex(m)) && s.mutexes[m].count > 0 && s.mutexes[m].waiters == []
    requires Possible(Acquire(s, m), GiveMutex(m))
    ensures Give(Acquire(s, m), m) == (s, true)
  {
    hide Good, Steppable, Queued, Disinherit, Placed, FineTcbs, AllQueued, HeldCounts, IncrementHeld, Possible;
    SystemGives(s);
    StateGives(s.c.k);
    PossibleGives(s, m);
    var k, mx, r := s.c.k, s.mutexes[m], Acquire(s, m);
    assert Exclusive(k, mx);
    DisinheritUndoes(k);
    MutexTwice(s.mutexes, m, r.mutexes[m], mx);
  }

  lemma PossibleGives(s: System, m: MutexId)
    requires Possible(s, TakeMutex(m))
    ensures m in s.mutexes && s.c.k.current in s.c.k.tcbs
  {
    hide Steppable;
  }

  lemma MutexTwice(ms: map<MutexId, Mutex>, m: MutexId, a: Mutex, b: Mutex)
    requires m in ms && ms[m] == b
    ensures ms[m := a][m := b] == ms
  {
  }

  lemma DisinheritUndoes(k: State)
    requires Placed(k) && FineTcbs(k.tcbs) && k.current in k.tcbs
    ensures FineTcbs(IncrementHeld(k).tcbs) && Disinherit(IncrementHeld(k)).0 == k
    ensures IncrementHeld(k).current == k.current
  {
    hide Placed;
    var c := k.tcbs[k.current];
    assert FineTcb(c);
    WithTcbKeepsFineTcbs(k.tcbs, k.current, c.(mutexesHeld := c.mutexesHeld + 1));
    MapTwice(k.tcbs, k.current, c.(mutexesHeld := c.mutexesHeld + 1), c);
    assert k.tcbs[k.current := c] == k.tcbs;
  }

  ghost function PriorityOf(k: State, t: TaskId): nat {
    if t in k.tcbs then k.tcbs[t].priority else 0
  }

  /** Blocking on a held mutex lifts its holder to the waiter's priority, if
      that is the higher one. */
  lemma WaitInherits(s: System, m: MutexId, ticks: nat, t: TaskId)
    requires m in s.mutexes && s.mutexes[m].holder == HeldBy(t)
    requires GoodSystem(s) && Possible(s, WaitMutex(m, ticks))
    ensures PriorityOf(Wait(s, m, ticks).c.k, t) == HighestOf(PriorityOf(s.c.k, t), PriorityOf(s.c.k, s.c.k.current))
  {
    hide Good, Steppable, Placed, FineTcbs, Owned, Inherit, Block, PendingKnown, Deadline, NewState;
    var k := s.c.k;
    StateGives(k);
    InheritOwned(s, t, m);
    InheritLeavesCurrent(k, t);
    var i := Inherit(k, t).0;
    BlockedTask(i, ticks, true);
    assert t in i.tcbs.Keys;
  }

  /** Giving the last mutex ends all inheritance. */
  lemma LastGiveRestores(s: System, m: MutexId)
    requires m in s.mutexes && s.mutexes[m].holder == HeldBy(s.c.k.current)
    requires Held(s.mutexes, s.c.k.current) == {m} && (s.mutexes[m].recursive ==> s.mutexes[m].depth == 1)
    requires GoodSystem(s) && Possible(s, GiveMutex(m))
    ensures Held(Give(s, m).0.mutexes, s.c.k.current) == {}
    ensures AtBase(Give(s, m).0.c.k, s.c.k.current)
  {
    hide Good, Steppable, Disinherit, Placed, FineTcbs, EventWake, PendingKnown, Queued, Exclusive;
    var t, r := s.c.k.current, Give(s, m).0;
    GiveOwned(s, m);
    ReleaseKeepsTasks(s, m);
    FineGiven(r.c, t);
    forall i | i in r.mutexes ensures i !in Held(r.mutexes, t) {
      assert i != m ==> i !in Held(s.mutexes, t);
    }
  }

  ghost predicate AtBase(k: State, t: TaskId) {
    t in k.tcbs && k.tcbs[t].priority == k.tcbs[t].basePriority
  }

  lemma ReleaseKeepsTasks(s: System, m: MutexId)
    requires Gives(s, m)
    ensures s.c.k.current in Release(s, m).c.k.tcbs
  {
    hide Placed, FineTcbs, PendingKnown, SomeReady, Disinherit, Remove, InsertAt, NoDuplicates;
    assert s.c.k.current in Disinherit(s.c.k).0.tcbs.Keys;
  }

  // ----- what an operation does to one task -------------------------------------------

  /** The operations on mutexes that block or wake t. */
  ghost predicate Moves(s: System, op: MutexOp, t: TaskId)
    requires Possible(s, op)
  {
    match op
    case GiveMutex(m) =>
      var mx := s.mutexes[m];
      && mx.holder == HeldBy(s.c.k.current) && !(mx.recursive && mx.depth > 1)
      && mx.waiters != [] && mx.waiters[0] == t
    case WaitMutex(_, _) => t == s.c.k.current
    case _ => false
  }

  /** Inheritance and its end change priorities and ready lists only, and leave
      an event value alone that is in use, but for the giver's own. */
  ghost predicate Unmoved(s: System, op: MutexOp, r: State, t: TaskId)
    requires Possible(s, op) && t in s.c.k.tcbs
  {
    && t in r.tcbs
    && (!Moves(s, op, t) ==> StaysPut(s.c.k.tcbs[t], r.tcbs[t], false))
    && (!(op.GiveMutex? && t == s.c.k.current) ==> SameInUse(s.c.k.tcbs[t], r.tcbs[t]))
  }

  lemma TakeUnmoved(s: System, m: MutexId, t: TaskId)
    requires GoodSystem(s) && Possible(s, TakeMutex(m)) && t in s.c.k.tcbs
    ensures Unmoved(s, TakeMutex(m), Take(s, m).0.c.k, t)
  {
    hide Good, Steppable, Placed, Owned;
    StateGives(s.c.k);
  }

  lemma ReleaseUnmoved(s: System, m: MutexId, t: TaskId)
    requires GoodSystem(s) && Gives(s, m) && Outermost(s, m) && t in s.c.k.tcbs
    ensures Unmoved(s, GiveMutex(m), Release(s, m).c.k, t)
  {
    hide Sound, Steppable, Placed, FineTcbs, Disinherit, AllExclusive, HeldCounts, Release, Step, NewState, EventWake;
    SystemGives(s);
    StateGives(s.c.k);
    ReleaseSplits(s, m);
    var k, f := s.c.k, Vacated(s, m);
    HolderHolds(s, m, k.current);
    DisinheritKeeps(k, s.c.now, s.c.due, s.c.now + 1);
    assert t in f.c.k.tcbs.Keys;
    if s.mutexes[m].waiters != [] {
      EventUnmoved(f, s.mutexes[m].waiters[0], t);
    }
  }

  lemma EventUnmoved(s: System, w: TaskId, t: TaskId)
    requires GoodSystem(s) && Possible(s, KernelStep(Event(w))) && t in s.c.k.tcbs
    ensures var r := After(s, KernelStep(Event(w))).c.k;
            && t in r.tcbs && (t != w ==> r.tcbs[t] == s.c.k.tcbs[t]) && SameInUse(s.c.k.tcbs[t], r.tcbs[t])
  {
    hide Good, Owned, Steppable, NewState;
    StepEvolves(s.c, Event(w));
    assert TaskEvolves(s.c.k, NewState(s.c.k, Event(w)), Event(w), t);
    CallFrame(s.c.k, Event(w));
  }

  lemma WaitUnmoved(s: System, m: MutexId, ticks: nat, t: TaskId)
    requires GoodSystem(s) && Possible(s, WaitMutex(m, ticks)) && t in s.c.k.tcbs
    ensures Unmoved(s, WaitMutex(m, ticks), Wait(s, m, ticks).c.k, t)
  {
    hide Sound, Steppable, Placed, FineTcbs, Owned, Inherit, Block, Deadline, PendingKnown;
    var k, holder := s.c.k, s.mutexes[m].holder.task;
    SystemGives(s);
    StateGives(k);
    HolderHolds(s, m, holder);
    InheritKeeps(k, holder, s.c.now, s.c.due, s.c.now + 1);
    InheritLeavesCurrent(k, holder);
    BlockedTask(Inherit(k, holder).0, ticks, true);
    assert t in Inherit(k, holder).0.tcbs.Keys;
  }

  lemma ExpireUnmoved(s: System, m: MutexId, inherited: bool, t: TaskId)
    requires GoodSystem(s) && Possible(s, ExpireMutex(m, inherited)) && t in s.c.k.tcbs
    ensures Unmoved(s, ExpireMutex(m, inherited), Expire(s, m, inherited).c.k, t)
  {
    hide Sound, Steppable, Placed, FineTcbs, Owned, DisinheritAfterTimeout, HighestWaiting;
    if inherited && s.mutexes[m].holder != NoHolder {
      var k, holder, waiting := s.c.k, s.mutexes[m].holder.task, HighestWaiting(s.c.k, s.mutexes[m]);
      SystemGives(s);
      StateGives(k);
      HolderHolds(s, m, holder);
      DisinheritAfterTimeoutKeeps(k, holder, waiting, s.c.now, s.c.due, s.c.now + 1);
      assert t in DisinheritAfterTimeout(k, holder, waiting).tcbs.Keys;
    }
  }

  /** What the operations on mutexes leave alone in every task. */
  lemma OperationsLeave(s: System, op: MutexOp, t: TaskId)
    requires GoodSystem(s) && Possible(s, op) && !op.KernelStep? && t in s.c.k.tcbs
    ensures Unmoved(s, op, After(s, op).c.k, t)
  {
    hide GoodSystem, Steppable, Placed, FineTcbs, Release, Wait, Expire, Take;
    match op {
      case NewMutex(_, _) =>
      case TakeMutex(m) => TakeUnmoved(s, m, t);
      case GiveMutex(m) =>
        if s.mutexes[m].holder == HeldBy(s.c.k.current) && !(s.mutexes[m].recursive && s.mutexes[m].depth > 1) {
          ReleaseUnmoved(s, m, t);
        }
      case WaitMutex(m, ticks) => WaitUnmoved(s, m, ticks, t);
      case ExpireMutex(m, inherited) => ExpireUnmoved(s, m, inherited, t);
    }
  }
}
