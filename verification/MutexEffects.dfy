/** What inheritance, and each operation on a mutex, leaves, field by field. */
module MutexEffects {
  import opened Lists
  import opened Kernel
  import opened Suspension
  import opened Tasks
  import opened Lifecycle
  import opened Priorities
  import opened Runs
  import opened Mutexes
  import opened Effects

  // ----- inheritance ------------------------------------------------------------------

  /** t is as c says, and if it is ready, it has gone to the back of the list of
      its priority. */
  ghost predicate Reranked(k: State, r: State, t: TaskId, c: Tcb)
    requires t in k.tcbs
  {
    if k.tcbs[t].list.Ready? then MovedBack(k, r, t, Ready(c.priority), c) else r == k.(tcbs := k.tcbs[t := c])
  }

  lemma ReprioritisedBack(k: State, t: TaskId, c: Tcb)
    requires Placed(k) && t in k.tcbs && c.list == k.tcbs[t].list && c.priority < MAX_PRIORITIES
    requires k.tcbs[t].list.Ready? ==> k.tcbs[t].list == Ready(k.tcbs[t].priority)
    ensures Reranked(k, Reprioritise(k, t, c), t, c)
  {
    hide Placed, MakeReady, MovedBack;
    var w := WithTcb(k, t, c);
    ReadyBack(w, t);
    MovedFrom(k, w, MakeReady(w, t), t, Ready(c.priority), c, false);
    ReadiedTask(w, t);
  }

  function ItemValue(c: Tcb, priority: nat): int {
    if c.eventValue >= IN_USE then c.eventValue else MAX_PRIORITIES - priority
  }

  /** The holder runs at the running task's priority if that is the higher one. */
  ghost predicate Inherited(k: State, r: State, holder: TaskId) {
    && holder in k.tcbs && k.current in k.tcbs
    && var c, p := k.tcbs[holder], k.tcbs[k.current].priority;
       if c.priority < p then
         p < MAX_PRIORITIES && Reranked(k, r, holder, c.(priority := p, eventValue := ItemValue(c, p)))
       else r == k
  }

  /** Inheritance is reported exactly when the holder's base priority is lower
      than the running task's, though it inherited from another before. */
  lemma InheritEffect(k: State, holder: TaskId, now: nat, due: map<TaskId, nat>)
    requires Sound(k, now, due, now + 1) && holder in k.tcbs
    ensures Placed(k) && FineTcbs(k.tcbs) && k.current in k.tcbs
    ensures Inherited(k, Inherit(k, holder).0, holder)
    ensures Inherit(k, holder).1 <==> k.tcbs[holder].basePriority < k.tcbs[k.current].priority
  {
    hide Sound, Placed, FineTcbs, Reprioritise, Reranked;
    SoundGives(k, now, due, now + 1);
    TcbGives(k, holder, now, due, now + 1);
    TcbGives(k, k.current, now, due, now + 1);
    var c, p := k.tcbs[holder], k.tcbs[k.current].priority;
    if c.priority < p {
      ReprioritisedBack(k, holder, c.(priority := p, eventValue := EventValue(c, p)));
    }
  }

  /** The running task holds one mutex less, and runs at its base priority if
      that was its last. */
  ghost predicate Disinherited(k: State, r: State) {
    && k.current in k.tcbs && k.tcbs[k.current].mutexesHeld > 0
    && var c := k.tcbs[k.current];
       var held := c.(mutexesHeld := c.mutexesHeld - 1);
       if c.mutexesHeld == 1 && c.priority != c.basePriority then
         && c.basePriority <= MAX_PRIORITIES
         && Reranked(k, r, k.current, held.(priority := c.basePriority, eventValue := MAX_PRIORITIES - c.basePriority))
       else r == k.(tcbs := k.tcbs[k.current := held])
  }

  /** A switch is asked for exactly when inheritance ends. */
  lemma DisinheritEffect(k: State, now: nat, due: map<TaskId, nat>)
    requires Sound(k, now, due, now + 1) && k.current in k.tcbs && k.tcbs[k.current].mutexesHeld > 0
    ensures Placed(k) && FineTcbs(k.tcbs)
    ensures Disinherited(k, Disinherit(k).0)
    ensures Disinherit(k).1 <==>
            k.tcbs[k.current].mutexesHeld == 1 && k.tcbs[k.current].priority != k.tcbs[k.current].basePriority
  {
    hide Sound, Placed, FineTcbs, Reprioritise, Reranked;
    SoundGives(k, now, due, now + 1);
    TcbGives(k, k.current, now, due, now + 1);
    var c := k.tcbs[k.current];
    ReprioritisedBack(k, k.current, c.(mutexesHeld := c.mutexesHeld - 1, priority := c.basePriority,
                                       eventValue := MAX_PRIORITIES - c.basePriority));
  }

  /** A holder of one mutex runs at the higher of its base priority and what is
      still waiting; with more mutexes nothing is decided. */
  ghost predicate Relaxed(k: State, r: State, holder: TaskId, waiting: nat) {
    && holder in k.tcbs
    && var c := k.tcbs[holder];
       var p := if c.basePriority < waiting then waiting else c.basePriority;
       if c.mutexesHeld == 1 && c.priority != p then
         p < MAX_PRIORITIES && Reranked(k, r, holder, c.(priority := p, eventValue := ItemValue(c, p)))
       else r == k
  }

  lemma RelaxEffect(k: State, holder: TaskId, waiting: nat, now: nat, due: map<TaskId, nat>)
    requires Sound(k, now, due, now + 1) && holder in k.tcbs && waiting < MAX_PRIORITIES
    ensures Placed(k) && FineTcbs(k.tcbs)
    ensures Relaxed(k, DisinheritAfterTimeout(k, holder, waiting), holder, waiting)
  {
    hide Sound, Placed, FineTcbs, Reprioritise, Reranked;
    SoundGives(k, now, due, now + 1);
    TcbGives(k, holder, now, due, now + 1);
    var c := k.tcbs[holder];
    var p := HighestOf(c.basePriority, waiting);
    ReprioritisedBack(k, holder, c.(priority := p, eventValue := EventValue(c, p)));
  }

  // ----- the operations ------------------------------------------------------------------

  /** A mutex is given only by its holder. A nested give of a recursive one lowers
      its depth; any other frees it, ends inheritance with the last mutex, and
      wakes the first waiter. */
  ghost predicate Gave(s: System, r: System, m: MutexId)
    requires m in s.mutexes
  {
    var mx := s.mutexes[m];
    if mx.recursive && mx.depth > 1 then r == s.(mutexes := s.mutexes[m := mx.(depth := mx.depth - 1)])
    else
      && r.c.now == s.c.now && r.c.due == s.c.due
      && r.mutexes == s.mutexes[m := Mutex(NoHolder, 1, mx.recursive, 0,
                                           if mx.waiters == [] then [] else mx.waiters[1..])]
      && exists d ::
           && Disinherited(s.c.k, d)
           && if mx.waiters == [] then r.c.k == d
              else mx.waiters[0] in d.tcbs && d.current in d.tcbs && Woken(d, r.c.k, mx.waiters[0])
  }

  lemma GiveEffect(s: System, m: MutexId)
    requires GoodSystem(s) && Possible(s, GiveMutex(m))
    ensures m in s.mutexes && (Give(s, m).1 <==> s.mutexes[m].holder == HeldBy(s.c.k.current))
    ensures if Give(s, m).1 then Gave(s, Give(s, m).0, m) else Give(s, m).0 == s
  {
    hide Good, Steppable, Release, Placed, FineTcbs, AllQueued, HeldCounts, Queued, Disinherited, Woken;
    if Give(s, m).1 && !(s.mutexes[m].recursive && s.mutexes[m].depth > 1) {
      ReleaseEffect(s, m);
    }
  }

  lemma ReleaseEffect(s: System, m: MutexId)
    requires GoodSystem(s) && Gives(s, m) && !(s.mutexes[m].recursive && s.mutexes[m].depth > 1)
    ensures Gave(s, Release(s, m), m)
  {
    hide Good, Steppable, Placed, FineTcbs, AllQueued, HeldCounts, AllExclusive;
    hide Disinherit, EventWake, Disinherited, Woken;
    SystemGives(s);
    StateGives(s.c.k);
    var k, mx := s.c.k, s.mutexes[m];
    HolderHolds(s, m, k.current);
    DisinheritEffect(k, s.c.now, s.c.due);
    DisinheritFrees(s, m);
    if mx.waiters != [] {
      FirstIsWoken(Relinquished(s, m), m);
    }
  }

  lemma FirstIsWoken(s: System, m: MutexId)
    requires GoodSystem(s) && m in s.mutexes && s.mutexes[m].waiters != []
    ensures Placed(s.c.k) && FineTcbs(s.c.k.tcbs) && s.c.k.current in s.c.k.tcbs
    ensures var w := s.mutexes[m].waiters[0]; w in s.c.k.tcbs && Woken(s.c.k, EventWake(s.c.k, w), w)
  {
    hide Good, Steppable, Placed, FineTcbs, Owned, EventWake, Woken, Queued, Exclusive, PendingKnown;
    SystemGives(s);
    StateGives(s.c.k);
    DequeuedOwned(s.c.k, s.mutexes, m);
    WaiterGives(s.c.k, s.mutexes[m].waiters[0], s.c.now, s.c.due);
    WokenBack(s.c.k, s.mutexes[m].waiters[0]);
  }

  /** The running task is asleep on the event list with its own item value. */
  ghost predicate Joins(k: State, r: State, ticks: nat, now: nat) {
    && k.current in k.tcbs
    && var c := k.tcbs[k.current].(event := OnEventList);
       if ticks == MAX_DELAY then MovedBack(k, r, k.current, Suspended, c) else FallsAsleep(k, r, c, ticks, now)
  }

  /** The task stands behind all waiters up to the first with a greater value. */
  ghost predicate Enqueued(k: State, waiters: seq<TaskId>, r: seq<TaskId>, t: TaskId) {
    && t in k.tcbs && (forall u :: u in waiters ==> u in k.tcbs)
    && exists pos ::
         && 0 <= pos <= |waiters| && r == waiters[..pos] + [t] + waiters[pos..]
         && (forall i :: 0 <= i < pos ==>
               (assert waiters[i] in waiters; k.tcbs[waiters[i]].eventValue <= k.tcbs[t].eventValue))
         && (pos < |waiters| ==>
               (assert waiters[pos] in waiters; k.tcbs[waiters[pos]].eventValue > k.tcbs[t].eventValue))
  }

  lemma EnqueueEffect(k: State, waiters: seq<TaskId>, t: TaskId)
    requires (forall u :: u in waiters ==> u in k.tcbs) && t in k.tcbs
    ensures Enqueued(k, waiters, Enqueue(k, waiters, t, k.tcbs[t].eventValue), t)
  {
    var pos := InsertPosition(EventValues(k, waiters), k.tcbs[t].eventValue);
    forall i | 0 <= i < |waiters|
      ensures waiters[i] in k.tcbs && EventValues(k, waiters)[i] == k.tcbs[waiters[i]].eventValue
    {
      assert waiters[i] in waiters;
    }
    assert Enqueue(k, waiters, t, k.tcbs[t].eventValue) == waiters[..pos] + [t] + waiters[pos..];
  }

  /** A task that waits for a held mutex first gives its holder its priority,
      then joins the waiters and sleeps. */
  lemma WaitEffect(s: System, m: MutexId, ticks: nat)
    requires GoodSystem(s) && Possible(s, WaitMutex(m, ticks))
    ensures WaitedFor(s, Wait(s, m, ticks), m, ticks)
  {
    hide Good, Steppable, Placed, FineTcbs, Owned, Inherit, PlaceOnEventList, Enqueue, PendingKnown;
    hide Inherited, Joins, Enqueued, NoDuplicates;
    var k, mx := s.c.k, s.mutexes[m];
    StateGives(k);
    InheritedFirst(s, m);
    InheritLeavesCurrent(k, mx.holder.task);
    var i := s.(c := s.c.(k := Inherit(k, mx.holder.task).0));
    WorkableGives(i, m);
    EnqueueEffect(i.c.k, mx.waiters, k.current);
    PlacedAsleep(i.c, ticks);
  }

  /** Inheritance comes first, then the wait. */
  ghost predicate WaitedFor(s: System, r: System, m: MutexId, ticks: nat) {
    && m in s.mutexes && m in r.mutexes && s.mutexes[m].holder.HeldBy?
    && r.c.now == s.c.now
    && r.c.due == (if ticks == MAX_DELAY then s.c.due else s.c.due[s.c.k.current := s.c.now + ticks])
    && r.mutexes == s.mutexes[m := s.mutexes[m].(waiters := r.mutexes[m].waiters)]
    && exists i ::
         && Inherited(s.c.k, i, s.mutexes[m].holder.task) && Joins(i, r.c.k, ticks, s.c.now)
         && Enqueued(i, s.mutexes[m].waiters, r.mutexes[m].waiters, s.c.k.current)
  }

  lemma InheritedFirst(s: System, m: MutexId)
    requires GoodSystem(s) && m in s.mutexes && s.mutexes[m].holder.HeldBy?
    ensures var k, t := s.c.k, s.mutexes[m].holder.task;
            && Placed(k) && FineTcbs(k.tcbs) && t in k.tcbs && k.current in k.tcbs
            && Inherited(k, Inherit(k, t).0, t) && GoodSystem(s.(c := s.c.(k := Inherit(k, t).0)))
  {
    hide Good, Steppable, Placed, FineTcbs, Owned, Inherit, Inherited;
    SystemGives(s);
    StateGives(s.c.k);
    HolderHolds(s, m, s.mutexes[m].holder.task);
    InheritOwned(s, s.mutexes[m].holder.task, m);
    InheritEffect(s.c.k, s.mutexes[m].holder.task, s.c.now, s.c.due);
  }

  lemma WorkableGives(s: System, m: MutexId)
    requires GoodSystem(s) && m in s.mutexes
    ensures forall t :: t in s.mutexes[m].waiters ==> t in s.c.k.tcbs
  {
    hide Good, Steppable, Owned;
    SystemGives(s);
  }

  lemma PlacedAsleep(c: Config, ticks: nat)
    requires Good(c) && CanPlace(c.k, c.k.tcbs[c.k.current].eventValue, ticks)
    ensures Placed(c.k) && Joins(c.k, PlaceOnEventList(c.k, c.k.tcbs[c.k.current].eventValue, ticks), ticks, c.now)
  {
    hide Sound, Placed, FineTcbs, SomeReady, PendingKnown, PlaceOnEventList, MovedBack, FallsAsleep;
    InvGives(c.k, c.now, c.due);
    WaitForEventEffect(c, c.k.tcbs[c.k.current].eventValue, ticks);
  }

  /** The first waiter's value stands for the highest priority that still waits. */
  ghost predicate RelaxedFor(k: State, r: State, mx: Mutex) {
    && mx.holder.HeldBy?
    && exists waiting: nat ::
         && Relaxed(k, r, mx.holder.task, waiting)
         && if mx.waiters == [] then waiting == 0
            else mx.waiters[0] in k.tcbs && waiting + k.tcbs[mx.waiters[0]].eventValue == MAX_PRIORITIES
  }

  /** A wait that timed out takes its priority back from the holder, if it is
      still held and inherited, but for what others who wait lend it. */
  lemma ExpireEffect(s: System, m: MutexId, inherited: bool)
    requires GoodSystem(s) && Possible(s, ExpireMutex(m, inherited))
    ensures m in s.mutexes
    ensures var r, mx := Expire(s, m, inherited), s.mutexes[m];
            && r.mutexes == s.mutexes && r.c.now == s.c.now && r.c.due == s.c.due
            && if !inherited || mx.holder == NoHolder then r == s else RelaxedFor(s.c.k, r.c.k, mx)
  {
    hide Good, Steppable, Placed, FineTcbs, Owned, DisinheritAfterTimeout, PendingKnown, Relaxed;
    if inherited && s.mutexes[m].holder != NoHolder {
      SystemGives(s);
      StateGives(s.c.k);
      var waiting := HighestWaiting(s.c.k, s.mutexes[m]);
      RelaxEffect(s.c.k, s.mutexes[m].holder.task, waiting, s.c.now, s.c.due);
      assert s.mutexes[m].waiters != [] ==> s.mutexes[m].waiters[0] in s.mutexes[m].waiters;
    }
  }

  // ----- steps of the scheduler -------------------------------------------------------------

  ghost predicate Before(s: seq<TaskId>, t: TaskId, u: TaskId) {
    exists i, j :: 0 <= i < j < |s| && s[i] == t && s[j] == u
  }

  lemma {:induction false} StillInOrder(k: State, s: seq<TaskId>, t: TaskId, u: TaskId)
    requires NoDuplicates(s) && Before(StillWaiting(k, s), t, u)
    ensures Before(s, t, u)
  {
    assert s == [s[0]] + s[1..];
    var r, rest := StillWaiting(k, s), StillWaiting(k, s[1..]);
    var i, j :| 0 <= i < j < |r| && r[i] == t && r[j] == u;
    if r == rest {
      StillInOrder(k, s[1..], t, u);
      Shifted(s, t, u);
    } else if i == 0 {
      assert u == rest[j - 1] && u in rest && u in s[1..];
      var n := IndexOf(s[1..], u);
      assert s[n + 1] == u;
    } else {
      assert rest[i - 1] == t && rest[j - 1] == u;
      StillInOrder(k, s[1..], t, u);
      Shifted(s, t, u);
    }
  }

  lemma Shifted(s: seq<TaskId>, t: TaskId, u: TaskId)
    requires s != [] && Before(s[1..], t, u)
    ensures Before(s, t, u)
  {
    var i, j :| 0 <= i < j < |s[1..]| && s[1..][i] == t && s[1..][j] == u;
    assert s[i + 1] == t && s[j + 1] == u;
  }

  /** A step of the scheduler changes of a mutex only its waiters: those that it
      took off every event list leave, and the others keep their order. */
  lemma KernelStepEffect(s: System, op: Op)
    requires GoodSystem(s) && Possible(s, KernelStep(op))
    ensures Steppable(s.c.k) && After(s, KernelStep(op)).c == Step(s.c, op)
    ensures var r := After(s, KernelStep(op));
            && r.mutexes.Keys == s.mutexes.Keys
            && forall m :: m in s.mutexes ==>
                 && m in r.mutexes
                 && r.mutexes[m] == s.mutexes[m].(waiters := r.mutexes[m].waiters)
                 && (forall t :: t in r.mutexes[m].waiters <==>
                       t in s.mutexes[m].waiters && t in r.c.k.tcbs && r.c.k.tcbs[t].event == OnEventList)
                 && forall t, u :: Before(r.mutexes[m].waiters, t, u) ==> Before(s.mutexes[m].waiters, t, u)
  {
    hide Good, Steppable, Step, AllExclusive, HeldCounts, Before;
    SystemGives(s);
    var r := After(s, KernelStep(op));
    forall m, t, u | m in s.mutexes && Before(r.mutexes[m].waiters, t, u) ensures Before(s.mutexes[m].waiters, t, u) {
      assert Queued(s.c.k, s.mutexes[m]);
      StillInOrder(r.c.k, s.mutexes[m].waiters, t, u);
    }
  }

  /** A new mutex is free; taking, giving, waiting and timing out are the steps
      whose effects are stated above, and none of them takes time. */
  lemma OperationIs(s: System, op: MutexOp)
    requires Possible(s, op) && !op.KernelStep?
    ensures op.m in s.mutexes <==> !op.NewMutex?
    ensures op.NewMutex? ==> After(s, op) == s.(mutexes := s.mutexes[op.m := Mutex(NoHolder, 1, op.recursive, 0, [])])
    ensures op.TakeMutex? ==> After(s, op) == Take(s, op.m).0
    ensures op.GiveMutex? ==> After(s, op) == Give(s, op.m).0
    ensures op.WaitMutex? ==> After(s, op) == Wait(s, op.m, op.ticks)
    ensures op.ExpireMutex? ==> After(s, op) == Expire(s, op.m, op.inherited)
    ensures After(s, op).c.now == s.c.now
  {
    hide Steppable, Placed, FineTcbs, Inherit, PlaceOnEventList, Disinherit, EventWake, DisinheritAfterTimeout;
  }
}
