/** When the resumption of the scheduler pends a yield. */
module Yields {
  import opened Lists
  import opened Kernel
  import opened Ticks
  import opened Suspension
  import opened Lifecycle
  import opened Runs
  import opened Preemption
  import Transparency

  /** One of the tasks outranks the running one. */
  ghost predicate AnyOutranks(k: State, tasks: iset<TaskId>)
    requires k.current in k.tcbs
  {
    exists t :: t in tasks && t in k.tcbs && k.tcbs[t].priority > k.tcbs[k.current].priority
  }

  lemma SameOutranks(k: State, m: State, woken: iset<TaskId>, tasks: iset<TaskId>)
    requires WokeExactly(k, m, woken) && m.current == k.current && k.current in k.tcbs
    ensures m.current in m.tcbs && (AnyOutranks(m, tasks) <==> AnyOutranks(k, tasks))
  {
    SameRanks(k, m, woken);
  }

  lemma EitherOutranks(k: State, a: iset<TaskId>, b: iset<TaskId>)
    requires k.current in k.tcbs
    ensures AnyOutranks(k, a + b) <==> AnyOutranks(k, a) || AnyOutranks(k, b)
  {
  }

  lemma OneOutranks(k: State, t: TaskId)
    requires k.current in k.tcbs && t in k.tcbs
    ensures AnyOutranks(k, iset{t}) <==> Outranks(k, t)
  {
  }

  /** Tasks that are ready stay ready while others wake. */
  lemma StaysContended(k: State, r: State, woken: iset<TaskId>)
    requires WokeExactly(k, r, woken) && Indexed(k) && r.current == k.current && k.current in k.tcbs
    requires Contended(k)
    ensures r.current in r.tcbs && Contended(r)
  {
    SameRanks(k, r, woken);
    var t, u :| t in k.tcbs && u in k.tcbs && t != u
                && k.tcbs[t].list == k.tcbs[u].list == Ready(k.tcbs[k.current].priority);
    assert r.tcbs[t].list == r.tcbs[u].list == Ready(r.tcbs[r.current].priority);
  }

  /** The replayed ticks pend a yield exactly when one was pending, a task that
      they wake outranks the running one, or in the end two tasks are ready at
      its priority. */
  lemma {:induction false} ReplayYields(k: State, n: nat, now: nat, due: map<TaskId, nat>)
    requires Sound(k, now, due, now + 1)
    ensures Placed(k) && FineTcbs(k.tcbs) && k.current in k.tcbs
    ensures var r := Replay(k, n);
            && r.current in r.tcbs
            && (r.yieldPending <==> || k.yieldPending || AnyOutranks(k, WakesIn(k, now, now + n, due))
                                    || (n > 0 && Contended(r)))
    decreases n
  {
    hide *;
    SoundGives(k, now, due, now + 1);
    ReplayUnfolds(k, n);
    if n == 0 {
      NoneWakes(k, now, due);
    } else {
      var m, woken := PendYield(TickNow(k).0, TickNow(k).1), WakesAt(k, now + 1, due);
      var later := WakesIn(m, now + 1, now + n, due);
      ReplayStep(k, now + n, now, due);
      ReplayYields(m, n - 1, now + 1, due);
      TickYields(k, now, due);
      EitherOutranks(k, woken, later);
      SameOutranks(k, m, woken, later);
      if n == 1 {
        ReplayUnfolds(m, 0);
      } else if Contended(m) {
        SoundGives(m, now + 1, due, now + 2);
        ReplayIsExact(m, n - 1, now + 1, due);
        ReplayControl(m, n - 1);
        StaysContended(m, Replay(m, n - 1), WakesIn(m, now + 1, now + n, due));
      }
    }
  }

  lemma ReplayControl(k: State, n: nat)
    requires Placed(k) && FineTcbs(k.tcbs) && k.current in k.tcbs
    ensures Replay(k, n).current == k.current && Replay(k, n).current in Replay(k, n).tcbs
  {
    hide Placed, FineTcbs, Replay;
  }

  lemma NoneWakes(k: State, now: nat, due: map<TaskId, nat>)
    requires k.current in k.tcbs
    ensures !AnyOutranks(k, WakesIn(k, now, now, due))
  {
  }

  lemma TickYields(k: State, now: nat, due: map<TaskId, nat>)
    requires Sound(k, now, due, now + 1)
    ensures Placed(k) && FineTcbs(k.tcbs) && k.current in k.tcbs
    ensures var m := PendYield(TickNow(k).0, TickNow(k).1);
            && m.current == k.current && m.current in m.tcbs
            && (m.yieldPending <==> || k.yieldPending || AnyOutranks(k, WakesAt(k, now + 1, due)) || Contended(m))
  {
    hide Sound, Placed, FineTcbs, TickNow, Contended, WakesAt;
    SoundGives(k, now, due, now + 1);
    SwitchRequiredWhen(k, now, due);
    Transparency.TickIgnoresLabels(k, false, 0);
    SameContention(TickNow(k).0, PendYield(TickNow(k).0, TickNow(k).1));
  }

  lemma SameContention(k: State, r: State)
    requires r.tcbs == k.tcbs && r.current == k.current && k.current in k.tcbs
    ensures Contended(r) <==> Contended(k)
  {
  }

  /** So do the pending tasks: when one of them outranks the running one. */
  lemma {:induction false} MovePendingYields(k: State, now: nat, due: map<TaskId, nat>, low: nat)
    requires Sound(k, now, due, low)
    ensures Placed(k) && PendingKnown(k) && FineTcbs(k.tcbs) && k.current in k.tcbs
    ensures MovePending(k).yieldPending <==> k.yieldPending || AnyOutranks(k, Members(k.pending))
    decreases |k.pending|
  {
    hide Sound, Placed, FineTcbs, MoveOne, NoDuplicates, Members, AnyOutranks, WokeExactly;
    SoundGives(k, now, due, low);
    if k.pending == [] {
      NoneOutranks(k);
    } else {
      var t, m := k.pending[0], MoveOne(k);
      MoveOneIs(k);
      MoveOneKeeps(k, now, due, low);
      MovePendingYields(m, now, due, low);
      OneOutranks(k, t);
      EitherOutranks(k, iset{t}, Members(m.pending));
      SameOutranks(k, m, iset{t}, Members(m.pending));
      MoveOneYields(k);
    }
  }

  lemma NoneOutranks(k: State)
    requires k.current in k.tcbs && k.pending == []
    ensures !AnyOutranks(k, Members(k.pending))
  {
  }

  lemma MoveOneYields(k: State)
    requires Placed(k) && PendingKnown(k) && FineTcbs(k.tcbs) && k.current in k.tcbs && k.pending != []
    ensures k.pending[0] in k.tcbs
    ensures MoveOne(k).yieldPending <==> k.yieldPending || Outranks(k, k.pending[0])
  {
    hide Placed, FineTcbs, Awaken, MoveOne;
    MoveOneIs(k);
  }

  /** The outermost resumption pends a yield exactly when one was pending, a task
      that it readies outranks the running one, be it a pending task or one
      whose time has come, or it replays ticks and two tasks are then ready at
      the running task's priority. */
  lemma ResumeYields(c: Config)
    requires Good(c) && Enabled(c.k, ResumeScheduler) && c.k.suspendCount == 1
    ensures Steppable(c.k) && c.k.current in c.k.tcbs
    ensures var k, r := c.k, Step(c, ResumeScheduler).k;
            && r.current == k.current && r.current in r.tcbs
            && (r.yieldPending <==>
                  || k.yieldPending
                  || AnyOutranks(k, Members(k.pending) + WakesIn(k, c.now, c.now + k.pendedTicks, c.due))
                  || (k.pendedTicks > 0 && Contended(r)))
  {
    hide Sound, Placed, FineTcbs, SomeReady, PendingKnown, ResumeAll, Released, Replay, Members, WakesIn;
    hide AnyOutranks, Contended, WokeExactly;
    var k, n := c.k, c.k.pendedTicks;
    InvGives(k, c.now, c.due);
    ResumeAllIs(k, c.now, c.due);
    ReleasedFrom(k, c.now, c.due);
    var k2 := Released(Unsuspend(k));
    ReleasedYields(k, c.now, c.due);
    ReplayYields(k2, n, c.now, c.due);
    ReplayControl(k2, n);
    SameOutranks(k, k2, Members(k.pending), WakesIn(k2, c.now, c.now + n, c.due));
    PendingInTasks(k);
    WakesInRest(k, k2, c.now, c.now + n, c.due);
    EitherOutranks(k, Members(k.pending), WakesIn(k, c.now, c.now + n, c.due));
    EitherOutranks(k, Members(k.pending), WakesIn(k2, c.now, c.now + n, c.due));
    SameContention(Replay(k2, n), ClearPended(Replay(k2, n)));
  }

  lemma PendingInTasks(k: State)
    requires PendingKnown(k)
    ensures forall t :: t in k.pending ==> t in k.tcbs
  {
  }

  lemma ReleasedYields(k: State, now: nat, due: map<TaskId, nat>)
    requires Sound(k, now, due, now + 1) && k.suspendCount == 1
    ensures var k1 := Unsuspend(k);
            && Placed(k1) && PendingKnown(k1) && FineTcbs(k1.tcbs) && k1.current in k1.tcbs && k.current in k.tcbs
            && Released(k1).current == k.current
            && (Released(k1).yieldPending <==> k.yieldPending || AnyOutranks(k, Members(k.pending)))
  {
    hide Sound, Placed, FineTcbs, MovePending, Members, PendingKnown, ResetNextUnblock, AnyOutranks;
    var k1 := Unsuspend(k);
    SoundGives(k, now, due, now + 1);
    ControlKeeps(k, now, due, now + 1);
    SoundGives(k1, now, due, now + 1);
    MovePendingYields(k1, now, due, now + 1);
    ResetTasks(MovePending(k1));
    SameRanking(k, k1, Members(k.pending));
  }

  lemma SameRanking(k: State, r: State, tasks: iset<TaskId>)
    requires r.tcbs == k.tcbs && r.current == k.current && k.current in k.tcbs
    ensures AnyOutranks(r, tasks) <==> AnyOutranks(k, tasks)
  {
  }
}
