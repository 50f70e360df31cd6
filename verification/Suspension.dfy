/** vTaskSuspendAll, ticks while suspended, and xTaskResumeAll (tasks.c). */
module Suspension {
  import opened Lists
  import opened Kernel
  import opened Ticks

  function SuspendAll(k: State): (r: State)
    ensures Placed(k) ==> Placed(r)
  {
    k.(suspendCount := k.suspendCount + 1)
  }

  function Unsuspend(k: State): (r: State)
    requires k.suspendCount > 0
    ensures Placed(k) ==> Placed(r)
  {
    k.(suspendCount := k.suspendCount - 1)
  }

  function PendTick(k: State): (r: State)
    ensures (Placed(k) ==> Placed(r)) && r.tcbs == k.tcbs && r.current == k.current && r.suspendCount == k.suspendCount
  {
    k.(pendedTicks := (k.pendedTicks + 1) % TICK_MODULUS)
  }

  /** xTaskIncrementTick */
  function IncrementTick(k: State): (r: (State, bool))
    requires Placed(k) && FineTcbs(k.tcbs) && k.current in k.tcbs
  {
    if k.suspendCount == 0 then TickNow(k)
    else (PendTick(k), false)
  }

  ghost predicate PendingKnown(k: State) {
    NoDuplicates(k.pending) && forall t :: t in k.pending ==> t in k.tcbs
  }

  function PendYield(k: State, wanted: bool): (r: State)
    ensures (Placed(k) ==> Placed(r)) && r.tcbs == k.tcbs && SameControl(k, r)
  {
    k.(yieldPending := k.yieldPending || wanted)
  }

  function Outranks(k: State, t: TaskId): bool
    requires t in k.tcbs && k.current in k.tcbs
  {
    k.tcbs[t].priority > k.tcbs[k.current].priority
  }

  /** The head of xPendingReadyList becomes ready, and a yield is pended if it
      outranks the running task. */
  function MoveOne(k: State): (r: State)
    requires Placed(k) && PendingKnown(k) && FineTcbs(k.tcbs) && k.current in k.tcbs && k.pending != []
    ensures Placed(r) && FineTcbs(r.tcbs) && PendingKnown(r) && SameControl(k, r)
    ensures |r.pending| < |k.pending|
  {
    var t := k.pending[0];
    assert t in k.pending;
    RemoveMembers(ListV(k.pending, 0), t);
    var m := Awaken(k, t);
    var higher := k.tcbs[t].priority > k.tcbs[k.current].priority;
    hide Placed, FineTcbs, Awaken, Remove;
    PendYield(m, higher)
  }

  /** The loop that empties xPendingReadyList. */
  function MovePending(k: State): (r: State)
    requires Placed(k) && PendingKnown(k) && FineTcbs(k.tcbs) && k.current in k.tcbs
    ensures Placed(r) && FineTcbs(r.tcbs) && SameControl(k, r)
    decreases |k.pending|
  {
    hide Placed, FineTcbs, PendingKnown, MoveOne;
    if k.pending == [] then k else MovePending(MoveOne(k))
  }

  /** The loop that replays the pended ticks. */
  function Replay(k: State, n: nat): (r: State)
    requires Placed(k) && FineTcbs(k.tcbs) && k.current in k.tcbs
    ensures Placed(r) && FineTcbs(r.tcbs) && SameControl(k, r)
    decreases n
  {
    hide Placed, FineTcbs, TickNow;
    if n == 0 then k
    else
      var r := TickNow(k);
      Replay(PendYield(r.0, r.1), n - 1)
  }

  function ClearPended(k: State): (r: State)
    ensures (Placed(k) ==> Placed(r)) && r.tcbs == k.tcbs
  {
    k.(pendedTicks := 0)
  }

  /** The pending tasks become ready; the unblock time is reset if there were any. */
  function Released(k: State): (r: State)
    requires Placed(k) && PendingKnown(k) && FineTcbs(k.tcbs) && k.current in k.tcbs
    ensures Placed(r) && FineTcbs(r.tcbs) && SameControl(k, r)
  {
    hide Placed, PendingKnown, FineTcbs, MovePending;
    var m := MovePending(k);
    if k.pending != [] then ResetNextUnblock(m) else m
  }

  /** xTaskResumeAll; it reports xAlreadyYielded when the result is unsuspended
      with a yield pending. */
  function ResumeAll(k: State): (r: State)
    requires Placed(k) && PendingKnown(k) && FineTcbs(k.tcbs) && k.current in k.tcbs && k.suspendCount > 0
  {
    var k1 := Unsuspend(k);
    if k1.suspendCount == 0 && k1.taskCount > 0 then
      var k2 := Released(k1);
      ClearPended(Replay(k2, k2.pendedTicks))
    else k1
  }

  // ----- suspended ticks ---------------------------------------------------------

  function PendTicks(k: State, n: nat): (r: State)
    requires Placed(k) && FineTcbs(k.tcbs) && k.current in k.tcbs && k.suspendCount > 0
    ensures Placed(r)
    decreases n
  {
    hide Placed, FineTcbs, TickNow;
    if n == 0 then k else PendTicks(IncrementTick(k).0, n - 1)
  }

  lemma WrapStep(a: nat, n: nat)
    requires n > 0
    ensures ((a + 1) % TICK_MODULUS + (n - 1)) % TICK_MODULUS == (a + n) % TICK_MODULUS
  {
  }

  lemma {:induction false} PendTicksCounts(k: State, n: nat)
    requires Placed(k) && FineTcbs(k.tcbs) && k.current in k.tcbs && k.suspendCount > 0
    requires k.pendedTicks < TICK_MODULUS
    ensures PendTicks(k, n) == k.(pendedTicks := (k.pendedTicks + n) % TICK_MODULUS)
    decreases n
  {
    hide Placed, FineTcbs, TickNow;
    if n > 0 {
      WrapStep(k.pendedTicks, n);
      PendTicksCounts(IncrementTick(k).0, n - 1);
    }
  }

  lemma ResetKeeps(k: State, now: nat, due: map<TaskId, nat>, low: nat)
    requires Sound(k, now, due, low)
    ensures Sound(ResetNextUnblock(k), now, due, low)
  {
    hide Counted, FineTcbs, Evented;
    var cur := k.lists[CurrentDelayed(k)].items;
    assert cur != [] ==> cur[0] in cur;
    ResetKeepsFine(k);
  }

  lemma PendYieldKeeps(k: State, wanted: bool, now: nat, due: map<TaskId, nat>, low: nat)
    requires Sound(k, now, due, low)
    ensures Sound(PendYield(k, wanted), now, due, low)
  {
    hide DueIn, FineTcbs;
  }

  // ----- resuming ------------------------------------------------------------------

  ghost function Members(s: seq<TaskId>): iset<TaskId> {
    iset t | t in s
  }

  lemma MembersSplit(s: seq<TaskId>, t: TaskId)
    requires NoDuplicates(s) && t in s
    ensures Members(s) == iset{t} + Members(Remove(ListV(s, 0), t).items)
  {
    RemoveMembers(ListV(s, 0), t);
  }

  lemma MoveOneIs(k: State)
    requires Placed(k) && PendingKnown(k) && FineTcbs(k.tcbs) && k.current in k.tcbs && k.pending != []
    ensures k.pending[0] in k.tcbs
    ensures MoveOne(k) == PendYield(Awaken(k, k.pending[0]), Outranks(k, k.pending[0]))
  {
    assert k.pending[0] in k.pending;
    hide Placed, FineTcbs, Awaken;
  }

  lemma MoveOneKeeps(k: State, now: nat, due: map<TaskId, nat>, low: nat)
    requires Sound(k, now, due, low) && k.pending != []
    ensures PendingKnown(k) && Sound(MoveOne(k), now, due, low)
    ensures WokeExactly(k, MoveOne(k), iset{k.pending[0]})
    ensures Members(k.pending) == iset{k.pending[0]} + Members(MoveOne(k).pending)
  {
    hide Sound, Awaken, MoveOne, Placed, FineTcbs, Remove, Members, NoDuplicates, WokeExactly;
    SoundGives(k, now, due, low);
    MoveOneIs(k);
    var t := k.pending[0];
    assert t in k.pending;
    var m, higher := Awaken(k, t), Outranks(k, t);
    PendingAlive(k, t, now, due, low);
    AwakenKeeps(k, t, now, due, low);
    AwakenWakes(k, t);
    PendYieldKeeps(m, higher, now, due, low);
    WokeSame(k, m, k, PendYield(m, higher), iset{t});
    MembersSplit(k.pending, t);
  }

  lemma PendingAlive(k: State, t: TaskId, now: nat, due: map<TaskId, nat>, low: nat)
    requires Sound(k, now, due, low) && t in k.pending
    ensures t in k.tcbs && k.tcbs[t].list != Termination
  {
    hide Clocked;
  }

  /** Every task on the pending-ready list becomes ready, and nothing else moves. */
  lemma {:induction false} MovePendingKeeps(k: State, now: nat, due: map<TaskId, nat>, low: nat)
    requires Sound(k, now, due, low)
    ensures PendingKnown(k) && Sound(MovePending(k), now, due, low)
    ensures MovePending(k).pending == []
    ensures WokeExactly(k, MovePending(k), Members(k.pending))
    decreases |k.pending|
  {
    assert Placed(k) && PendingKnown(k) && FineTcbs(k.tcbs) && k.current in k.tcbs;
    if k.pending != [] {
      hide Sound, WokeExactly, MoveOne, Members, Placed, PendingKnown, FineTcbs;
      MoveOneKeeps(k, now, due, low);
      MovePendingKeeps(MoveOne(k), now, due, low);
      WokeBoth(k, MoveOne(k), MovePending(k), iset{k.pending[0]}, Members(MoveOne(k).pending));
    }
  }

  /** The tasks whose deadline lies after now, up to later. */
  ghost function WakesIn(k: State, now: nat, later: nat, due: map<TaskId, nat>): iset<TaskId> {
    iset t | OnDelayedList(k, t) && t in due && now < due[t] <= later
  }

  lemma WakesInSplit(k: State, m: State, now: nat, later: nat, due: map<TaskId, nat>)
    requires now < later && WokeExactly(k, m, WakesAt(k, now + 1, due))
    ensures WakesIn(k, now, later, due) == WakesAt(k, now + 1, due) + WakesIn(m, now + 1, later, due)
  {
  }

  lemma ReplayStep(k: State, later: nat, now: nat, due: map<TaskId, nat>)
    requires Sound(k, now, due, now + 1) && now < later
    ensures var m := PendYield(TickNow(k).0, TickNow(k).1);
            && Sound(m, now + 1, due, now + 2) && WokeExactly(k, m, WakesAt(k, now + 1, due))
            && WakesIn(k, now, later, due) == WakesAt(k, now + 1, due) + WakesIn(m, now + 1, later, due)
  {
    hide Sound, TickNow, Placed, FineTcbs, WakesIn, WakesAt, SameControl;
    SoundGives(k, now, due, now + 1);
    TickIsExact(k, now, due);
    var r := TickNow(k);
    PendYieldKeeps(r.0, r.1, now + 1, due, now + 2);
    assert WokeExactly(k, PendYield(r.0, r.1), WakesAt(k, now + 1, due));
    hide WokeExactly;
    WakesInSplit(k, PendYield(r.0, r.1), now, later, due);
  }

  lemma ReplayNone(k: State, now: nat, due: map<TaskId, nat>)
    ensures WokeExactly(k, k, WakesIn(k, now, now, due))
  {
  }

  lemma ReplayUnfolds(k: State, n: nat)
    requires Placed(k) && FineTcbs(k.tcbs) && k.current in k.tcbs
    ensures Replay(k, n) == if n == 0 then k else Replay(PendYield(TickNow(k).0, TickNow(k).1), n - 1)
  {
    hide Placed, FineTcbs, TickNow;
  }

  /** The replayed ticks wake exactly the tasks whose deadline they cover. */
  lemma {:induction false} ReplayIsExact(k: State, n: nat, now: nat, due: map<TaskId, nat>)
    requires Sound(k, now, due, now + 1)
    ensures Sound(Replay(k, n), now + n, due, now + n + 1)
    ensures WokeExactly(k, Replay(k, n), WakesIn(k, now, now + n, due))
    decreases n
  {
    hide *;
    SoundGives(k, now, due, now + 1);
    ReplayUnfolds(k, n);
    if n == 0 {
      ReplayNone(k, now, due);
    } else {
      var m := PendYield(TickNow(k).0, TickNow(k).1);
      ReplayStep(k, now + n, now, due);
      SoundGives(m, now + 1, due, now + 2);
      ReplayIsExact(m, n - 1, now + 1, due);
      WokeBoth(k, m, Replay(m, n - 1), WakesAt(k, now + 1, due), WakesIn(m, now + 1, now + n, due));
    }
  }

  lemma ControlKeeps(k: State, now: nat, due: map<TaskId, nat>, low: nat)
    requires Sound(k, now, due, low)
    ensures Sound(SuspendAll(k), now, due, low) && Sound(ClearPended(k), now, due, low)
    ensures Sound(PendTick(k), now, due, low)
    ensures k.suspendCount > 0 ==> Sound(Unsuspend(k), now, due, low)
  {
    hide Sound;
    SameBooks(k, SuspendAll(k), now, due, low);
    SameBooks(k, ClearPended(k), now, due, low);
    SameBooks(k, PendTick(k), now, due, low);
    if k.suspendCount > 0 {
      SameBooks(k, Unsuspend(k), now, due, low);
    }
  }

  lemma SameBooks(k: State, r: State, now: nat, due: map<TaskId, nat>, low: nat)
    requires Sound(k, now, due, low) && r == k.(suspendCount := r.suspendCount, pendedTicks := r.pendedTicks)
    ensures Sound(r, now, due, low)
  {
    hide DueIn, FineTcbs, WellFormed, Evented;
    SameEvents(k, r);
  }

  lemma ReleasedKeeps(k: State, now: nat, due: map<TaskId, nat>, low: nat)
    requires Sound(k, now, due, low)
    ensures Placed(k) && PendingKnown(k) && FineTcbs(k.tcbs) && k.current in k.tcbs
    ensures Sound(Released(k), now, due, low) && Released(k).pending == []
    ensures WokeExactly(k, Released(k), Members(k.pending))
  {
    hide Sound, Placed, FineTcbs, MovePending, PendingKnown;
    SoundGives(k, now, due, low);
    MovePendingKeeps(k, now, due, low);
    ResetKeeps(MovePending(k), now, due, low);
  }

  lemma WakesInRest(k: State, m: State, now: nat, later: nat, due: map<TaskId, nat>)
    requires WokeExactly(k, m, Members(k.pending)) && forall t :: t in k.pending ==> t in k.tcbs
    ensures Members(k.pending) + WakesIn(m, now, later, due) == Members(k.pending) + WakesIn(k, now, later, due)
  {
  }

  lemma ResumeAllIs(k: State, now: nat, due: map<TaskId, nat>)
    requires Sound(k, now, due, now + 1) && k.suspendCount == 1
    ensures Placed(k) && PendingKnown(k) && FineTcbs(k.tcbs) && k.current in k.tcbs
    ensures PendingKnown(Unsuspend(k))
    ensures var k2 := Released(Unsuspend(k)); ResumeAll(k) == ClearPended(Replay(k2, k2.pendedTicks))
  {
    hide Sound, Placed, FineTcbs, Released, Replay;
    SoundGives(k, now, due, now + 1);
  }

  /** The outermost resume readies exactly the pended tasks and those whose
      deadline lies within the pended ticks. */
  lemma OutermostResume(k: State, now: nat, due: map<TaskId, nat>)
    requires Sound(k, now, due, now + 1) && k.suspendCount == 1
    ensures Placed(k) && PendingKnown(k) && FineTcbs(k.tcbs) && k.current in k.tcbs
    ensures var r := ResumeAll(k);
            && Sound(r, now + k.pendedTicks, due, now + k.pendedTicks + 1)
            && r.suspendCount == 0 && r.pending == [] && r.pendedTicks == 0
            && WokeExactly(k, r, Members(k.pending) + WakesIn(k, now, now + k.pendedTicks, due))
  {
    hide Sound, Placed, FineTcbs, Released, Replay, WokeExactly, Members, WakesIn, PendingKnown, ResumeAll, SameControl;
    SoundGives(k, now, due, now + 1);
    ResumeAllIs(k, now, due);
    var k2, n := Released(Unsuspend(k)), k.pendedTicks;
    ReleasedFrom(k, now, due);
    WakesInRest(k, k2, now, now + n, due);
    ReplayedFrom(k2, n, now, due);
    var r := ClearPended(Replay(k2, n));
    WokeBoth(k, k2, r, Members(k.pending), WakesIn(k2, now, now + n, due));
  }

  lemma ReleasedFrom(k: State, now: nat, due: map<TaskId, nat>)
    requires Sound(k, now, due, now + 1) && k.suspendCount == 1
    ensures var k1 := Unsuspend(k);
            && Placed(k1) && PendingKnown(k1) && FineTcbs(k1.tcbs) && k1.current in k1.tcbs
            && var k2 := Released(k1);
               && Sound(k2, now, due, now + 1) && WokeExactly(k, k2, Members(k.pending))
               && k2.pending == [] && k2.pendedTicks == k.pendedTicks && k2.suspendCount == 0
  {
    hide Sound, Placed, FineTcbs, Released, WokeExactly, Members, PendingKnown;
    ControlKeeps(k, now, due, now + 1);
    var k1 := Unsuspend(k);
    ReleasedKeeps(k1, now, due, now + 1);
    WokeSame(k1, Released(k1), k, Released(k1), Members(k.pending));
  }

  lemma ReplayedFrom(k: State, n: nat, now: nat, due: map<TaskId, nat>)
    requires Sound(k, now, due, now + 1)
    ensures Placed(k) && FineTcbs(k.tcbs) && k.current in k.tcbs
    ensures var r := ClearPended(Replay(k, n));
            && Sound(r, now + n, due, now + n + 1) && WokeExactly(k, r, WakesIn(k, now, now + n, due))
            && r.suspendCount == k.suspendCount && (k.pending == [] ==> r.pending == []) && r.pendedTicks == 0
  {
    hide Sound, Placed, FineTcbs, Replay, WokeExactly, WakesIn;
    SoundGives(k, now, due, now + 1);
    ReplayIsExact(k, n, now, due);
    var r := Replay(k, n);
    ControlKeeps(r, now + n, due, now + n + 1);
    WokeSame(k, r, k, ClearPended(r), WakesIn(k, now, now + n, due));
  }
}
