/** xTaskIncrementTick (tasks.c) against a clock that never wraps. */
module Ticks {
  import opened Lists
  import opened Kernel

  /** What every scheduler call keeps; now is the unbounded tick count and due
      the true deadline of each blocked task. */
  ghost predicate Inv(k: State, now: nat, due: map<TaskId, nat>) {
    Sound(k, now, due, now + 1) && Quiet(k)
  }

  /** Nothing is held back while the scheduler runs. */
  ghost predicate Quiet(k: State) {
    k.suspendCount == 0 ==> k.pending == [] && k.pendedTicks == 0
  }

  ghost predicate OnDelayedList(k: State, t: TaskId) {
    t in k.tcbs && (k.tcbs[t].list == Delayed1 || k.tcbs[t].list == Delayed2)
  }

  /** What neither ticks nor wake-ups touch. */
  predicate SameControl(k: State, r: State) {
    && r.tcbs.Keys == k.tcbs.Keys && r.current == k.current && r.idle == k.idle
    && r.suspendCount == k.suspendCount && r.pendedTicks == k.pendedTicks
    && (k.pending == [] ==> r.pending == [])
  }

  // ----- one tick -------------------------------------------------------------

  /** prvResetNextTaskUnblockTime */
  function ResetNextUnblock(k: State): (r: State)
    requires Placed(k)
    ensures Placed(r)
  {
    var cur := k.lists[CurrentDelayed(k)].items;
    k.(nextUnblock := if cur == [] then MAX_DELAY else assert cur[0] in cur; k.tcbs[cur[0]].wake)
  }

  /** The increment, with taskSWITCH_DELAYED_LISTS when the count wraps. */
  function AdvanceTick(k: State): (r: State)
    requires Placed(k)
    ensures Placed(r) && r.tcbs == k.tcbs && SameControl(k, r)
  {
    var k1 := k.(tick := (k.tick + 1) % TICK_MODULUS);
    if k1.tick == 0 then
      ResetNextUnblock(k1.(firstIsCurrent := !k.firstIsCurrent, overflows := (k.overflows + 1) % TICK_MODULUS))
    else k1
  }

  /** A task leaves the lists of both of its items and becomes ready. */
  function Awaken(k: State, t: TaskId): (r: State)
    requires Placed(k) && FineTcbs(k.tcbs) && t in k.tcbs
    ensures Placed(r) && FineTcbs(r.tcbs) && SameControl(k, r)
    ensures var from := k.tcbs[t].list; from.Ready? || r.lists[from] == Remove(k.lists[from], t)
    ensures CurrentDelayed(r) == CurrentDelayed(k)
    ensures r.pending == if t in k.pending then Remove(ListV(k.pending, 0), t).items else k.pending
    ensures r.yieldPending == k.yieldPending
  {
    var r := MakeReady(ClearEvent(k, t), t);
    hide Placed;
    r
  }

  /** The loop that unblocks every task whose time has come; the second result
      says whether one of them outranks the running task. */
  function Drain(k: State): (r: (State, bool))
    requires Placed(k) && FineTcbs(k.tcbs) && k.current in k.tcbs
    ensures Placed(r.0) && FineTcbs(r.0.tcbs) && SameControl(k, r.0)
    decreases |k.lists[CurrentDelayed(k)].items|
  {
    var cur := k.lists[CurrentDelayed(k)].items;
    assert cur != [] ==> cur[0] in cur;
    if cur == [] || k.tick < k.tcbs[cur[0]].wake then
      hide FineTcbs;
      (ResetNextUnblock(k), false)
    else
      var t := cur[0];
      RemoveMembers(k.lists[CurrentDelayed(k)], t);
      assert k.tcbs[t].list == CurrentDelayed(k);
      hide Placed, FineTcbs, Awaken, Remove;
      var r := Drain(Awaken(k, t));
      (r.0, r.1 || k.tcbs[t].priority > k.tcbs[k.current].priority)
  }

  function DrainIfDue(a: State): (r: (State, bool))
    requires Placed(a) && FineTcbs(a.tcbs) && a.current in a.tcbs
    ensures Placed(r.0) && FineTcbs(r.0.tcbs) && SameControl(a, r.0)
  {
    hide Placed, FineTcbs, Drain;
    if a.tick >= a.nextUnblock then Drain(a) else (a, false)
  }

  /** Time slicing: another task is ready at the running task's priority. */
  predicate SharesPriority(k: State)
    requires Placed(k) && k.current in k.tcbs
  {
    var p := k.tcbs[k.current].priority;
    p < MAX_PRIORITIES && |k.lists[Ready(p)].items| > 1
  }

  /** xTaskIncrementTick while the scheduler is not suspended; the second
      result is xSwitchRequired. */
  function TickNow(k: State): (r: (State, bool))
    requires Placed(k) && FineTcbs(k.tcbs) && k.current in k.tcbs
    ensures Placed(r.0) && FineTcbs(r.0.tcbs) && SameControl(k, r.0)
  {
    hide Placed, FineTcbs, DrainIfDue;
    var d := DrainIfDue(AdvanceTick(k));
    (d.0, d.1 || SharesPriority(d.0) || d.0.yieldPending)
  }

  // ----- exactness ---------------------------------------------------------------

  /** While a task is due in this epoch, the next tick does not wrap. */
  lemma NoWrapYet(k: State, now: nat, due: map<TaskId, nat>)
    requires Placed(k) && Clocked(k, now, due, now + 1) && k.lists[CurrentDelayed(k)].items != []
    ensures (k.tick + 1) % TICK_MODULUS != 0
  {
    var cur := k.lists[CurrentDelayed(k)].items;
    assert cur[0] in cur;
  }

  /** The assertion in taskSWITCH_DELAYED_LISTS never fails. */
  lemma EmptyAtWrap(k: State, now: nat, due: map<TaskId, nat>)
    requires Placed(k) && Clocked(k, now, due, now + 1) && (k.tick + 1) % TICK_MODULUS == 0
    ensures k.lists[CurrentDelayed(k)].items == []
  {
    if k.lists[CurrentDelayed(k)].items != [] {
      NoWrapYet(k, now, due);
    }
  }

  lemma DueInLow(tcbs: map<TaskId, Tcb>, s: seq<TaskId>, due: map<TaskId, nat>, epoch: nat, low: nat, low': nat)
    requires DueIn(tcbs, s, due, epoch, low)
    requires forall t :: t in s ==> low' <= due[t]
    ensures DueIn(tcbs, s, due, epoch, low')
  {
  }

  lemma DueInEmpty(tcbs: map<TaskId, Tcb>, due: map<TaskId, nat>, epoch: nat, low: nat)
    ensures DueIn(tcbs, [], due, epoch, low)
  {
  }

  lemma AdvanceOverWrap(k: State, now: nat, due: map<TaskId, nat>)
    requires Placed(k) && Clocked(k, now, due, now + 1) && (k.tick + 1) % TICK_MODULUS == 0
    ensures Clocked(AdvanceTick(k), now + 1, due, now + 1)
  {
    hide Placed;
    EmptyAtWrap(k, now, due);
    OverflowIsLate(k, now, due);
    assert (now + 1) / TICK_MODULUS == now / TICK_MODULUS + 1;
    DueInEmpty(k.tcbs, due, now / TICK_MODULUS + 2, 0);
  }

  lemma OverflowIsLate(k: State, now: nat, due: map<TaskId, nat>)
    requires Placed(k) && Clocked(k, now, due, now + 1)
    ensures DueIn(k.tcbs, k.lists[OverflowDelayed(k)].items, due, now / TICK_MODULUS + 1, now + 1)
    ensures var cur := k.lists[OverflowDelayed(k)].items; cur != [] ==> cur[0] in cur && cur[0] in k.tcbs
    ensures AdvanceTick(k).tick == 0 ==> AdvanceTick(k).nextUnblock <= MAX_DELAY
  {
    var cur := k.lists[OverflowDelayed(k)].items;
    DueInLow(k.tcbs, cur, due, now / TICK_MODULUS + 1, 0, now + 1);
    assert cur != [] ==> cur[0] in cur;
  }

  lemma AdvanceInEpoch(k: State, now: nat, due: map<TaskId, nat>)
    requires Placed(k) && Clocked(k, now, due, now + 1) && (k.tick + 1) % TICK_MODULUS != 0
    ensures Clocked(AdvanceTick(k), now + 1, due, now + 1)
  {
    hide DueIn, Placed;
    assert (now + 1) / TICK_MODULUS == now / TICK_MODULUS;
  }

  lemma AdvanceKeeps(k: State, now: nat, due: map<TaskId, nat>)
    requires Sound(k, now, due, now + 1)
    ensures Sound(AdvanceTick(k), now + 1, due, now + 1)
  {
    hide Clocked;
    if (k.tick + 1) % TICK_MODULUS == 0 {
      AdvanceOverWrap(k, now, due);
    } else {
      AdvanceInEpoch(k, now, due);
    }
    AdvanceKeepsFine(k);
    hide Fine;
  }

  lemma AdvanceKeepsFine(k: State)
    requires Fine(k)
    ensures Fine(AdvanceTick(k)) && AdvanceTick(k).tcbs == k.tcbs
  {
    hide FineTcbs;
  }

  /** Sorted: once the head is late enough, every later item is too. */
  lemma HeadIsEarliest(tcbs: map<TaskId, Tcb>, s: seq<TaskId>, due: map<TaskId, nat>, epoch: nat, low: nat, t: TaskId)
    requires DueIn(tcbs, s, due, epoch, low) && t in s
    ensures s[0] in s && tcbs[s[0]].wake <= tcbs[t].wake && due[s[0]] <= due[t]
  {
    var i := IndexOf(s, t);
    assert Keys(tcbs, s)[0] <= Keys(tcbs, s)[i];
  }

  lemma AwakenKeeps(k: State, t: TaskId, now: nat, due: map<TaskId, nat>, low: nat)
    requires Sound(k, now, due, low)
    requires t in k.tcbs && k.tcbs[t].list != Termination
    ensures Sound(Awaken(k, t), now, due, low)
  {
    ClearEventKeeps(k, t, now, due, low);
    MakeReadyKeeps(ClearEvent(k, t), t, now, due, low);
  }

  /** Exactly the tasks on the current list that are due now are woken; no
      other task moves. */
  ghost predicate WokeExactly(k: State, r: State, woken: iset<TaskId>) {
    && r.tcbs.Keys == k.tcbs.Keys
    && forall t :: t in k.tcbs ==>
         r.tcbs[t] == if t in woken
                      then k.tcbs[t].(list := Ready(k.tcbs[t].priority), event := Nowhere)
                      else k.tcbs[t]
  }

  lemma ResetKeepsFine(k: State)
    requires Fine(k)
    ensures Fine(ResetNextUnblock(k))
  {
    hide FineTcbs, Evented;
    SameEvents(k, ResetNextUnblock(k));
  }

  lemma DrainEnds(k: State, now: nat, due: map<TaskId, nat>)
    requires Sound(k, now, due, now)
    requires var cur := k.lists[CurrentDelayed(k)].items;
             cur == [] || (assert cur[0] in cur; k.tick < k.tcbs[cur[0]].wake)
    ensures Sound(ResetNextUnblock(k), now, due, now + 1)
    ensures forall t :: t in k.lists[CurrentDelayed(k)].items ==> now < due[t]
  {
    hide Counted, FineTcbs, Evented;
    ResetKeepsFine(k);
    var cur := k.lists[CurrentDelayed(k)].items;
    forall t | t in cur ensures now < due[t] {
      HeadIsEarliest(k.tcbs, cur, due, now / TICK_MODULUS, now, t);
    }
    DueInLow(k.tcbs, cur, due, now / TICK_MODULUS, now, now + 1);
  }

  lemma AwakenWakes(k: State, t: TaskId)
    requires Placed(k) && FineTcbs(k.tcbs) && t in k.tcbs
    ensures var r, from := Awaken(k, t), k.tcbs[t].list;
            && WokeExactly(k, r, iset{t})
            && (from.Ready? || r.lists[from] == Remove(k.lists[from], t))
            && r.tick == k.tick && r.firstIsCurrent == k.firstIsCurrent
  {
    hide FineTcbs;
  }

  lemma WokeBoth(k: State, m: State, r: State, a: iset<TaskId>, b: iset<TaskId>)
    requires WokeExactly(k, m, a) && WokeExactly(m, r, b)
    ensures WokeExactly(k, r, a + b)
  {
  }

  lemma HeadIsDue(k: State, now: nat, due: map<TaskId, nat>, low: nat)
    requires Placed(k) && Clocked(k, now, due, low) && low >= now
    requires var cur := k.lists[CurrentDelayed(k)].items;
             cur != [] && (assert cur[0] in cur; k.tcbs[cur[0]].wake <= k.tick)
    ensures var t := k.lists[CurrentDelayed(k)].items[0];
            t in k.tcbs && k.tcbs[t].list == CurrentDelayed(k) && t in due && due[t] == now
  {
    var cur := k.lists[CurrentDelayed(k)].items;
    assert cur[0] in cur;
  }

  ghost function DueNow(k: State, now: nat, due: map<TaskId, nat>): iset<TaskId>
    requires Placed(k)
  {
    iset t | t in k.lists[CurrentDelayed(k)].items && t in due && due[t] == now
  }

  ghost predicate HeadExpired(k: State)
    requires Placed(k)
  {
    var cur := k.lists[CurrentDelayed(k)].items;
    cur != [] && (assert cur[0] in cur; k.tcbs[cur[0]].wake <= k.tick)
  }

  lemma DrainUnfolds(k: State)
    requires Placed(k) && FineTcbs(k.tcbs) && k.current in k.tcbs
    ensures !HeadExpired(k) ==> Drain(k) == (ResetNextUnblock(k), false)
    ensures CurrentDelayed(k) in k.lists && (HeadExpired(k) ==> k.lists[CurrentDelayed(k)].items != [])
    ensures HeadExpired(k) ==>
              var t := k.lists[CurrentDelayed(k)].items[0];
              && t in k.lists[CurrentDelayed(k)].items && t in k.tcbs
              && k.tcbs[t].list == CurrentDelayed(k)
              && var r := Drain(Awaken(k, t));
                 Drain(k) == (r.0, r.1 || k.tcbs[t].priority > k.tcbs[k.current].priority)
  {
    hide Awaken, ResetNextUnblock, Remove, FineTcbs;
    var cur := k.lists[CurrentDelayed(k)].items;
    assert cur != [] ==> cur[0] in cur;
  }

  lemma DueNowSplits(k: State, t: TaskId, now: nat, due: map<TaskId, nat>)
    requires Placed(k) && FineTcbs(k.tcbs) && t in k.lists[CurrentDelayed(k)].items && t in due && due[t] == now
    ensures DueNow(k, now, due) == iset{t} + DueNow(Awaken(k, t), now, due)
  {
    hide Awaken, FineTcbs;
    assert t in k.tcbs && k.tcbs[t].list == CurrentDelayed(k);
    AwakenWakes(k, t);
    RemoveMembers(k.lists[CurrentDelayed(k)], t);
    AwakenLists(k, t);
  }

  lemma AwakenLists(k: State, t: TaskId)
    requires Placed(k) && FineTcbs(k.tcbs) && t in k.tcbs && k.tcbs[t].list == CurrentDelayed(k)
    ensures CurrentDelayed(Awaken(k, t)) == CurrentDelayed(k) && CurrentDelayed(k) in Awaken(k, t).lists
    ensures Awaken(k, t).lists[CurrentDelayed(k)] == Remove(k.lists[CurrentDelayed(k)], t)
  {
    hide Awaken, Remove, FineTcbs;
  }

  lemma {:induction false} DrainKeeps(k: State, now: nat, due: map<TaskId, nat>)
    requires Sound(k, now, due, now)
    ensures Sound(Drain(k).0, now, due, now + 1)
    ensures WokeExactly(k, Drain(k).0, DueNow(k, now, due))
    decreases |k.lists[CurrentDelayed(k)].items|
  {
    hide Drain;
    DrainUnfolds(k);
    if !HeadExpired(k) {
      DrainEnds(k, now, due);
      assert DueNow(k, now, due) == iset{};
    } else {
      var t := k.lists[CurrentDelayed(k)].items[0];
      var m := Awaken(k, t);
      HeadIsDue(k, now, due, now);
      RemoveMembers(k.lists[CurrentDelayed(k)], t);
      AwakenWakes(k, t);
      AwakenKeeps(k, t, now, due, now);
      assert m.current in m.tcbs;
      hide Sound, WokeExactly, Awaken;
      DueNowSplits(k, t, now, due);
      DrainKeeps(m, now, due);
      WokeBoth(k, m, Drain(m).0, iset{t}, DueNow(m, now, due));
    }
  }

  /** The tasks that an unbounded clock would wake when it reaches now. */
  ghost function WakesAt(k: State, now: nat, due: map<TaskId, nat>): iset<TaskId> {
    iset t | OnDelayedList(k, t) && t in due && due[t] == now
  }

  /** Until the drain is due, nothing on the delayed lists is. */
  lemma NothingDue(k: State, now: nat, due: map<TaskId, nat>)
    requires Placed(k) && Clocked(k, now, due, now) && k.tick < k.nextUnblock
    ensures Clocked(k, now, due, now + 1) && WakesAt(k, now, due) == iset{}
  {
    var cur := k.lists[CurrentDelayed(k)].items;
    forall t | t in cur ensures now + 1 <= due[t] {
      HeadIsEarliest(k.tcbs, cur, due, now / TICK_MODULUS, now, t);
    }
    DueInLow(k.tcbs, cur, due, now / TICK_MODULUS, now, now + 1);
  }

  lemma WakesAreCurrent(k: State, now: nat, due: map<TaskId, nat>)
    requires Placed(k) && Clocked(k, now, due, now)
    ensures WakesAt(k, now, due) == DueNow(k, now, due)
  {
  }

  /** One tick: the wrapped, cached, two-list machine wakes exactly the tasks
      whose unbounded deadline is the new time, and keeps everything else. */
  lemma TickIsExact(k: State, now: nat, due: map<TaskId, nat>)
    requires Sound(k, now, due, now + 1)
    ensures Sound(TickNow(k).0, now + 1, due, now + 2)
    ensures WokeExactly(k, TickNow(k).0, WakesAt(k, now + 1, due))
  {
    hide Sound, Placed, FineTcbs, WokeExactly, DrainIfDue, SameControl, SharesPriority;
    SoundGives(k, now, due, now + 1);
    AdvanceKeeps(k, now, due);
    AdvanceKeepsFine(k);
    TickAfterAdvance(k, AdvanceTick(k), now + 1, due);
  }

  lemma WokeSame(k: State, r: State, k': State, r': State, woken: iset<TaskId>)
    requires WokeExactly(k, r, woken) && k'.tcbs == k.tcbs && r'.tcbs == r.tcbs
    ensures WokeExactly(k', r', woken)
  {
  }

  lemma WokeNone(k: State)
    ensures WokeExactly(k, k, iset{})
  {
  }

  lemma SameWakes(k: State, a: State, now: nat, due: map<TaskId, nat>)
    requires a.tcbs == k.tcbs
    ensures WakesAt(a, now, due) == WakesAt(k, now, due)
  {
  }

  lemma TickAfterAdvance(k: State, a: State, now: nat, due: map<TaskId, nat>)
    requires Sound(a, now, due, now) && a.tcbs == k.tcbs
    ensures FineTcbs(a.tcbs) && a.current in a.tcbs
    ensures Sound(DrainIfDue(a).0, now, due, now + 1)
    ensures WokeExactly(k, DrainIfDue(a).0, WakesAt(k, now, due))
  {
    hide Sound, Placed, FineTcbs, Drain, WokeExactly, WakesAt, Clocked, Fine, Indexed, SameControl;
    SoundGives(a, now, due, now);
    SameWakes(k, a, now, due);
    if a.tick >= a.nextUnblock {
      WakesAreCurrent(a, now, due);
      DrainKeeps(a, now, due);
      WokeSame(a, Drain(a).0, k, Drain(a).0, DueNow(a, now, due));
    } else {
      NothingDue(a, now, due);
      SoundFrom(a, now, due, now + 1);
      WokeNone(a);
      WokeSame(a, a, k, a, iset{});
    }
  }
}
