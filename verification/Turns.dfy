/** In which order the tasks that wake together take their turns, and where that
    leaves the next unblock time. */
module Turns {
  import opened Lists
  import opened Kernel
  import opened Ticks
  import opened Suspension
  import opened Lifecycle
  import opened Runs
  import Effects
  import Preemption
  import Transparency
  import Yields

  /** The list after the tasks were put at its back one after the other; a task
      that is on it already leaves its place first. */
  ghost function JoinInTurn(l: ListV<TaskId>, ts: seq<TaskId>): (r: ListV<TaskId>)
    requires l.index <= |l.items|
    decreases |ts|
  {
    if ts == [] then l
    else JoinInTurn(InsertEnd(if ts[0] in l.items then Remove(l, ts[0]) else l, ts[0]), ts[1..])
  }

  /** Those of the tasks that have the priority. */
  ghost function OfPriority(tcbs: map<TaskId, Tcb>, ts: seq<TaskId>, priority: nat): seq<TaskId> {
    if ts == [] then []
    else if ts[0] in tcbs && tcbs[ts[0]].priority == priority then [ts[0]] + OfPriority(tcbs, ts[1..], priority)
    else OfPriority(tcbs, ts[1..], priority)
  }

  /** The tasks have joined the ready lists of their priorities in this order. */
  ghost predicate Joined(k: State, r: State, ts: seq<TaskId>) {
    forall p :: 0 <= p < MAX_PRIORITIES ==> JoinedAt(k, r, ts, p)
  }

  ghost predicate JoinedAt(k: State, r: State, ts: seq<TaskId>, p: nat) {
    && Ready(p) in k.lists && Ready(p) in r.lists && k.lists[Ready(p)].index <= |k.lists[Ready(p)].items|
    && r.lists[Ready(p)] == JoinInTurn(k.lists[Ready(p)], OfPriority(k.tcbs, ts, p))
  }

  lemma NoneJoined(k: State)
    requires Placed(k)
    ensures Joined(k, k, [])
  {
  }

  lemma AwakenJoins(k: State, t: TaskId)
    requires Placed(k) && FineTcbs(k.tcbs) && Indexed(k) && t in k.tcbs
    ensures forall p :: 0 <= p < MAX_PRIORITIES ==>
              && Ready(p) in k.lists && k.lists[Ready(p)].index <= |k.lists[Ready(p)].items|
              && Ready(p) in Awaken(k, t).lists
              && Awaken(k, t).lists[Ready(p)] ==
                 if k.tcbs[t].priority != p then k.lists[Ready(p)]
                 else InsertEnd(if t in k.lists[Ready(p)].items then Remove(k.lists[Ready(p)], t)
                                else k.lists[Ready(p)], t)
  {
    hide FineTcbs, MakeReady, Remove, InsertAt, NoDuplicates, Effects.MovedBack;
    FineOne(k.tcbs, t);
    var w := ClearEvent(k, t);
    Effects.ReadyBack(w, t);
    BackJoins(w, MakeReady(w, t), t);
  }

  lemma BackJoins(k: State, r: State, t: TaskId)
    requires Placed(k) && Indexed(k) && t in k.tcbs && k.tcbs[t].priority < MAX_PRIORITIES
    requires Effects.MovedBack(k, r, t, Ready(k.tcbs[t].priority), k.tcbs[t])
    ensures forall p :: 0 <= p < MAX_PRIORITIES ==>
              && Ready(p) in k.lists && k.lists[Ready(p)].index <= |k.lists[Ready(p)].items|
              && Ready(p) in r.lists
              && r.lists[Ready(p)] ==
                 if k.tcbs[t].priority != p then k.lists[Ready(p)]
                 else InsertEnd(if t in k.lists[Ready(p)].items then Remove(k.lists[Ready(p)], t)
                                else k.lists[Ready(p)], t)
  {
    hide Remove, InsertAt, NoDuplicates;
  }

  lemma {:induction false} SamePriorities(tcbs: map<TaskId, Tcb>, tcbs': map<TaskId, Tcb>, ts: seq<TaskId>, p: nat)
    requires forall t :: t in tcbs <==> t in tcbs'
    requires forall t :: t in tcbs ==> tcbs'[t].priority == tcbs[t].priority
    ensures OfPriority(tcbs', ts, p) == OfPriority(tcbs, ts, p)
  {
    if ts != [] {
      SamePriorities(tcbs, tcbs', ts[1..], p);
    }
  }

  /** One task wakes, then the rest do. */
  lemma JoinedOn(k: State, m: State, r: State, t: TaskId, ts: seq<TaskId>)
    requires Placed(k) && FineTcbs(k.tcbs) && Indexed(k) && t in k.tcbs && m.lists == Awaken(k, t).lists
    requires WokeExactly(k, m, iset{t}) && m.current == k.current && k.current in k.tcbs && Joined(m, r, ts)
    ensures Joined(k, r, [t] + ts)
  {
    hide Placed, FineTcbs, Indexed, Awaken, Remove, InsertAt, WokeExactly;
    AwakenJoins(k, t);
    Preemption.SameRanks(k, m, iset{t});
    forall p | 0 <= p < MAX_PRIORITIES ensures JoinedAt(k, r, [t] + ts, p) {
      assert JoinedAt(m, r, ts, p);
      SamePriorities(k.tcbs, m.tcbs, ts, p);
      assert ([t] + ts)[1..] == ts;
      FirstJoins(k.lists[Ready(p)], k.tcbs, t, ts, p);
    }
  }

  lemma FirstJoins(l: ListV<TaskId>, tcbs: map<TaskId, Tcb>, t: TaskId, ts: seq<TaskId>, p: nat)
    requires l.index <= |l.items| && t in tcbs
    ensures JoinInTurn(l, OfPriority(tcbs, [t] + ts, p)) ==
            JoinInTurn(if tcbs[t].priority != p then l
                       else InsertEnd(if t in l.items then Remove(l, t) else l, t), OfPriority(tcbs, ts, p))
  {
    hide Remove, InsertAt;
    assert ([t] + ts)[1..] == ts;
    var rest := OfPriority(tcbs, ts, p);
    assert ([t] + rest)[1..] == rest;
  }

  lemma JoinedSame(k: State, r: State, k': State, r': State, ts: seq<TaskId>)
    requires Joined(k, r, ts) && k'.lists == k.lists && k'.tcbs == k.tcbs && r'.lists == r.lists
    ensures Joined(k', r', ts)
  {
    forall p | 0 <= p < MAX_PRIORITIES ensures JoinedAt(k', r', ts, p) {
      assert JoinedAt(k, r, ts, p);
    }
  }

  // ----- the pending tasks ------------------------------------------------------------------

  lemma HeadLeaves(s: seq<TaskId>)
    requires NoDuplicates(s) && s != []
    ensures Remove(ListV(s, 0), s[0]).items == s[1..]
  {
  }

  /** The tasks that were held pending take their turns in the order in which
      they were woken. */
  lemma {:induction false} PendingJoinInOrder(k: State, now: nat, due: map<TaskId, nat>, low: nat)
    requires Sound(k, now, due, low)
    ensures Placed(k) && PendingKnown(k) && FineTcbs(k.tcbs) && k.current in k.tcbs
    ensures Joined(k, MovePending(k), k.pending)
    decreases |k.pending|
  {
    hide Sound, Placed, FineTcbs, MoveOne, Joined, NoDuplicates, Awaken, WokeExactly, Indexed, Remove;
    SoundGives(k, now, due, low);
    if k.pending == [] {
      NoneJoined(k);
    } else {
      var t, m := k.pending[0], MoveOne(k);
      MoveOneIs(k);
      MoveOneKeeps(k, now, due, low);
      HeadLeaves(k.pending);
      assert t in k.pending && k.pending == [t] + k.pending[1..];
      PendingJoinInOrder(m, now, due, low);
      JoinedOn(k, m, MovePending(k), t, m.pending);
    }
  }

  // ----- the tasks that a tick wakes -------------------------------------------------------------

  /** The first n tasks of the current delayed list have left it and joined the
      ready lists in order, and the next unblock time is that of the next one. */
  ghost predicate Drained(k: State, r: State, n: nat) {
    && CurrentDelayed(k) in k.lists && n <= |k.lists[CurrentDelayed(k)].items|
    && CurrentDelayed(r) == CurrentDelayed(k) && CurrentDelayed(k) in r.lists
    && r.lists[CurrentDelayed(k)].items == k.lists[CurrentDelayed(k)].items[n..]
    && Joined(k, r, k.lists[CurrentDelayed(k)].items[..n]) && Effects.NextIsHead(r)
  }

  lemma DrainNone(k: State)
    requires Placed(k)
    ensures Drained(k, ResetNextUnblock(k), 0)
  {
    hide Placed, Joined, ResetNextUnblock, Effects.NextIsHead;
    Effects.ResetIsHead(k);
    NoneJoined(k);
    CurrentIsList(k);
    JoinedSame(k, k, k, ResetNextUnblock(k), []);
  }

  lemma CurrentIsList(k: State)
    requires Placed(k)
    ensures CurrentDelayed(k) in k.lists
    ensures NoDuplicates(k.lists[CurrentDelayed(k)].items)
  {
  }

  lemma {:induction false} DrainInOrder(k: State, now: nat, due: map<TaskId, nat>)
    requires Sound(k, now, due, now)
    ensures Placed(k) && FineTcbs(k.tcbs) && k.current in k.tcbs
    ensures exists n: nat :: Drained(k, Drain(k).0, n)
    decreases |k.lists[CurrentDelayed(k)].items|
  {
    hide Drain, Sound, WokeExactly, Placed, FineTcbs, Awaken, SameControl, Drained, HeadExpired;
    SoundGives(k, now, due, now);
    DrainUnfolds(k);
    if !HeadExpired(k) {
      DrainNone(k);
    } else {
      var t := k.lists[CurrentDelayed(k)].items[0];
      var m := Awaken(k, t);
      AwakenWakes(k, t);
      Preemption.CurrentShortens(k, t);
      Preemption.NotTerminated(k, t);
      AwakenKeeps(k, t, now, due, now);
      DrainInOrder(m, now, due);
      var n: nat :| Drained(m, Drain(m).0, n);
      DrainedOn(k, m, Drain(m).0, t, n);
    }
  }

  lemma DrainedOn(k: State, m: State, r: State, t: TaskId, n: nat)
    requires Placed(k) && FineTcbs(k.tcbs) && Indexed(k) && t in k.tcbs && m == Awaken(k, t)
    requires k.current in k.tcbs && k.tcbs[t].list == CurrentDelayed(k) && Drained(m, r, n)
    requires CurrentDelayed(k) in k.lists && k.lists[CurrentDelayed(k)].items != []
    requires t == k.lists[CurrentDelayed(k)].items[0]
    ensures Drained(k, r, n + 1)
  {
    hide Placed, FineTcbs, Indexed, Awaken, WokeExactly, Joined, Remove, Effects.NextIsHead;
    AwakenWakes(k, t);
    AwakenLists(k, t);
    CurrentIsList(k);
    var s := k.lists[CurrentDelayed(k)].items;
    HeadGoes(k.lists[CurrentDelayed(k)]);
    assert s[..n + 1] == [t] + s[1..][..n] && s[n + 1..] == s[1..][n..];
    JoinedOn(k, m, r, t, s[1..][..n]);
  }

  lemma HeadGoes(l: ListV<TaskId>)
    requires NoDuplicates(l.items) && l.items != []
    ensures Remove(l, l.items[0]).items == l.items[1..]
  {
  }

  /** The list of delayed tasks that is the current one once the tick count has
      advanced. */
  function NextCurrent(k: State): ListId {
    if (k.tick + 1) % TICK_MODULUS == 0 then OverflowDelayed(k) else CurrentDelayed(k)
  }

  /** The tasks that a tick wakes are the first ones of the delayed list whose
      epoch it is; they take their turns in the order in which they stand there. */
  ghost predicate WokeInOrder(c: Config, r: State, n: nat) {
    var l := NextCurrent(c.k);
    && l in c.k.lists && n <= |c.k.lists[l].items| && CurrentDelayed(r) == l && l in r.lists
    && r.lists[l].items == c.k.lists[l].items[n..] && Joined(c.k, r, c.k.lists[l].items[..n])
    && forall i :: 0 <= i < |c.k.lists[l].items| ==>
         (c.k.lists[l].items[i] in c.due && (i < n <==> c.due[c.k.lists[l].items[i]] == c.now + 1))
  }

  /** A tick wakes tasks in the order of their delayed list, and leaves the next
      unblock time ahead of the tick count or equal to the head's wake time. */
  lemma TickInOrder(c: Config)
    requires Good(c) && Enabled(c.k, TickInterrupt) && c.k.suspendCount == 0
    ensures Steppable(c.k)
    ensures var r := Step(c, TickInterrupt).k;
            && (exists n: nat :: WokeInOrder(c, r, n))
            && (Effects.NextIsHead(r) || r.tick < r.nextUnblock)
  {
    hide Sound, Placed, FineTcbs, SomeReady, PendingKnown, TickNow, AdvanceTick, WokeExactly, WokeInOrder;
    hide StandsBehind, Effects.NextIsHead;
    InvGives(c.k, c.now, c.due);
    var k := c.k;
    SoundGives(k, c.now, c.due, c.now + 1);
    TickIsExact(k, c.now, c.due);
    var a, r := AdvanceTick(k), TickNow(k).0;
    SoundGives(r, c.now + 1, c.due, c.now + 2);
    AdvancedLists(k);
    TickStands(k, c.now, c.due);
    var n: nat :| StandsBehind(a, r, n);
    DueFirst(c, a, r, n);
  }

  lemma TickStands(k: State, now: nat, due: map<TaskId, nat>)
    requires Sound(k, now, due, now + 1)
    ensures Placed(k) && FineTcbs(k.tcbs) && k.current in k.tcbs
    ensures var a, r := AdvanceTick(k), TickNow(k).0;
            && (exists n: nat :: StandsBehind(a, r, n))
            && (Effects.NextIsHead(r) || r.tick < r.nextUnblock)
  {
    hide Sound, Placed, FineTcbs, Drain, Drained, StandsBehind, Effects.NextIsHead, AdvanceTick, SharesPriority;
    SoundGives(k, now, due, now + 1);
    AdvanceKeeps(k, now, due);
    var a := AdvanceTick(k);
    SoundGives(a, now + 1, due, now + 1);
    if a.tick >= a.nextUnblock {
      DrainInOrder(a, now + 1, due);
      var n: nat :| Drained(a, Drain(a).0, n);
      DrainedHead(a, Drain(a).0, n);
    } else {
      NoneDrained(a);
    }
  }

  lemma DrainedHead(k: State, r: State, n: nat)
    requires Drained(k, r, n)
    ensures Effects.NextIsHead(r) && StandsBehind(k, r, n)
  {
    hide Joined;
  }

  lemma AdvancedLists(k: State)
    requires Placed(k)
    ensures var a := AdvanceTick(k); a.lists == k.lists && a.tcbs == k.tcbs && CurrentDelayed(a) == NextCurrent(k)
  {
    hide Placed;
  }

  ghost predicate StandsBehind(k: State, r: State, n: nat) {
    && CurrentDelayed(k) in k.lists && n <= |k.lists[CurrentDelayed(k)].items|
    && CurrentDelayed(r) == CurrentDelayed(k) && CurrentDelayed(k) in r.lists
    && r.lists[CurrentDelayed(k)].items == k.lists[CurrentDelayed(k)].items[n..]
    && Joined(k, r, k.lists[CurrentDelayed(k)].items[..n])
  }

  lemma NoneDrained(k: State)
    requires Placed(k)
    ensures StandsBehind(k, k, 0)
  {
    hide Placed, Joined;
    CurrentIsList(k);
    NoneJoined(k);
  }

  lemma DueFirst(c: Config, a: State, r: State, n: nat)
    requires Placed(c.k) && a.lists == c.k.lists && a.tcbs == c.k.tcbs && CurrentDelayed(a) == NextCurrent(c.k)
    requires StandsBehind(a, r, n) && Placed(r) && WokeExactly(c.k, r, WakesAt(c.k, c.now + 1, c.due))
    requires Good(c)
    ensures WokeInOrder(c, r, n)
  {
    hide Joined, Good, Placed, WokeExactly;
    JoinedSame(a, r, c.k, r, a.lists[CurrentDelayed(a)].items[..n]);
    var s := c.k.lists[NextCurrent(c.k)].items;
    forall i | 0 <= i < |s| ensures s[i] in c.due && (i < n <==> c.due[s[i]] == c.now + 1) {
      OneDue(c, r, NextCurrent(c.k), n, i);
    }
  }

  lemma OneDue(c: Config, r: State, l: ListId, n: nat, i: nat)
    requires Good(c) && Placed(c.k) && Placed(r) && WokeExactly(c.k, r, WakesAt(c.k, c.now + 1, c.due))
    requires l == Delayed1 || l == Delayed2
    requires l in c.k.lists && l in r.lists && i < |c.k.lists[l].items| && n <= |c.k.lists[l].items|
    requires r.lists[l].items == c.k.lists[l].items[n..]
    ensures var t := c.k.lists[l].items[i]; t in c.due && (i < n <==> c.due[t] == c.now + 1)
  {
    hide Good, Placed;
    var s := c.k.lists[l].items;
    DelayedGives(c, l, s[i]);
    Distinct(c.k, l);
    assert s[i] in r.lists[l].items <==> i >= n by {
      if i >= n { assert s[n..][i - n] == s[i]; }
    }
    InOneList(r, l, s[i]);
  }

  lemma DelayedGives(c: Config, l: ListId, t: TaskId)
    requires Good(c) && (l == Delayed1 || l == Delayed2) && l in c.k.lists && t in c.k.lists[l].items
    ensures t in c.k.tcbs && c.k.tcbs[t].list == l && t in c.due
  {
    hide Counted, Evented, FineTcbs;
  }

  lemma Distinct(k: State, l: ListId)
    requires Placed(k) && l in k.lists
    ensures NoDuplicates(k.lists[l].items)
  {
  }

  lemma InOneList(k: State, l: ListId, t: TaskId)
    requires Placed(k) && l in k.lists && t in k.tcbs
    ensures t in k.lists[l].items <==> k.tcbs[t].list == l
  {
  }

  // ----- resuming the scheduler -----------------------------------------------------------------

  /** The pending tasks, and only they, have become ready, in the order in which
      they were woken, and the scheduler runs. The next unblock time is exact if
      there were any. */
  ghost predicate PendingReleased(k: State, m: State) {
    && m == k.(tcbs := m.tcbs, lists := m.lists, topReady := m.topReady, yieldPending := m.yieldPending,
               nextUnblock := m.nextUnblock, pending := [], suspendCount := 0)
    && WokeExactly(k, m, Members(k.pending)) && Joined(k, m, k.pending)
    && (if k.pending == [] then m.nextUnblock == k.nextUnblock else Effects.NextIsHead(m))
    && k.current in k.tcbs && (m.yieldPending <==> k.yieldPending || Yields.AnyOutranks(k, Members(k.pending)))
  }

  /** r is m after n direct ticks, but that a switch which one of them asked for
      is a pended yield. */
  ghost predicate TickedFrom(m: State, n: nat, r: State) {
    && Placed(m) && FineTcbs(m.tcbs) && m.current in m.tcbs
    && var d := Transparency.Direct(m, n); r == d.0.(yieldPending := m.yieldPending || d.1, pendedTicks := 0)
  }

  /** The outermost resumption first releases the pending tasks and then makes up
      for the pended ticks. */
  lemma ResumeInOrder(c: Config)
    requires Good(c) && Enabled(c.k, ResumeScheduler) && c.k.suspendCount == 1
    ensures Steppable(c.k)
    ensures exists m :: PendingReleased(c.k, m) && TickedFrom(m, c.k.pendedTicks, Step(c, ResumeScheduler).k)
  {
    hide Sound, Placed, FineTcbs, SomeReady, PendingKnown, ResumeAll, Released, Replay, Transparency.Direct;
    hide PendingReleased;
    var k := c.k;
    InvGives(k, c.now, c.due);
    ResumeAllIs(k, c.now, c.due);
    ReleasedFrom(k, c.now, c.due);
    var m := Released(Unsuspend(k));
    ReleasedInOrder(k, c.now, c.due);
    Transparency.ReplayIsDirect(m, k.pendedTicks);
  }

  lemma ReleasedInOrder(k: State, now: nat, due: map<TaskId, nat>)
    requires Sound(k, now, due, now + 1) && k.suspendCount == 1
    ensures var k1 := Unsuspend(k);
            && Placed(k1) && PendingKnown(k1) && FineTcbs(k1.tcbs) && k1.current in k1.tcbs
            && PendingReleased(k, Released(k1))
  {
    hide Sound, Placed, FineTcbs, PendingKnown, Joined, Released, NoDuplicates, WokeExactly, Members;
    hide Effects.NextIsHead, Yields.AnyOutranks;
    var k1 := Unsuspend(k);
    SoundGives(k, now, due, now + 1);
    ControlKeeps(k, now, due, now + 1);
    ReleasedFrom(k, now, due);
    Yields.ReleasedYields(k, now, due);
    PendingJoinInOrder(k1, now, due, now + 1);
    MovePendingRest(k1, now, due, now + 1);
    ReleasedLists(k1);
    JoinedSame(k1, MovePending(k1), k, Released(k1), k.pending);
  }

  lemma {:induction false} MovePendingRest(k: State, now: nat, due: map<TaskId, nat>, low: nat)
    requires Sound(k, now, due, low)
    ensures Placed(k) && PendingKnown(k) && FineTcbs(k.tcbs) && k.current in k.tcbs
    ensures var m := MovePending(k);
            m == k.(tcbs := m.tcbs, lists := m.lists, topReady := m.topReady, yieldPending := m.yieldPending,
                    pending := m.pending)
    ensures k.pending == [] ==> MovePending(k) == k
    decreases |k.pending|
  {
    hide Sound, Placed, FineTcbs, MoveOne, NoDuplicates, WokeExactly, Members;
    SoundGives(k, now, due, low);
    if k.pending != [] {
      MoveOneRest(k);
      MoveOneKeeps(k, now, due, low);
      MovePendingRest(MoveOne(k), now, due, low);
    }
  }

  lemma MoveOneRest(k: State)
    requires Placed(k) && PendingKnown(k) && FineTcbs(k.tcbs) && k.current in k.tcbs && k.pending != []
    ensures var m := MoveOne(k);
            m == k.(tcbs := m.tcbs, lists := m.lists, topReady := m.topReady, yieldPending := m.yieldPending,
                    pending := m.pending)
  {
    hide Placed, FineTcbs, Remove, InsertAt, NoDuplicates;
  }

  lemma ReleasedLists(k: State)
    requires Placed(k) && PendingKnown(k) && FineTcbs(k.tcbs) && k.current in k.tcbs
    ensures var m, r := MovePending(k), Released(k);
            && r == m.(nextUnblock := r.nextUnblock)
            && (if k.pending == [] then r.nextUnblock == m.nextUnblock else Effects.NextIsHead(r))
  {
    hide Placed, PendingKnown, FineTcbs, MovePending, ResetNextUnblock, Effects.NextIsHead;
    Effects.ResetIsHead(MovePending(k));
  }
}
