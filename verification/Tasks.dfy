/** Blocking, and event lists (tasks.c). */
module Tasks {
  import opened Lists
  import opened Kernel
  import opened Ticks
  import opened Suspension

  // ----- field updates ------------------------------------------------------------

  lemma WithTcbKeeps(k: State, t: TaskId, c: Tcb, now: nat, due: map<TaskId, nat>, low: nat)
    requires Sound(k, now, due, low) && t in k.tcbs && FineTcb(c)
    requires c.list == k.tcbs[t].list && c.wake == k.tcbs[t].wake && c.event == k.tcbs[t].event
    requires c.list.Ready? ==> c.priority == k.tcbs[t].priority
    requires c.notify == Waiting ==> c.event == Nowhere
    ensures Sound(WithTcb(k, t, c), now, due, low)
  {
    hide Clocked, DueIn, Counted, Placed, Evented, FineTcbs;
    WithTcbKeepsClock(k, t, c, now, due, low);
    WithTcbKeepsFineTcbs(k.tcbs, t, c);
    WithTcbKeepsCounted(k, t, c);
    WithTcbKeepsEvented(k, t, c);
  }

  lemma WithTcbKeepsCounted(k: State, t: TaskId, c: Tcb)
    requires Placed(k) && Counted(k) && t in k.tcbs && c.list == k.tcbs[t].list
    ensures Counted(WithTcb(k, t, c))
  {
    hide WellFormed;
    assert WithTcb(k, t, c).tcbs.Keys == k.tcbs.Keys;
  }

  lemma WithTcbKeepsEvented(k: State, t: TaskId, c: Tcb)
    requires Evented(k) && t in k.tcbs && c.list == k.tcbs[t].list && c.event == k.tcbs[t].event
    requires c.notify == Waiting ==> c.event == Nowhere
    ensures Evented(WithTcb(k, t, c))
  {
    hide NoDuplicates;
  }

  // ----- blocking -------------------------------------------------------------------

  /** prvAddCurrentTaskToDelayedList */
  function Block(k: State, ticks: nat, forever: bool): (r: State)
    requires Placed(k) && k.current in k.tcbs
    ensures Placed(r)
  {
    hide Placed;
    if ticks == MAX_DELAY && forever then MoveToEnd(k, k.current, Suspended)
    else
      var wake := (k.tick + ticks) % TICK_MODULUS;
      if wake < k.tick then MoveSorted(k, k.current, OverflowDelayed(k), wake)
      else LowerNextUnblock(MoveSorted(k, k.current, CurrentDelayed(k), wake), wake)
  }

  function LowerNextUnblock(k: State, wake: nat): (r: State)
    ensures Placed(k) ==> Placed(r)
  {
    if wake < k.nextUnblock then k.(nextUnblock := wake) else k
  }

  ghost predicate CanBlock(k: State, ticks: nat) {
    && 0 < ticks < TICK_MODULUS && k.current in k.tcbs && k.current != k.idle
    && k.tcbs[k.current].list.Ready?
  }

  /** The deadline, and the list that it belongs on, under wrap-around. */
  lemma WakeTime(now: nat, ticks: nat)
    requires 0 < ticks < TICK_MODULUS
    ensures var tick := now % TICK_MODULUS;
            var wake := (tick + ticks) % TICK_MODULUS;
            && wake == (now + ticks) % TICK_MODULUS
            && (wake < tick ==> (now + ticks) / TICK_MODULUS == now / TICK_MODULUS + 1)
            && (wake >= tick ==> (now + ticks) / TICK_MODULUS == now / TICK_MODULUS)
  {
  }

  lemma MoveSortedDue(k: State, t: TaskId, l: ListId, wake: nat, due: map<TaskId, nat>, deadline: nat,
                      epoch: nat, low: nat)
    requires Placed(k) && t in k.tcbs && IsList(l) && k.tcbs[t].list != l
    requires DueIn(k.tcbs, k.lists[l].items, due, epoch, low) && low <= deadline
    requires deadline / TICK_MODULUS == epoch && wake == deadline % TICK_MODULUS
    ensures var r := MoveSorted(k, t, l, wake);
            && DueIn(r.tcbs, r.lists[l].items, due[t := deadline], epoch, low)
            && r.lists[l].items != []
            && (r.lists[l].items[0] == t || (k.lists[l].items != [] && r.lists[l].items[0] == k.lists[l].items[0]))
  {
    var k1 := WithTcb(k, t, k.tcbs[t].(wake := wake));
    var due' := due[t := deadline];
    DueInFrame(k.tcbs, k1.tcbs, k.lists[l].items, due, due', epoch, low);
    DueInInsert(k1.tcbs, k.lists[l], t, due', epoch, low);
    var r := MoveSorted(k, t, l, wake);
    DueInFrame(k1.tcbs, r.tcbs, r.lists[l].items, due', due', epoch, low);
  }

  lemma MoveSortedOther(k: State, t: TaskId, l: ListId, wake: nat, d: ListId,
                        due: map<TaskId, nat>, deadline: nat, epoch: nat, low: nat)
    requires Placed(k) && t in k.tcbs && IsList(l) && IsList(d) && k.tcbs[t].list != d && d != l
    requires DueIn(k.tcbs, k.lists[d].items, due, epoch, low)
    ensures var r := MoveSorted(k, t, l, wake);
            && r.lists[d] == k.lists[d]
            && DueIn(r.tcbs, r.lists[d].items, due[t := deadline], epoch, low)
  {
    DueInFrame(k.tcbs, MoveSorted(k, t, l, wake).tcbs, k.lists[d].items, due, due[t := deadline], epoch, low);
  }

  lemma WakeKeepsFine(k: State, t: TaskId, wake: nat)
    requires Fine(k) && Indexed(k) && t in k.tcbs
    ensures var k1 := WithTcb(k, t, k.tcbs[t].(wake := wake)); Fine(k1) && Indexed(k1)
  {
    hide Placed, NoDuplicates, FineTcbs;
    var k1 := WithTcb(k, t, k.tcbs[t].(wake := wake));
    FineOne(k.tcbs, t);
    WithTcbKeepsFineTcbs(k.tcbs, t, k1.tcbs[t]);
    assert k1.tcbs.Keys == k.tcbs.Keys;
  }

  lemma RelinkIndexes(k: State, t: TaskId, l: ListId, pos: nat)
    requires Placed(k) && Indexed(k) && t in k.tcbs && IsList(l) && !l.Ready? && pos <= |Unlinked(k, t)[l].items|
    ensures Indexed(Relink(k, t, l, pos))
  {
    hide NoDuplicates;
  }

  lemma MoveSortedKeepsFine(k: State, t: TaskId, l: ListId, wake: nat)
    requires Fine(k) && Indexed(k) && t in k.tcbs && (l == Delayed1 || l == Delayed2)
    requires k.tcbs[t].list.Ready? && t != k.idle
    ensures Fine(MoveSorted(k, t, l, wake)) && Indexed(MoveSorted(k, t, l, wake))
  {
    hide Placed, Evented, Counted, FineTcbs, Indexed, Unlinked, Relink;
    var k1 := WithTcb(k, t, k.tcbs[t].(wake := wake));
    WakeKeepsFine(k, t, wake);
    SleeperEvent(k, t);
    var pos := SortedPosition(k1, t, l);
    RelinkKeepsFine(k1, t, l, pos);
    RelinkIndexes(k1, t, l, pos);
  }

  lemma SleeperEvent(k: State, t: TaskId)
    requires Evented(k) && t in k.tcbs
    ensures k.tcbs[t].event == OnEventList ==> Sleeping(k.tcbs[t].list)
  {
  }

  ghost function Deadline(k: State, ticks: nat, forever: bool, now: nat, due: map<TaskId, nat>): map<TaskId, nat> {
    if ticks == MAX_DELAY && forever then due else due[k.current := now + ticks]
  }

  /** The head of the current list is a task that is not the ready one. */
  lemma HeadOf(k: State, l: ListId)
    requires Placed(k) && IsList(l) && k.lists[l].items != []
    ensures k.lists[l].items[0] in k.tcbs && k.tcbs[k.lists[l].items[0]].list == l
  {
    assert k.lists[l].items[0] in k.lists[l].items;
  }

  lemma BlockSooner(k: State, ticks: nat, now: nat, due: map<TaskId, nat>)
    requires Placed(k) && Clocked(k, now, due, now + 1) && CanBlock(k, ticks)
    requires (k.tick + ticks) % TICK_MODULUS >= k.tick
    ensures var wake := (k.tick + ticks) % TICK_MODULUS;
            Clocked(LowerNextUnblock(MoveSorted(k, k.current, CurrentDelayed(k), wake), wake),
                    now, due[k.current := now + ticks], now + 1)
  {
    hide DueIn, MoveSorted, Placed;
    var t, wake, cur := k.current, (k.tick + ticks) % TICK_MODULUS, CurrentDelayed(k);
    WakeTime(now, ticks);
    AllLists(k, cur);
    AllLists(k, OverflowDelayed(k));
    MoveSortedDue(k, t, cur, wake, due, now + ticks, now / TICK_MODULUS, now + 1);
    MoveSortedOther(k, t, cur, wake, OverflowDelayed(k), due, now + ticks, now / TICK_MODULUS + 1, 0);
    if k.lists[cur].items != [] {
      HeadOf(k, cur);
    }
  }

  lemma BlockLater(k: State, ticks: nat, now: nat, due: map<TaskId, nat>)
    requires Placed(k) && Clocked(k, now, due, now + 1) && CanBlock(k, ticks)
    requires (k.tick + ticks) % TICK_MODULUS < k.tick
    ensures var wake := (k.tick + ticks) % TICK_MODULUS;
            Clocked(MoveSorted(k, k.current, OverflowDelayed(k), wake), now, due[k.current := now + ticks], now + 1)
  {
    hide DueIn, MoveSorted, Placed;
    var t, wake, cur := k.current, (k.tick + ticks) % TICK_MODULUS, CurrentDelayed(k);
    WakeTime(now, ticks);
    AllLists(k, cur);
    AllLists(k, OverflowDelayed(k));
    MoveSortedDue(k, t, OverflowDelayed(k), wake, due, now + ticks, now / TICK_MODULUS + 1, 0);
    MoveSortedOther(k, t, OverflowDelayed(k), wake, cur, due, now + ticks, now / TICK_MODULUS, now + 1);
    if k.lists[cur].items != [] {
      HeadOf(k, cur);
    }
  }

  lemma AllLists(k: State, l: ListId)
    requires Placed(k) && IsList(l)
    ensures l in k.lists
  {
  }

  lemma LowerKeepsFine(k: State, wake: nat)
    requires Fine(k) && Indexed(k)
    ensures Fine(LowerNextUnblock(k, wake)) && Indexed(LowerNextUnblock(k, wake))
  {
    hide FineTcbs;
  }

  /** A blocked task's deadline is now + ticks, however the sum wraps. */
  lemma BlockKeeps(k: State, ticks: nat, forever: bool, now: nat, due: map<TaskId, nat>)
    requires Sound(k, now, due, now + 1) && CanBlock(k, ticks)
    ensures Sound(Block(k, ticks, forever), now, Deadline(k, ticks, forever, now, due), now + 1)
  {
    hide Fine, Indexed, Clocked, Placed, LowerNextUnblock, MoveSorted, MoveToEnd;
    SoundGives(k, now, due, now + 1);
    var t, wake := k.current, (k.tick + ticks) % TICK_MODULUS;
    if ticks == MAX_DELAY && forever {
      MoveToEndKeeps(k, t, Suspended, now, due, now + 1);
      MoveToEndIndexes(k, t, Suspended);
    } else if wake < k.tick {
      BlockLater(k, ticks, now, due);
      MoveSortedKeepsFine(k, t, OverflowDelayed(k), wake);
    } else {
      BlockSooner(k, ticks, now, due);
      MoveSortedKeepsFine(k, t, CurrentDelayed(k), wake);
      LowerKeepsFine(MoveSorted(k, t, CurrentDelayed(k), wake), wake);
    }
  }

  lemma MoveToEndIndexes(k: State, t: TaskId, l: ListId)
    requires Placed(k) && Indexed(k) && t in k.tcbs && IsList(l) && !l.Ready?
    ensures Indexed(MoveToEnd(k, t, l))
  {
  }

  // ----- event lists -----------------------------------------------------------------

  /** vTaskPlaceOnEventList, and vTaskPlaceOnUnorderedEventList with a new item value */
  function PlaceOnEventList(k: State, value: nat, ticks: nat): (r: State)
    requires Placed(k) && k.current in k.tcbs
    ensures Placed(r)
  {
    hide Placed;
    var b := Block(k, ticks, true);
    WithTcb(b, k.current, b.tcbs[k.current].(event := OnEventList, eventValue := value))
  }

  ghost predicate CanPlace(k: State, value: nat, ticks: nat) {
    && CanBlock(k, ticks)
    && k.tcbs[k.current].event == Nowhere && k.tcbs[k.current].notify != Waiting
    && (value == k.tcbs[k.current].eventValue || value >= IN_USE)
  }

  lemma BlockedTask(k: State, ticks: nat, forever: bool)
    requires Placed(k) && CanBlock(k, ticks)
    ensures var r, c := Block(k, ticks, forever), k.tcbs[k.current];
            && r.current == k.current && r.idle == k.idle && r.tcbs.Keys == k.tcbs.Keys
            && r.tcbs == k.tcbs[k.current := r.tcbs[k.current]] && Sleeping(r.tcbs[k.current].list)
            && (if ticks == MAX_DELAY && forever then r.tcbs[k.current].list == Suspended
                else OnDelayedList(r, k.current))
            && r.tcbs[k.current] == c.(list := r.tcbs[k.current].list, wake := r.tcbs[k.current].wake)
            && (forall t :: t in k.tcbs && t != k.current ==> r.tcbs[t] == k.tcbs[t])
            && r.suspendCount == k.suspendCount && r.pending == k.pending && r.pendedTicks == k.pendedTicks
  {
    hide Placed, MoveToEnd, MoveSorted;
    MoveToEndIs(k, k.current, Suspended);
  }

  lemma MoveToEndIs(k: State, t: TaskId, l: ListId)
    requires Placed(k) && t in k.tcbs && IsList(l)
    ensures var r := MoveToEnd(k, t, l); r == k.(lists := r.lists, tcbs := k.tcbs[t := k.tcbs[t].(list := l)])
  {
    hide Placed, Relink;
    RelinkRoom(k, t, l);
    RelinkTcbs(k, t, l, EndPosition(Unlinked(k, t)[l]));
  }

  lemma EnterEventList(k: State, t: TaskId, value: nat)
    requires Evented(k) && t in k.tcbs && k.tcbs[t].event == Nowhere
    requires Sleeping(k.tcbs[t].list) && k.tcbs[t].notify != Waiting
    ensures Evented(WithTcb(k, t, k.tcbs[t].(event := OnEventList, eventValue := value)))
  {
  }

  lemma PlaceKeeps(k: State, value: nat, ticks: nat, now: nat, due: map<TaskId, nat>)
    requires Sound(k, now, due, now + 1) && CanPlace(k, value, ticks)
    ensures Sound(PlaceOnEventList(k, value, ticks), now, Deadline(k, ticks, true, now, due), now + 1)
  {
    hide Sound, Clocked, Evented, Fine, Indexed, Placed, DueIn, Block, Deadline, WithTcb, FineTcb;
    SoundGives(k, now, due, now + 1);
    BlockKeeps(k, ticks, true, now, due);
    BlockedTask(k, ticks, true);
    var b, due' := Block(k, ticks, true), Deadline(k, ticks, true, now, due);
    SoundGives(b, now, due', now + 1);
    EnterEventList(b, k.current, value);
    FineEventValue(k, k.current, value);
    FineEventValue(b, k.current, value);
    WithEventKeeps(b, k.current, b.tcbs[k.current].(event := OnEventList, eventValue := value), now, due', now + 1);
  }

  lemma FineEventValue(k: State, t: TaskId, value: nat)
    requires FineTcbs(k.tcbs) && t in k.tcbs && (value == k.tcbs[t].eventValue || value >= IN_USE)
    ensures FineTcb(k.tcbs[t].(event := OnEventList, eventValue := value))
  {
  }

  lemma WithEventKeeps(k: State, t: TaskId, c: Tcb, now: nat, due: map<TaskId, nat>, low: nat)
    requires Sound(k, now, due, low) && t in k.tcbs && FineTcb(c)
    requires c.list == k.tcbs[t].list && c.wake == k.tcbs[t].wake && c.priority == k.tcbs[t].priority
    requires Evented(WithTcb(k, t, c))
    ensures Sound(WithTcb(k, t, c), now, due, low)
  {
    hide Clocked, Evented, DueIn;
    SoundGives(k, now, due, low);
    WithTcbKeepsClock(k, t, c, now, due, low);
    assert WithTcb(k, t, c).tcbs.Keys == k.tcbs.Keys;
  }

  /** listINSERT_END on xPendingReadyList */
  function HoldPending(k: State, t: TaskId): (r: State)
    requires t in k.tcbs
    ensures Placed(k) ==> Placed(r)
  {
    WithTcb(k.(pending := k.pending + [t]), t, k.tcbs[t].(event := OnPendingReady))
  }

  lemma HoldPendingEvented(k: State, t: TaskId)
    requires Evented(k) && t in k.tcbs && k.tcbs[t].event == Nowhere
    requires k.tcbs[t].list != Termination && k.tcbs[t].notify != Waiting
    ensures Evented(HoldPending(k, t))
  {
    assert t !in k.pending;
  }

  lemma HoldPendingKeeps(k: State, t: TaskId, now: nat, due: map<TaskId, nat>, low: nat)
    requires Sound(k, now, due, low) && t in k.tcbs && k.tcbs[t].event == Nowhere
    requires k.tcbs[t].list != Termination && k.tcbs[t].notify != Waiting
    ensures Sound(HoldPending(k, t), now, due, low)
  {
    hide Clocked, Evented, DueIn, Counted, Placed, FineTcbs;
    HoldPendingEvented(k, t);
    HoldPendingClock(k, t, now, due, low);
    HoldPendingCounted(k, t);
    FineOne(k.tcbs, t);
    WithTcbKeepsFineTcbs(k.tcbs, t, k.tcbs[t].(event := OnPendingReady));
  }

  lemma HoldPendingCounted(k: State, t: TaskId)
    requires Placed(k) && Counted(k) && t in k.tcbs
    ensures Counted(HoldPending(k, t))
  {
    assert HoldPending(k, t).tcbs.Keys == k.tcbs.Keys;
  }

  lemma HoldPendingClock(k: State, t: TaskId, now: nat, due: map<TaskId, nat>, low: nat)
    requires Placed(k) && t in k.tcbs && Clocked(k, now, due, low)
    ensures Clocked(HoldPending(k, t), now, due, low)
  {
    hide DueIn;
    WithTcbKeepsClock(k, t, k.tcbs[t].(event := OnPendingReady), now, due, low);
  }

  /** xTaskRemoveFromEventList, for the task at the head of the event list */
  function EventWake(k: State, t: TaskId): (r: State)
    requires Placed(k) && FineTcbs(k.tcbs) && t in k.tcbs && k.current in k.tcbs
    ensures Placed(r)
  {
    hide Placed, FineTcbs, Awaken;
    PendYield(if k.suspendCount == 0 then Awaken(k, t) else HoldPending(ClearEvent(k, t), t), Outranks(k, t))
  }

  /** A woken task is ready at once, or held until the scheduler resumes; a yield is
      pended if it outranks the running one. */
  lemma EventWoken(k: State, t: TaskId)
    requires Placed(k) && FineTcbs(k.tcbs) && t in k.tcbs && k.current in k.tcbs
    ensures var r, c := EventWake(k, t), k.tcbs[t];
            && r.tcbs == k.tcbs[t := if k.suspendCount == 0 then c.(list := Ready(c.priority), event := Nowhere)
                                     else c.(event := OnPendingReady)]
            && r.current == k.current && r.idle == k.idle && r.suspendCount == k.suspendCount
            && r.pendedTicks == k.pendedTicks && r.yieldPending == (k.yieldPending || Outranks(k, t))
            && (if k.suspendCount == 0 then k.pending == [] ==> r.pending == [] else t in r.pending)
  {
    hide Placed, FineTcbs, Awaken, Remove;
    AwakenWakes(k, t);
    AwakenTasks(k, t);
  }

  lemma AwakenTasks(k: State, t: TaskId)
    requires Placed(k) && FineTcbs(k.tcbs) && t in k.tcbs
    ensures Awaken(k, t).tcbs == k.tcbs[t := k.tcbs[t].(list := Ready(k.tcbs[t].priority), event := Nowhere)]
  {
    hide Placed, FineTcbs, Awaken;
    AwakenWakes(k, t);
    var r := Awaken(k, t);
    assert forall u :: u in k.tcbs <==> u in r.tcbs.Keys;
  }

  lemma UnorderedWoken(k: State, t: TaskId, value: nat)
    requires Placed(k) && FineTcbs(k.tcbs) && t in k.tcbs && k.current in k.tcbs && value >= IN_USE
    ensures var r, c := UnorderedWake(k, t, value), k.tcbs[t];
            && r.tcbs == k.tcbs[t := c.(list := Ready(c.priority), event := Nowhere, eventValue := value)]
            && r.current == k.current && r.idle == k.idle && r.suspendCount == k.suspendCount
            && r.pendedTicks == k.pendedTicks && r.yieldPending == (k.yieldPending || Outranks(k, t))
            && (k.pending == [] ==> r.pending == [])
  {
    hide Placed, FineTcbs, Awaken;
    FineOne(k.tcbs, t);
    WithTcbKeepsFineTcbs(k.tcbs, t, k.tcbs[t].(eventValue := value));
    var c := WithTcb(k, t, k.tcbs[t].(eventValue := value));
    AwakenTasks(c, t);
    MapTwice(k.tcbs, t, c.tcbs[t], c.tcbs[t].(list := Ready(c.tcbs[t].priority), event := Nowhere));
  }

  lemma EventWakeKeeps(k: State, t: TaskId, now: nat, due: map<TaskId, nat>, low: nat)
    requires Sound(k, now, due, low) && t in k.tcbs && k.tcbs[t].event == OnEventList
    ensures Sound(EventWake(k, t), now, due, low)
  {
    hide Clocked, Evented, DueIn, Fine, Indexed, Placed, Awaken, ClearEvent, HoldPending, PendYield;
    SoundGives(k, now, due, low);
    EventGives(k, t);
    if k.suspendCount == 0 {
      AwakenKeeps(k, t, now, due, low);
      PendYieldKeeps(Awaken(k, t), Outranks(k, t), now, due, low);
    } else {
      ClearKeepsSound(k, t, now, due, low);
      var c := ClearEvent(k, t);
      ClearedTask(k, t);
      HoldPendingKeeps(c, t, now, due, low);
      PendYieldKeeps(HoldPending(c, t), Outranks(k, t), now, due, low);
    }
  }

  lemma EventGives(k: State, t: TaskId)
    requires Evented(k) && t in k.tcbs
    ensures k.tcbs[t].event != Nowhere ==> k.tcbs[t].list != Termination && k.tcbs[t].notify != Waiting
    ensures k.tcbs[t].event == OnEventList ==> Sleeping(k.tcbs[t].list)
  {
  }

  lemma ClearedTask(k: State, t: TaskId)
    requires t in k.tcbs
    ensures ClearEvent(k, t).tcbs == k.tcbs[t := k.tcbs[t].(event := Nowhere)]
  {
  }

  lemma ClearKeepsSound(k: State, t: TaskId, now: nat, due: map<TaskId, nat>, low: nat)
    requires Sound(k, now, due, low) && t in k.tcbs
    ensures Sound(ClearEvent(k, t), now, due, low)
  {
    hide Clocked, Evented, DueIn, Fine;
    SoundGives(k, now, due, low);
    ClearEventKeeps(k, t, now, due, low);
  }

  /** vTaskRemoveFromUnorderedEventList; the scheduler is suspended, yet the
      task becomes ready at once. */
  function UnorderedWake(k: State, t: TaskId, value: nat): (r: State)
    requires Placed(k) && FineTcbs(k.tcbs) && t in k.tcbs && k.current in k.tcbs && value >= IN_USE
    ensures Placed(r)
  {
    hide Placed, Awaken;
    var c := WithTcb(k, t, k.tcbs[t].(eventValue := value));
    PendYield(Awaken(c, t), Outranks(k, t))
  }

  lemma UnorderedWakeKeeps(k: State, t: TaskId, value: nat, now: nat, due: map<TaskId, nat>, low: nat)
    requires Sound(k, now, due, low) && t in k.tcbs && k.tcbs[t].event == OnEventList && value >= IN_USE
    ensures FineTcbs(k.tcbs) && Sound(UnorderedWake(k, t, value), now, due, low)
  {
    hide Clocked, Evented, DueIn, Fine, Indexed, Placed, Awaken, PendYield;
    SoundGives(k, now, due, low);
    EventGives(k, t);
    var c := WithTcb(k, t, k.tcbs[t].(eventValue := value));
    WithTcbKeeps(k, t, c.tcbs[t], now, due, low);
    AwakenKeeps(c, t, now, due, low);
    SoundGives(c, now, due, low);
    PendYieldKeeps(Awaken(c, t), Outranks(k, t), now, due, low);
  }

  /** uxTaskResetEventItemValue: gives the running task's event item its
      priority-based value again; the second result is the value it had. */
  function ResetEventValue(k: State): (r: (State, nat))
    requires k.current in k.tcbs && k.tcbs[k.current].priority < MAX_PRIORITIES
    ensures Placed(k) ==> Placed(r.0)
  {
    var c := k.tcbs[k.current];
    (WithTcb(k, k.current, c.(eventValue := MAX_PRIORITIES - c.priority)), c.eventValue)
  }

  lemma ResetEventValueKeeps(k: State, now: nat, due: map<TaskId, nat>, low: nat)
    requires Sound(k, now, due, low) && k.current in k.tcbs
    ensures k.tcbs[k.current].priority < MAX_PRIORITIES && Sound(ResetEventValue(k).0, now, due, low)
  {
    hide Sound, Placed;
    SoundGives(k, now, due, low);
    var c := k.tcbs[k.current];
    EventGives(k, k.current);
    ReadyGives(k, k.current, now, due, low);
    WithTcbKeeps(k, k.current, c.(eventValue := MAX_PRIORITIES - c.priority), now, due, low);
  }

  lemma ReadyGives(k: State, t: TaskId, now: nat, due: map<TaskId, nat>, low: nat)
    requires Sound(k, now, due, low) && t in k.tcbs
    ensures k.tcbs[t].list.Ready? ==> k.tcbs[t].list.priority == k.tcbs[t].priority
    ensures k.tcbs[t].notify == Waiting ==> k.tcbs[t].event == Nowhere
  {
    hide Clocked;
  }
}
