/** What each call and each interrupt leaves, field by field and list by list,
    in every reachable state; nothing here names the functions of the steps. */
module Effects {
  import opened Lists
  import opened Words
  import opened Kernel
  import opened Ticks
  import opened Suspension
  import opened Tasks
  import opened Lifecycle
  import opened Priorities
  import opened Notify
  import opened Runs

  // ----- what a move is -----------------------------------------------------------

  /** t's state item has left its list, and every other list is as it was. */
  ghost function WithoutItem(k: State, t: TaskId): map<ListId, ListV<TaskId>>
    requires t in k.tcbs && k.tcbs[t].list in k.lists && t in k.lists[k.tcbs[t].list].items
  {
    k.lists[k.tcbs[t].list := Remove(k.lists[k.tcbs[t].list], t)]
  }

  /** t's state item has gone to the back of list l, and t is as c says; the
      highest ready priority is raised to that of l. Nothing else differs. */
  ghost predicate MovedBack(k: State, r: State, t: TaskId, l: ListId, c: Tcb) {
    && t in k.tcbs && k.tcbs[t].list in k.lists && t in k.lists[k.tcbs[t].list].items
    && var gone := WithoutItem(k, t);
       && l in gone && gone[l].index <= |gone[l].items|
       && r == k.(tcbs := k.tcbs[t := c.(list := l)], lists := gone[l := InsertEnd(gone[l], t)],
                  topReady := if l.Ready? && k.topReady < l.priority then l.priority else k.topReady)
       && t in r.lists[l].items
  }

  lemma MoveToEndBack(k: State, t: TaskId, l: ListId)
    requires Placed(k) && t in k.tcbs && IsList(l) && (l.Ready? ==> l.priority <= k.topReady)
    ensures MovedBack(k, MoveToEnd(k, t, l), t, l, k.tcbs[t])
  {
    hide NoDuplicates, Remove, InsertAt;
    RelinkRoom(k, t, l);
    var gone := Unlinked(k, t);
    EndHolds(gone[l], t);
  }

  lemma EndHolds(l: ListV<TaskId>, t: TaskId)
    requires l.index <= |l.items|
    ensures t in InsertEnd(l, t).items
  {
    var pos := EndPosition(l);
    assert InsertEnd(l, t).items[pos] == t;
  }

  /** A move of a task whose fields were set first, while a yield was pended
      afterwards, is a move from the state before. */
  lemma MovedFrom(k: State, w: State, r: State, t: TaskId, l: ListId, c: Tcb, wanted: bool)
    requires t in k.tcbs && t in w.tcbs && w.tcbs[t].list == k.tcbs[t].list
    requires w == k.(tcbs := k.tcbs[t := w.tcbs[t]]) && MovedBack(w, r, t, l, c)
    ensures MovedBack(k.(yieldPending := k.yieldPending || wanted), PendYield(r, wanted), t, l, c)
  {
    MapTwice(k.tcbs, t, w.tcbs[t], c.(list := l));
  }

  lemma ReadyBack(k: State, t: TaskId)
    requires Placed(k) && t in k.tcbs && k.tcbs[t].priority < MAX_PRIORITIES
    ensures MovedBack(k, MakeReady(k, t), t, Ready(k.tcbs[t].priority), k.tcbs[t])
  {
    hide Placed, MoveToEnd;
    TopFree(k, HighestOf(k.topReady, k.tcbs[t].priority));
    MoveToEndBack(k.(topReady := HighestOf(k.topReady, k.tcbs[t].priority)), t, Ready(k.tcbs[t].priority));
  }

  lemma TopFree(k: State, top: nat)
    requires Placed(k)
    ensures Placed(k.(topReady := top))
  {
  }

  // ----- resuming one task ----------------------------------------------------------

  /** vTaskResume readies a task that is suspended outright and not running,
      and does nothing else; otherwise it changes nothing. */
  lemma ResumeEffect(c: Config, t: TaskId)
    requires Good(c) && Enabled(c.k, Resume(t))
    ensures Steppable(c.k)
    ensures var k, r, was := c.k, Step(c, Resume(t)), c.k.tcbs[t];
            if t != k.current && was.list == Suspended && was.event == Nowhere && was.notify != Waiting then
              MovedBack(k, r.k, t, Ready(was.priority), was) && r.now == c.now && r.due == c.due
            else r == c
  {
    hide Sound, Placed, FineTcbs, SomeReady, PendingKnown, MakeReady, MovedBack;
    InvGives(c.k, c.now, c.due);
    FineOne(c.k.tcbs, t);
    ReadyBack(c.k, t);
  }

  /** From an interrupt it pends a yield for a task that outranks the running
      one, and holds the task on the pending-ready list while the scheduler is
      suspended. */
  lemma ResumeInterruptEffect(c: Config, t: TaskId)
    requires Good(c) && Enabled(c.k, ResumeInterrupt(t))
    ensures Steppable(c.k)
    ensures var k, r, was := c.k, Step(c, ResumeInterrupt(t)), c.k.tcbs[t];
            if !(was.list == Suspended && was.event == Nowhere && was.notify != Waiting) then r == c
            else
              && r.now == c.now && r.due == c.due
              && if k.suspendCount == 0 then
                   MovedBack(k.(yieldPending := k.yieldPending || was.priority > k.tcbs[k.current].priority),
                             r.k, t, Ready(was.priority), was)
                 else r.k == k.(pending := k.pending + [t], tcbs := k.tcbs[t := was.(event := OnPendingReady)])
  {
    hide Sound, Placed, FineTcbs, SomeReady, PendingKnown, MakeReady, MovedBack;
    InvGives(c.k, c.now, c.due);
    FineOne(c.k.tcbs, t);
    ReadyBack(c.k, t);
    MovedFrom(c.k, c.k, MakeReady(c.k, t), t, Ready(c.k.tcbs[t].priority), c.k.tcbs[t], Outranks(c.k, t));
  }

  // ----- notifications ----------------------------------------------------------------

  /** The value that a notification leaves; a second one without overwriting is
      refused and leaves the first. */
  ghost predicate Written(was: Tcb, a: Action, v: Word) {
    match a
    case SetBits(bits) => Joined(v, was.notified, bits)
    case Increment => v == if was.notified == 0xFFFF_FFFF then 0 else was.notified + 1
    case Overwrite(value) => v == value
    case NoOverwrite(value) => v == if was.notify == Received then was.notified else value
    case NoAction => v == was.notified
  }

  lemma NotifiedIsWritten(was: Tcb, a: Action)
    ensures Written(was, a, Notified(was, a))
  {
    hide Join, Joined;
    if a.SetBits? {
      JoinOfBits(was.notified, a.bits);
    }
  }

  /** A notification is recorded, and a task that waits for it is ready at
      once. */
  lemma NotifyEffect(c: Config, t: TaskId, a: Action)
    requires Good(c) && Enabled(c.k, NotifyTask(t, a))
    ensures Steppable(c.k) && t in Step(c, NotifyTask(t, a)).k.tcbs
    ensures var k, r, was := c.k, Step(c, NotifyTask(t, a)), c.k.tcbs[t];
            var now := was.(notify := Received, notified := r.k.tcbs[t].notified);
            && Written(was, a, now.notified) && r.now == c.now && r.due == c.due
            && if was.notify == Waiting then MovedBack(k, r.k, t, Ready(was.priority), now)
               else r.k == k.(tcbs := k.tcbs[t := now])
  {
    hide Sound, Placed, FineTcbs, SomeReady, PendingKnown, MakeReady, MovedBack, Written, Notified;
    InvGives(c.k, c.now, c.due);
    FineOne(c.k.tcbs, t);
    var w := Record(c.k, t, a);
    NotifiedIsWritten(c.k.tcbs[t], a);
    ReadyBack(w, t);
    ReadiedTask(w, t);
    MovedFrom(c.k, w, MakeReady(w, t), t, Ready(w.tcbs[t].priority), w.tcbs[t], false);
  }

  /** From an interrupt, a task that waits is ready at once, or held on the
      pending-ready list while the scheduler is suspended; in both cases a yield
      is pended exactly when it outranks the running task. */
  lemma NotifyInterruptEffect(c: Config, t: TaskId, a: Action)
    requires Good(c) && Enabled(c.k, NotifyInterrupt(t, a))
    ensures Steppable(c.k) && t in Step(c, NotifyInterrupt(t, a)).k.tcbs
    ensures var k, r, was := c.k, Step(c, NotifyInterrupt(t, a)), c.k.tcbs[t];
            var now := was.(notify := Received, notified := r.k.tcbs[t].notified);
            var y := k.yieldPending || was.priority > k.tcbs[k.current].priority;
            && Written(was, a, now.notified) && r.now == c.now && r.due == c.due
            && if was.notify != Waiting then r.k == k.(tcbs := k.tcbs[t := now])
               else if k.suspendCount == 0 then
                 MovedBack(k.(yieldPending := y), r.k, t, Ready(was.priority), now)
               else
                 r.k == k.(yieldPending := y, pending := k.pending + [t],
                           tcbs := k.tcbs[t := now.(event := OnPendingReady)])
  {
    hide Sound, Placed, FineTcbs, SomeReady, PendingKnown, MakeReady, MovedBack, Written, Notified;
    InvGives(c.k, c.now, c.due);
    FineOne(c.k.tcbs, t);
    var w := Record(c.k, t, a);
    NotifiedIsWritten(c.k.tcbs[t], a);
    ReadyBack(w, t);
    ReadiedTask(w, t);
    MovedFrom(c.k, w, MakeReady(w, t), t, Ready(w.tcbs[t].priority), w.tcbs[t], Outranks(c.k, t));
    MapTwice(c.k.tcbs, t, w.tcbs[t], w.tcbs[t].(event := OnPendingReady));
  }

  /** Only NoOverwrite on a task that has a notification already is refused. */
  lemma RefusedWhen(was: Tcb, a: Action)
    ensures Accepted(was, a) <==> (a.NoOverwrite? ==> was.notify != Received)
    ensures !Accepted(was, a) ==> Notified(was, a) == was.notified
  {
  }

  /** A task starts to wait for a count only while it is zero. */
  lemma StartTakeEffect(c: Config)
    requires Good(c) && Enabled(c.k, WaitForCount)
    ensures Steppable(c.k)
    ensures var k, was := c.k, c.k.tcbs[c.k.current];
            Step(c, WaitForCount) ==
            if was.notified != 0 then c
            else c.(k := k.(tcbs := k.tcbs[k.current := was.(notify := Waiting)]))
  {
    hide Sound, Placed, FineTcbs, SomeReady, PendingKnown;
    InvGives(c.k, c.now, c.due);
  }

  /** A task starts to wait for a notification only while it has none, and
      then clears bits of its value. */
  lemma StartWaitEffect(c: Config, bits: Word)
    requires Good(c) && Enabled(c.k, WaitForNotification(bits))
    ensures Steppable(c.k)
    ensures var k, r, was := c.k, Step(c, WaitForNotification(bits)), c.k.tcbs[c.k.current];
            if was.notify == Received then r == c
            else
              && k.current in r.k.tcbs && Cleared(r.k.tcbs[k.current].notified, was.notified, bits)
              && r == c.(k := k.(tcbs := k.tcbs[k.current := was.(notify := Waiting,
                                                                   notified := r.k.tcbs[k.current].notified)]))
  {
    hide Sound, Placed, FineTcbs, SomeReady, PendingKnown, Clear, Cleared;
    InvGives(c.k, c.now, c.due);
    ClearOfBits(c.k.tcbs[c.k.current].notified, bits);
  }

  /** A take returns the count that it finds, and leaves one less, or none. */
  lemma TakeEffect(c: Config, clearCount: bool)
    requires Good(c) && Enabled(c.k, TakeNotification(clearCount))
    ensures Steppable(c.k) && Placed(c.k) && c.k.current in c.k.tcbs
    ensures var k, r, was := c.k, Step(c, TakeNotification(clearCount)), c.k.tcbs[c.k.current];
            var taken := FinishTake(k, clearCount).1;
            && taken == was.notified && k.current in r.k.tcbs
            && var left := r.k.tcbs[k.current].notified;
               && (clearCount || taken == 0 ==> left == 0) && (!clearCount && taken > 0 ==> left == taken - 1)
               && r == c.(k := k.(tcbs := k.tcbs[k.current := was.(notify := NotWaiting, notified := left)]))
  {
    hide Sound, Placed, FineTcbs, SomeReady, PendingKnown;
    InvGives(c.k, c.now, c.due);
  }

  /** A wait reports success exactly when a notification was received, and
      only then clears bits. */
  lemma WaitEffect(c: Config, clearOnExit: Word)
    requires Good(c) && Enabled(c.k, EndWait(clearOnExit))
    ensures Steppable(c.k) && Placed(c.k) && c.k.current in c.k.tcbs
    ensures var k, r, was := c.k, Step(c, EndWait(clearOnExit)), c.k.tcbs[c.k.current];
            && FinishWait(k, clearOnExit).1 == (was.notify == Received) && k.current in r.k.tcbs
            && var left := r.k.tcbs[k.current].notified;
               && (if was.notify == Received then Cleared(left, was.notified, clearOnExit) else left == was.notified)
               && r == c.(k := k.(tcbs := k.tcbs[k.current := was.(notify := NotWaiting, notified := left)]))
  {
    hide Sound, Placed, FineTcbs, SomeReady, PendingKnown, Clear, Cleared;
    InvGives(c.k, c.now, c.due);
    ClearOfBits(c.k.tcbs[c.k.current].notified, clearOnExit);
  }

  /** Clearing the state takes a received notification back but does not stop a
      wait; clearing bits changes the value only. */
  lemma ClearEffect(c: Config, t: TaskId, bits: Word)
    requires Good(c) && Enabled(c.k, ClearNotification(t)) && Enabled(c.k, ClearNotifiedBits(t, bits))
    ensures Steppable(c.k)
    ensures var k, r, was := c.k, Step(c, ClearNotification(t)), c.k.tcbs[t];
            r == if was.notify == Received then c.(k := k.(tcbs := k.tcbs[t := was.(notify := NotWaiting)])) else c
    ensures var k, r, was := c.k, Step(c, ClearNotifiedBits(t, bits)), c.k.tcbs[t];
            && t in r.k.tcbs && Cleared(r.k.tcbs[t].notified, was.notified, bits)
            && r == c.(k := k.(tcbs := k.tcbs[t := was.(notified := r.k.tcbs[t].notified)]))
  {
    hide Sound, Placed, FineTcbs, SomeReady, PendingKnown, Clear, Cleared;
    InvGives(c.k, c.now, c.due);
    ClearOfBits(c.k.tcbs[t].notified, bits);
    assert c.k.tcbs == c.k.tcbs[t := c.k.tcbs[t]];
  }

  // ----- events ---------------------------------------------------------------------------

  lemma AwakenBack(k: State, t: TaskId)
    requires Placed(k) && FineTcbs(k.tcbs) && t in k.tcbs && t !in k.pending
    ensures MovedBack(k, Awaken(k, t), t, Ready(k.tcbs[t].priority), k.tcbs[t].(event := Nowhere))
  {
    hide Placed, FineTcbs, MakeReady, MovedBack;
    FineOne(k.tcbs, t);
    var w := ClearEvent(k, t);
    ReadyBack(w, t);
    MovedFrom(k, w, MakeReady(w, t), t, Ready(w.tcbs[t].priority), w.tcbs[t], false);
  }

  lemma WaiterGives(k: State, t: TaskId, now: nat, due: map<TaskId, nat>)
    requires Inv(k, now, due) && t in k.tcbs && k.tcbs[t].event == OnEventList
    ensures t !in k.pending
  {
    hide Clocked;
  }

  /** t is ready, or held on the pending-ready list if the scheduler is suspended;
      a yield is pended if t outranks the running task. */
  ghost predicate Woken(k: State, r: State, t: TaskId)
    requires t in k.tcbs && k.current in k.tcbs
  {
    var was := k.tcbs[t];
    var y := k.yieldPending || was.priority > k.tcbs[k.current].priority;
    if k.suspendCount == 0 then
      MovedBack(k.(yieldPending := y), r, t, Ready(was.priority), was.(event := Nowhere))
    else
      r == k.(yieldPending := y, pending := k.pending + [t], tcbs := k.tcbs[t := was.(event := OnPendingReady)])
  }

  /** The first waiter of an event is woken. */
  lemma EventEffect(c: Config, t: TaskId)
    requires Good(c) && Enabled(c.k, Event(t))
    ensures Steppable(c.k)
    ensures var r := Step(c, Event(t)); r.now == c.now && r.due == c.due && Woken(c.k, r.k, t)
  {
    hide Sound, Placed, FineTcbs, SomeReady, PendingKnown, EventWake;
    InvGives(c.k, c.now, c.due);
    WaiterGives(c.k, t, c.now, c.due);
    WokenBack(c.k, t);
  }

  lemma WokenBack(k: State, t: TaskId)
    requires Placed(k) && FineTcbs(k.tcbs) && k.current in k.tcbs && t in k.tcbs && t !in k.pending
    ensures Woken(k, EventWake(k, t), t)
  {
    hide Placed, FineTcbs, Awaken, MovedBack;
    var was := k.tcbs[t];
    AwakenBack(k, t);
    MovedFrom(k, k, Awaken(k, t), t, Ready(was.priority), was.(event := Nowhere), Outranks(k, t));
    MapTwice(k.tcbs, t, was.(event := Nowhere), was.(event := OnPendingReady));
  }

  /** A waiter on an unordered event list gets the value and is ready at once,
      though the scheduler is suspended. */
  lemma UnorderedEventEffect(c: Config, t: TaskId, value: nat)
    requires Good(c) && Enabled(c.k, UnorderedEvent(t, value))
    ensures Steppable(c.k)
    ensures var k, r, was := c.k, Step(c, UnorderedEvent(t, value)), c.k.tcbs[t];
            && r.now == c.now && r.due == c.due
            && MovedBack(k.(yieldPending := k.yieldPending || was.priority > k.tcbs[k.current].priority),
                         r.k, t, Ready(was.priority), was.(event := Nowhere, eventValue := value))
  {
    hide Sound, Placed, FineTcbs, SomeReady, PendingKnown, Awaken, MovedBack;
    InvGives(c.k, c.now, c.due);
    WaiterGives(c.k, t, c.now, c.due);
    var k, was := c.k, c.k.tcbs[t];
    var w := WithTcb(k, t, was.(eventValue := value));
    FineOne(k.tcbs, t);
    WithTcbKeepsFineTcbs(k.tcbs, t, w.tcbs[t]);
    AwakenBack(w, t);
    MovedFrom(k, w, Awaken(w, t), t, Ready(was.priority), w.tcbs[t].(event := Nowhere), Outranks(k, t));
  }

  /** The running task's event value becomes that of its priority again. */
  lemma ReadEventValueEffect(c: Config)
    requires Good(c) && Enabled(c.k, ReadEventValue)
    ensures Steppable(c.k) && c.k.tcbs[c.k.current].priority < MAX_PRIORITIES
    ensures var k, was := c.k, c.k.tcbs[c.k.current];
            && Step(c, ReadEventValue) ==
               c.(k := k.(tcbs := k.tcbs[k.current := was.(eventValue := MAX_PRIORITIES - was.priority)]))
            && ResetEventValue(k).1 == was.eventValue
  {
    hide Sound, Placed, SomeReady, PendingKnown;
    InvGives(c.k, c.now, c.due);
  }

  // ----- blocking -------------------------------------------------------------------------

  /** t's state item has gone to list l with the item value wake, behind all
      items that wake no later and before all that wake later; t is as c says. */
  ghost predicate MovedInOrder(k: State, r: State, t: TaskId, l: ListId, c: Tcb, wake: nat) {
    && t in k.tcbs && k.tcbs[t].list in k.lists && t in k.lists[k.tcbs[t].list].items
    && var gone := WithoutItem(k, t);
       && l in gone && (forall u :: u in gone[l].items ==> u in k.tcbs)
       && r == k.(tcbs := k.tcbs[t := c.(list := l, wake := wake)], lists := r.lists)
       && exists pos ::
            && 0 <= pos <= |gone[l].items| && r.lists == gone[l := InsertAt(gone[l], pos, t)]
            && forall i :: 0 <= i < |gone[l].items| ==>
                 (i < pos <==> (assert gone[l].items[i] in gone[l].items; k.tcbs[gone[l].items[i]].wake <= wake))
  }

  lemma SortedMove(k: State, t: TaskId, l: ListId, wake: nat, due: map<TaskId, nat>, epoch: nat, low: nat)
    requires Placed(k) && t in k.tcbs && IsList(l) && k.tcbs[t].list != l
    requires DueIn(k.tcbs, k.lists[l].items, due, epoch, low)
    ensures MovedInOrder(k, MoveSorted(k, t, l, wake), t, l, k.tcbs[t], wake)
  {
    hide Placed, Remove, InsertAt, DueIn, SortedPosition;
    var w := WithTcb(k, t, k.tcbs[t].(wake := wake));
    UnlinkedKnown(w, t, l);
    StandsAside(k, t, l);
    OrderedPlace(k, t, l, wake, due, epoch, low);
    MapTwice(k.tcbs, t, w.tcbs[t], w.tcbs[t].(list := l));
    assert MoveSorted(k, t, l, wake).lists == WithoutItem(k, t)[l := InsertAt(k.lists[l], SortedPosition(w, t, l), t)];
  }

  lemma StandsAside(k: State, t: TaskId, l: ListId)
    requires Placed(k) && t in k.tcbs && IsList(l) && k.tcbs[t].list != l
    ensures k.tcbs[t].list in k.lists && t in k.lists[k.tcbs[t].list].items
    ensures l in k.lists && t !in k.lists[l].items && Unlinked(k, t) == WithoutItem(k, t)
    ensures WithoutItem(k, t)[l] == k.lists[l] && forall u :: u in k.lists[l].items ==> u in k.tcbs
  {
    hide NoDuplicates, Remove;
  }

  lemma OrderedPlace(k: State, t: TaskId, l: ListId, wake: nat, due: map<TaskId, nat>, epoch: nat, low: nat)
    requires Placed(k) && t in k.tcbs && IsList(l) && k.tcbs[t].list != l
    requires DueIn(k.tcbs, k.lists[l].items, due, epoch, low)
    ensures forall u :: u in k.lists[l].items ==> u in k.tcbs
    ensures var pos := SortedPosition(WithTcb(k, t, k.tcbs[t].(wake := wake)), t, l);
            && pos <= |k.lists[l].items|
            && forall i :: 0 <= i < |k.lists[l].items| ==>
                 (i < pos <==> (assert k.lists[l].items[i] in k.lists[l].items;
                                k.tcbs[k.lists[l].items[i]].wake <= wake))
  {
    hide NoDuplicates, Remove, InsertAt, Sorted;
    StandsAside(k, t, l);
    var w, s := WithTcb(k, t, k.tcbs[t].(wake := wake)), k.lists[l].items;
    assert Unlinked(w, t)[l].items == s;
    assert Keys(w.tcbs, s) == Keys(k.tcbs, s);
    InsertKeepsSorted(Keys(k.tcbs, s), wake);
  }

  /** The running task goes to sleep until now + ticks: it joins, in the order of
      waking, the list of the epoch that its deadline lies in, and the next
      unblock time is lowered to its wake time if it is to wake in this epoch. */
  ghost predicate FallsAsleep(k: State, r: State, c: Tcb, ticks: nat, now: nat) {
    var deadline := now + ticks;
    var wake, thisEpoch := deadline % TICK_MODULUS, deadline / TICK_MODULUS == now / TICK_MODULUS;
    MovedInOrder(k.(nextUnblock := if thisEpoch && wake < k.nextUnblock then wake else k.nextUnblock), r,
                 k.current, if thisEpoch == k.firstIsCurrent then Delayed1 else Delayed2, c, wake)
  }

  /** A delay without a timeout suspends the running task; any other one puts it
      to sleep until its deadline. */
  lemma DelayEffect(c: Config, ticks: nat, forever: bool)
    requires Good(c) && Enabled(c.k, Delay(ticks, forever))
    ensures Steppable(c.k)
    ensures var k, r, was := c.k, Step(c, Delay(ticks, forever)), c.k.tcbs[c.k.current];
            && r.now == c.now
            && if ticks == MAX_DELAY && forever then MovedBack(k, r.k, k.current, Suspended, was) && r.due == c.due
               else FallsAsleep(k, r.k, was, ticks, c.now) && r.due == c.due[k.current := c.now + ticks]
  {
    hide Sound, Placed, FineTcbs, SomeReady, PendingKnown, Block, MovedBack, FallsAsleep;
    InvGives(c.k, c.now, c.due);
    if ticks == MAX_DELAY && forever {
      BlockBack(c.k, ticks, c.now, c.due);
    } else {
      BlockInOrder(c.k, ticks, forever, c.now, c.due);
    }
  }

  lemma BlockBack(k: State, ticks: nat, now: nat, due: map<TaskId, nat>)
    requires Inv(k, now, due) && CanBlock(k, ticks) && ticks == MAX_DELAY
    ensures Placed(k) && MovedBack(k, Block(k, ticks, true), k.current, Suspended, k.tcbs[k.current])
  {
    hide Sound, Placed, MoveToEnd, MovedBack;
    SoundGives(k, now, due, now + 1);
    MoveToEndBack(k, k.current, Suspended);
  }

  lemma BlockInOrder(k: State, ticks: nat, forever: bool, now: nat, due: map<TaskId, nat>)
    requires Inv(k, now, due) && CanBlock(k, ticks) && !(ticks == MAX_DELAY && forever)
    ensures Placed(k) && FallsAsleep(k, Block(k, ticks, forever), k.tcbs[k.current], ticks, now)
  {
    hide Fine, Indexed, Placed, MoveSorted, MovedInOrder, DueIn;
    SoundGives(k, now, due, now + 1);
    WakeTime(now, ticks);
    var t, wake := k.current, (k.tick + ticks) % TICK_MODULUS;
    if wake < k.tick {
      SortedMove(k, t, OverflowDelayed(k), wake, due, now / TICK_MODULUS + 1, 0);
    } else {
      SortedMove(k, t, CurrentDelayed(k), wake, due, now / TICK_MODULUS, now + 1);
      LoweredInOrder(k, MoveSorted(k, t, CurrentDelayed(k), wake), t, CurrentDelayed(k), k.tcbs[t], wake,
                     if wake < k.nextUnblock then wake else k.nextUnblock);
    }
  }

  lemma LoweredInOrder(k: State, r: State, t: TaskId, l: ListId, c: Tcb, wake: nat, next: nat)
    requires MovedInOrder(k, r, t, l, c, wake)
    ensures MovedInOrder(k.(nextUnblock := next), r.(nextUnblock := next), t, l, c, wake)
  {
  }

  /** A task that waits for an event with a timeout sleeps likewise, and is on
      the event list with its item value. */
  lemma WaitForEventEffect(c: Config, value: nat, ticks: nat)
    requires Good(c) && Enabled(c.k, WaitForEvent(value, ticks))
    ensures Steppable(c.k)
    ensures var k, r := c.k, Step(c, WaitForEvent(value, ticks));
            var was := k.tcbs[k.current].(event := OnEventList, eventValue := value);
            && r.now == c.now
            && if ticks == MAX_DELAY then MovedBack(k, r.k, k.current, Suspended, was) && r.due == c.due
               else FallsAsleep(k, r.k, was, ticks, c.now) && r.due == c.due[k.current := c.now + ticks]
  {
    hide Sound, Placed, FineTcbs, SomeReady, PendingKnown, Block, MovedBack, FallsAsleep;
    InvGives(c.k, c.now, c.due);
    var k, t := c.k, c.k.current;
    BlockedTask(k, ticks, true);
    if ticks == MAX_DELAY {
      BlockBack(k, ticks, c.now, c.due);
      PlacedBack(k, Block(k, ticks, true), t, Suspended, k.tcbs[t], value);
    } else {
      BlockInOrder(k, ticks, true, c.now, c.due);
      PlacedInOrder(k, Block(k, ticks, true), k.tcbs[t], value, ticks, c.now);
    }
  }

  lemma PlacedBack(k: State, b: State, t: TaskId, l: ListId, c: Tcb, value: nat)
    requires MovedBack(k, b, t, l, c)
    ensures var r := WithTcb(b, t, b.tcbs[t].(event := OnEventList, eventValue := value));
            MovedBack(k, r, t, l, c.(event := OnEventList, eventValue := value))
  {
    MapTwice(k.tcbs, t, b.tcbs[t], b.tcbs[t].(event := OnEventList, eventValue := value));
  }

  lemma PlacedInOrder(k: State, b: State, c: Tcb, value: nat, ticks: nat, now: nat)
    requires FallsAsleep(k, b, c, ticks, now)
    ensures k.current in b.tcbs
    ensures var r := WithTcb(b, k.current, b.tcbs[k.current].(event := OnEventList, eventValue := value));
            FallsAsleep(k, r, c.(event := OnEventList, eventValue := value), ticks, now)
  {
    hide Remove, InsertAt;
    var t := k.current;
    MapTwice(k.tcbs, t, b.tcbs[t], b.tcbs[t].(event := OnEventList, eventValue := value));
  }

  // ----- suspending, changing priority, creating and deleting tasks -----------------------------------

  /** The pending-ready list without t. */
  function NotPending(k: State, t: TaskId): seq<TaskId> {
    if t in k.pending then Remove(ListV(k.pending, 0), t).items else k.pending
  }

  /** The next unblock time is that of the earliest task of this epoch. */
  ghost predicate NextIsHead(k: State) {
    var l := if k.firstIsCurrent then Delayed1 else Delayed2;
    && l in k.lists && (k.lists[l].items == [] ==> k.nextUnblock == MAX_DELAY)
    && (k.lists[l].items != [] ==>
          && k.lists[l].items[0] in k.tcbs && k.nextUnblock == k.tcbs[k.lists[l].items[0]].wake)
  }

  lemma ResetIsHead(k: State)
    requires Placed(k)
    ensures var r := ResetNextUnblock(k); NextIsHead(r) && r == k.(nextUnblock := r.nextUnblock)
  {
    var cur := k.lists[CurrentDelayed(k)].items;
    assert cur != [] ==> cur[0] in cur;
  }

  /** Suspending a task takes it off every list of events and of pending tasks,
      and ends its wait for a notification. */
  lemma SuspendEffect(c: Config, t: TaskId)
    requires Good(c) && Enabled(c.k, Suspend(t))
    ensures Steppable(c.k)
    ensures var k, r, was := c.k, Step(c, Suspend(t)), c.k.tcbs[t];
            && r.now == c.now && r.due == c.due && NextIsHead(r.k)
            && MovedBack(k.(pending := NotPending(k, t), nextUnblock := r.k.nextUnblock), r.k, t, Suspended,
                         was.(event := Nowhere, notify := if was.notify == Waiting then NotWaiting else was.notify))
  {
    hide Sound, Placed, FineTcbs, SomeReady, PendingKnown, MoveToEnd, MovedBack, NextIsHead, ResetNextUnblock;
    InvGives(c.k, c.now, c.due);
    var k := c.k;
    var w := ClearEvent(WithTcb(k, t, StopWaiting(k.tcbs[t])), t);
    var p := k.(pending := NotPending(k, t));
    MoveToEndBack(w, t, Suspended);
    MapTwice(k.tcbs, t, StopWaiting(k.tcbs[t]), w.tcbs[t]);
    var m := MoveToEnd(w, t, Suspended);
    ResetIsHead(m);
    BackAndReset(p, w, m, ResetNextUnblock(m).nextUnblock, t, Suspended, w.tcbs[t]);
  }

  lemma BackAndReset(k: State, w: State, m: State, next: nat, t: TaskId, l: ListId, c: Tcb)
    requires t in k.tcbs && t in w.tcbs && w.tcbs[t].list == k.tcbs[t].list
    requires w == k.(tcbs := k.tcbs[t := w.tcbs[t]]) && MovedBack(w, m, t, l, c)
    ensures MovedBack(k.(nextUnblock := next), m.(nextUnblock := next), t, l, c)
  {
    MapTwice(k.tcbs, t, w.tcbs[t], c.(list := l));
  }

  /** vTaskPrioritySet sets the base priority. The effective one follows it, but
      for a task that has inherited a higher one. */
  lemma PrioritiseEffect(c: Config, t: TaskId, wanted: nat)
    requires Good(c) && Enabled(c.k, Prioritise(t, wanted))
    ensures Steppable(c.k)
    ensures var k, r, was := c.k, Step(c, Prioritise(t, wanted)), c.k.tcbs[t];
            var p := if wanted < MAX_PRIORITIES then wanted else MAX_PRIORITIES - 1;
            var effective := if was.priority == was.basePriority || was.priority < p then p else was.priority;
            var now := was.(basePriority := p, priority := effective,
                            eventValue := if was.eventValue >= IN_USE then was.eventValue else MAX_PRIORITIES - p);
            && r.now == c.now && r.due == c.due
            && if was.basePriority == p then r == c
               else if was.list.Ready? then MovedBack(k, r.k, t, Ready(effective), now)
               else r.k == k.(tcbs := k.tcbs[t := now])
  {
    hide Sound, Placed, FineTcbs, SomeReady, PendingKnown, MakeReady, MovedBack;
    InvGives(c.k, c.now, c.due);
    TcbGives(c.k, t, c.now, c.due, c.now + 1);
    var k := c.k;
    var w := WithTcb(k, t, NewPriorities(k.tcbs[t], wanted));
    ReadyBack(w, t);
    MovedFrom(k, w, MakeReady(w, t), t, Ready(w.tcbs[t].priority), w.tcbs[t], false);
    ReadiedTask(w, t);
  }

  /** A new task is ready at its priority and the last to run of those ready there. */
  lemma NewTaskEffect(c: Config, t: TaskId, priority: nat)
    requires Good(c) && Enabled(c.k, NewTask(t, priority))
    ensures Steppable(c.k)
    ensures var k, r := c.k, Step(c, NewTask(t, priority));
            var p := if priority < MAX_PRIORITIES then priority else MAX_PRIORITIES - 1;
            && r.now == c.now && r.due == c.due
            && Ready(p) in k.lists && k.lists[Ready(p)].index <= |k.lists[Ready(p)].items|
            && r.k == k.(tcbs := k.tcbs[t := Tcb(p, p, 0, Ready(p), 0, Nowhere, MAX_PRIORITIES - p, NotWaiting, 0)],
                         lists := k.lists[Ready(p) := InsertEnd(k.lists[Ready(p)], t)],
                         topReady := if k.topReady < p then p else k.topReady, taskCount := k.taskCount + 1)
  {
    hide Sound, Placed, FineTcbs, SomeReady, PendingKnown, InsertAt, Create;
    InvGives(c.k, c.now, c.due);
    CreatedBack(c.k, t, priority);
  }

  lemma CreatedBack(k: State, t: TaskId, priority: nat)
    requires Placed(k) && t !in k.tcbs
    ensures var p := if priority < MAX_PRIORITIES then priority else MAX_PRIORITIES - 1;
            && Ready(p) in k.lists && k.lists[Ready(p)].index <= |k.lists[Ready(p)].items|
            && Create(k, t, priority) ==
               k.(tcbs := k.tcbs[t := Tcb(p, p, 0, Ready(p), 0, Nowhere, MAX_PRIORITIES - p, NotWaiting, 0)],
                  lists := k.lists[Ready(p) := InsertEnd(k.lists[Ready(p)], t)],
                  topReady := if k.topReady < p then p else k.topReady, taskCount := k.taskCount + 1)
  {
    hide NoDuplicates, InsertAt;
  }

  /** Deleting another task frees it at once; the running task goes to the
      termination list, for the idle task to free. */
  lemma DeleteEffect(c: Config, t: TaskId)
    requires Good(c) && Enabled(c.k, DeleteTask(t))
    ensures Steppable(c.k)
    ensures var k, r, was := c.k, Step(c, DeleteTask(t)), c.k.tcbs[t];
            && r.now == c.now && r.due == c.due
            && if t == k.current then
                 MovedBack(k.(pending := NotPending(k, t), deletedCount := k.deletedCount + 1), r.k, t, Termination,
                           was.(event := Nowhere))
               else
                 && NextIsHead(r.k) && was.list in k.lists && t in k.lists[was.list].items && k.taskCount > 0
                 && r.k == k.(tcbs := k.tcbs - {t}, lists := WithoutItem(k, t), pending := NotPending(k, t),
                              taskCount := k.taskCount - 1, nextUnblock := r.k.nextUnblock)
  {
    hide Sound, Placed, FineTcbs, SomeReady, PendingKnown, MovedBack, NextIsHead, Delete;
    InvGives(c.k, c.now, c.due);
    SoundGives(c.k, c.now, c.due, c.now + 1);
    if t == c.k.current {
      DeletedSelf(c.k, t);
    } else {
      DeletedOther(c.k, t);
    }
  }

  lemma DeletedSelf(k: State, t: TaskId)
    requires Placed(k) && t in k.tcbs && t == k.current
    ensures MovedBack(k.(pending := NotPending(k, t), deletedCount := k.deletedCount + 1), Delete(k, t), t, Termination,
                      k.tcbs[t].(event := Nowhere))
  {
    hide Placed, MoveToEnd, Remove, InsertAt;
    var w := ClearEvent(k, t);
    MoveToEndBack(w, t, Termination);
    var m := MoveToEnd(w, t, Termination);
    MapTwice(k.tcbs, t, w.tcbs[t], w.tcbs[t].(list := Termination));
  }

  lemma DeletedOther(k: State, t: TaskId)
    requires Placed(k) && t in k.tcbs && t != k.current && k.taskCount > 0
    ensures var r := Delete(k, t);
            && NextIsHead(r) && k.tcbs[t].list in k.lists && t in k.lists[k.tcbs[t].list].items
            && r == k.(tcbs := k.tcbs - {t}, lists := WithoutItem(k, t), pending := NotPending(k, t),
                       taskCount := k.taskCount - 1, nextUnblock := r.nextUnblock)
  {
    hide Placed, Remove, NextIsHead, ResetNextUnblock;
    PlacedOne(k, t);
    var w := ClearEvent(k, t);
    ResetIsHead(Forget(w, t));
    assert w.tcbs - {t} == k.tcbs - {t};
  }

  lemma PlacedOne(k: State, t: TaskId)
    requires Placed(k) && t in k.tcbs
    ensures k.tcbs[t].list in k.lists && t in k.lists[k.tcbs[t].list].items
  {
  }

  /** The tasks that wait to be cleaned up are gone, and nothing else is. */
  ghost predicate CleanedUp(k: State, r: State) {
    && Termination in k.lists && Termination in r.lists && r.lists[Termination].items == []
    && r == k.(tcbs := map t | t in k.tcbs && k.tcbs[t].list != Termination :: k.tcbs[t],
               lists := k.lists[Termination := r.lists[Termination]], deletedCount := 0, taskCount := r.taskCount)
    && r.taskCount + |k.lists[Termination].items| == k.taskCount
  }

  lemma CleanUpEffect(c: Config)
    requires Good(c) && Enabled(c.k, IdleCleanUp)
    ensures Steppable(c.k)
    ensures var r := Step(c, IdleCleanUp); r.now == c.now && r.due == c.due && CleanedUp(c.k, r.k)
  {
    hide Sound, Placed, FineTcbs, SomeReady, PendingKnown, CleanUp, CleanedUp;
    InvGives(c.k, c.now, c.due);
    SoundGives(c.k, c.now, c.due, c.now + 1);
    CleanUpIs(c.k, c.now, c.due, c.now + 1);
  }

  lemma {:induction false} CleanUpIs(k: State, now: nat, due: map<TaskId, nat>, low: nat)
    requires Sound(k, now, due, low) && k.current in k.tcbs && k.tcbs[k.current].list != Termination
    ensures Placed(k) && Termination in k.lists && k.deletedCount == |k.lists[Termination].items|
    ensures CleanedUp(k, CleanUp(k))
    decreases k.deletedCount
  {
    hide Clocked, Fine, Indexed, Placed, Sound, Forget, CleanedUp;
    SoundGives(k, now, due, low);
    TerminationGives(k);
    if k.deletedCount > 0 {
      var t := k.lists[Termination].items[0];
      ForgetKeeps(k, t, now, due, low);
      ForgottenTask(k, t);
      CleanUpIs(CleanOne(k), now, due, low);
      OneCleaned(k);
      CleanedOn(k, CleanOne(k), CleanUp(k), t);
    } else {
      NoneToClean(k);
    }
  }

  lemma OneCleaned(k: State)
    requires Fine(k) && Termination in k.lists && 0 < k.deletedCount == |k.lists[Termination].items|
    ensures var t, m := k.lists[Termination].items[0], CleanOne(k);
            && t in k.tcbs && k.tcbs[t].list == Termination && Termination in m.lists
            && |m.lists[Termination].items| == |k.lists[Termination].items| - 1 && k.taskCount > 0
            && m == k.(tcbs := k.tcbs - {t}, lists := k.lists[Termination := m.lists[Termination]],
                       taskCount := k.taskCount - 1, deletedCount := k.deletedCount - 1)
  {
    hide Evented, FineTcbs, Remove;
    assert k.lists[Termination].items[0] in k.lists[Termination].items;
    ForgottenTask(k, k.lists[Termination].items[0]);
  }

  lemma CleanedOn(k: State, m: State, r: State, t: TaskId)
    requires t in k.tcbs && k.tcbs[t].list == Termination && Termination in k.lists && Termination in m.lists
    requires |m.lists[Termination].items| == |k.lists[Termination].items| - 1 && k.taskCount > 0
    requires k.deletedCount > 0 && CleanedUp(m, r)
    requires m == k.(tcbs := k.tcbs - {t}, lists := k.lists[Termination := m.lists[Termination]],
                     taskCount := k.taskCount - 1, deletedCount := k.deletedCount - 1)
    ensures CleanedUp(k, r)
  {
    var alive := map u | u in k.tcbs && k.tcbs[u].list != Termination :: k.tcbs[u];
    assert r.tcbs == alive;
    assert r.lists == k.lists[Termination := r.lists[Termination]];
  }

  lemma NoneToClean(k: State)
    requires Placed(k) && Termination in k.lists && 0 == k.deletedCount == |k.lists[Termination].items|
    ensures CleanedUp(k, k)
  {
    forall t | t in k.tcbs ensures k.tcbs[t].list != Termination {
      PlacedOne(k, t);
    }
    assert k.tcbs == map t | t in k.tcbs && k.tcbs[t].list != Termination :: k.tcbs[t];
    assert k.lists == k.lists[Termination := k.lists[Termination]];
  }

  // ----- the context switch and the scheduler's own suspension -------------------------------

  /** While the scheduler is suspended a switch is only pended. Otherwise the
      task that is next in turn on the highest non-empty ready list runs, and
      goes to the back of the turn. */
  lemma SwitchEffect(c: Config)
    requires Good(c) && Enabled(c.k, Switch)
    ensures Steppable(c.k)
    ensures var k, r := c.k, Step(c, Switch);
            && r.now == c.now && r.due == c.due
            && if k.suspendCount > 0 then r.k == k.(yieldPending := true)
               else
                 var l := Ready(r.k.topReady);
                 && (forall p :: r.k.topReady < p < MAX_PRIORITIES ==>
                       Ready(p) in k.lists && k.lists[Ready(p)].items == [])
                 && l in k.lists && k.lists[l].items != [] && k.lists[l].index <= |k.lists[l].items|
                 && r.k == k.(yieldPending := false, current := Rotation(k.lists[l])[0], topReady := r.k.topReady,
                              lists := k.lists[l := Advance(k.lists[l])])
  {
    hide Sound, FineTcbs, PendingKnown, Rotation, Advance, NoDuplicates, Next;
    InvGives(c.k, c.now, c.due);
    var k := c.k;
    TopBounds(k, c.now, c.due);
    if k.suspendCount == 0 {
      PickRotates(k.lists[Ready(HighestReady(k, k.topReady))]);
    }
  }

  lemma TopBounds(k: State, now: nat, due: map<TaskId, nat>)
    requires Inv(k, now, due)
    ensures forall p :: k.topReady < p < MAX_PRIORITIES ==> Ready(p) in k.lists && k.lists[Ready(p)].items == []
  {
    hide Clocked;
  }

  /** Suspending the scheduler nests, and a tick meanwhile is only counted. */
  lemma ControlEffect(c: Config)
    requires Good(c)
    ensures Steppable(c.k)
    ensures Enabled(c.k, SuspendScheduler) ==>
              Step(c, SuspendScheduler) == c.(k := c.k.(suspendCount := c.k.suspendCount + 1))
    ensures Enabled(c.k, ResumeScheduler) && c.k.suspendCount > 1 ==>
              Step(c, ResumeScheduler) == c.(k := c.k.(suspendCount := c.k.suspendCount - 1))
    ensures Enabled(c.k, TickInterrupt) && c.k.suspendCount > 0 ==>
              Step(c, TickInterrupt) == c.(k := c.k.(pendedTicks := (c.k.pendedTicks + 1) % TICK_MODULUS))
  {
    hide Sound, Placed, FineTcbs, SomeReady, PendingKnown, Released, Replay;
    InvGives(c.k, c.now, c.due);
  }
}
