/** The scheduler's state (tasks.c) and its building blocks.

    The file-static variables are the fields of State, and a TCB is a value. */
module Kernel {
  import opened Lists
  import opened Words

  const MAX_PRIORITIES: nat := 5               // configMAX_PRIORITIES
  const IN_USE: nat := 0x8000_0000             // taskEVENT_LIST_ITEM_VALUE_IN_USE

  type TaskId = nat

  datatype ListId = Ready(priority: nat) | Delayed1 | Delayed2 | Suspended | Termination

  /** Where a task's xEventListItem is. */
  datatype EventPlace = Nowhere | OnEventList | OnPendingReady

  datatype NotifyState = NotWaiting | Waiting | Received

  datatype Tcb = Tcb(
    priority: nat, basePriority: nat, mutexesHeld: nat,
    list: ListId,              // container of xStateListItem
    wake: nat,                 // item value of xStateListItem
    event: EventPlace,         // container of xEventListItem
    eventValue: nat,           // item value of xEventListItem
    notify: NotifyState,       // ucNotifyState
    notified: Word)            // ulNotifiedValue

  datatype State = State(
    tcbs: map<TaskId, Tcb>,
    lists: map<ListId, ListV<TaskId>>,
    pending: seq<TaskId>,      // xPendingReadyList
    current: TaskId,           // pxCurrentTCB
    idle: TaskId,              // xIdleTaskHandles[ 0 ]
    firstIsCurrent: bool,      // pxDelayedTaskList == &xDelayedTaskList1
    tick: nat, overflows: nat, nextUnblock: nat,
    pendedTicks: nat, suspendCount: nat,
    topReady: nat, yieldPending: bool,
    taskCount: nat, deletedCount: nat)

  function CurrentDelayed(k: State): ListId {
    if k.firstIsCurrent then Delayed1 else Delayed2
  }

  function OverflowDelayed(k: State): ListId {
    if k.firstIsCurrent then Delayed2 else Delayed1
  }

  predicate IsList(l: ListId) {
    l.Ready? ==> l.priority < MAX_PRIORITIES
  }

  function HighestOf(a: nat, b: nat): nat {
    if a < b then b else a
  }

  // ----- invariants -----------------------------------------------------------

  /** Every state item is on exactly one list, the one it names. */
  ghost predicate Placed(k: State) {
    && (forall l :: l in k.lists <==> IsList(l))
    && (forall l :: l in k.lists ==> WellFormed(k.lists[l]))
    && (forall t :: t in k.tcbs ==> IsList(k.tcbs[t].list) && t in k.lists[k.tcbs[t].list].items)
    && (forall t, l {:trigger t in k.lists[l].items} :: l in k.lists && t in k.lists[l].items ==>
          t in k.tcbs && k.tcbs[t].list == l)
  }

  /** A ready task is on the list of its current priority. */
  ghost predicate Indexed(k: State) {
    forall t :: t in k.tcbs && k.tcbs[t].list.Ready? ==> k.tcbs[t].list.priority == k.tcbs[t].priority
  }

  ghost predicate Sleeping(l: ListId) {
    l == Delayed1 || l == Delayed2 || l == Suspended
  }

  /** The pending-ready list holds each task whose event item says so, once; a
      task on an object's event list is asleep; and a task that waits for a
      notification is on no event list (the asserts of tasks.c:8001, 8150, 8263). */
  ghost predicate Evented(k: State) {
    && NoDuplicates(k.pending)
    && (forall t :: t in k.pending <==> t in k.tcbs && k.tcbs[t].event == OnPendingReady)
    && (forall t :: t in k.tcbs && k.tcbs[t].event == OnEventList ==> Sleeping(k.tcbs[t].list))
    && (forall t :: t in k.tcbs && k.tcbs[t].event == OnPendingReady ==> k.tcbs[t].list != Termination)
    && (forall t :: t in k.tcbs && k.tcbs[t].notify == Waiting ==> k.tcbs[t].event == Nowhere)
  }

  /** uxTopReadyPriority bounds every non-empty ready list, the idle task is
      always ready, and the two counters are exact. */
  ghost predicate Counted(k: State)
    requires Placed(k)
  {
    && k.topReady < MAX_PRIORITIES
    && (forall p :: k.topReady < p < MAX_PRIORITIES ==> k.lists[Ready(p)].items == [])
    && k.idle in k.tcbs && k.tcbs[k.idle].list.Ready?
    && k.current in k.tcbs
    && k.taskCount == |k.tcbs|
    && k.deletedCount == |k.lists[Termination].items|
  }

  ghost predicate FineTcb(c: Tcb) {
    && c.basePriority <= c.priority < MAX_PRIORITIES
    && (c.mutexesHeld == 0 ==> c.priority == c.basePriority)
    && (c.eventValue >= IN_USE || 1 <= c.eventValue <= MAX_PRIORITIES)
  }

  ghost predicate FineTcbs(tcbs: map<TaskId, Tcb>) {
    forall t :: t in tcbs ==> FineTcb(tcbs[t])
  }

  lemma FineOne(tcbs: map<TaskId, Tcb>, t: TaskId)
    requires FineTcbs(tcbs) && t in tcbs
    ensures FineTcb(tcbs[t])
  {
  }

  ghost predicate Fine(k: State) {
    Placed(k) && Evented(k) && Counted(k) && FineTcbs(k.tcbs)
  }

  // ----- time ---------------------------------------------------------------------

  function Keys(tcbs: map<TaskId, Tcb>, s: seq<TaskId>): (keys: seq<nat>)
    requires forall t :: t in s ==> t in tcbs
    ensures |keys| == |s| && forall i :: 0 <= i < |s| ==> keys[i] == tcbs[s[i]].wake
  {
    seq(|s|, i requires 0 <= i < |s| => assert s[i] in s; tcbs[s[i]].wake)
  }

  /** The items of s are sorted and wake at their true deadlines, which all lie
      in the given epoch of the 32-bit tick count and are not before low. */
  ghost predicate DueIn(tcbs: map<TaskId, Tcb>, s: seq<TaskId>, due: map<TaskId, nat>, epoch: nat, low: nat) {
    && (forall t :: t in s ==>
          && t in tcbs && t in due && low <= due[t]
          && due[t] / TICK_MODULUS == epoch && tcbs[t].wake == due[t] % TICK_MODULUS)
    && Sorted(Keys(tcbs, s))
  }

  /** The wrapped state is that of an unbounded clock at time now: the current
      list holds this epoch's deadlines, the overflow list the next epoch's,
      and xNextTaskUnblockTime never lies behind the head of the current list. */
  ghost predicate Clocked(k: State, now: nat, due: map<TaskId, nat>, low: nat)
    requires Placed(k)
  {
    var cur := k.lists[CurrentDelayed(k)].items;
    && k.tick == now % TICK_MODULUS && k.overflows == now / TICK_MODULUS % TICK_MODULUS
    && DueIn(k.tcbs, cur, due, now / TICK_MODULUS, low)
    && DueIn(k.tcbs, k.lists[OverflowDelayed(k)].items, due, now / TICK_MODULUS + 1, 0)
    && k.nextUnblock <= MAX_DELAY && (cur != [] ==> k.nextUnblock <= k.tcbs[cur[0]].wake)
  }

  ghost predicate Sound(k: State, now: nat, due: map<TaskId, nat>, low: nat) {
    Fine(k) && Indexed(k) && Clocked(k, now, due, low)
  }

  lemma SoundGives(k: State, now: nat, due: map<TaskId, nat>, low: nat)
    requires Sound(k, now, due, low)
    ensures Placed(k) && FineTcbs(k.tcbs) && Evented(k) && k.current in k.tcbs && k.idle in k.tcbs
    ensures k.taskCount > 0 && NoDuplicates(k.pending) && forall t :: t in k.pending ==> t in k.tcbs
    ensures Fine(k) && Indexed(k) && Clocked(k, now, due, low)
  {
    hide Clocked;
    assert k.current in k.tcbs.Keys;
  }

  lemma SoundFrom(k: State, now: nat, due: map<TaskId, nat>, low: nat)
    requires Fine(k) && Indexed(k) && Clocked(k, now, due, low)
    ensures Sound(k, now, due, low)
  {
  }

  lemma DueInFrame(tcbs: map<TaskId, Tcb>, tcbs': map<TaskId, Tcb>, s: seq<TaskId>,
                   due: map<TaskId, nat>, due': map<TaskId, nat>, epoch: nat, low: nat)
    requires DueIn(tcbs, s, due, epoch, low)
    requires forall t :: t in s ==> t in tcbs' && tcbs'[t].wake == tcbs[t].wake
    requires forall t :: t in s ==> t in due' && due'[t] == due[t]
    ensures DueIn(tcbs', s, due', epoch, low)
  {
    assert Keys(tcbs', s) == Keys(tcbs, s);
  }

  lemma DueInRemove(tcbs: map<TaskId, Tcb>, l: ListV<TaskId>, t: TaskId, due: map<TaskId, nat>, epoch: nat, low: nat)
    requires WellFormed(l) && t in l.items && DueIn(tcbs, l.items, due, epoch, low)
    ensures var r := Remove(l, t).items;
            && DueIn(tcbs, r, due, epoch, low)
            && (r != [] ==> tcbs[l.items[0]].wake <= tcbs[r[0]].wake)
  {
    hide Sorted, NoDuplicates;
    RemoveMembers(l, t);
    var r, i := Remove(l, t).items, IndexOf(l.items, t);
    var keys := Keys(tcbs, l.items);
    WithoutKeepsSorted(keys, i);
    assert Keys(tcbs, r) == Without(keys, i);
  }

  lemma DueInInsert(tcbs: map<TaskId, Tcb>, l: ListV<TaskId>, t: TaskId, due: map<TaskId, nat>, epoch: nat, low: nat)
    requires WellFormed(l) && t !in l.items && DueIn(tcbs, l.items, due, epoch, low)
    requires t in tcbs && t in due && low <= due[t]
    requires due[t] / TICK_MODULUS == epoch && tcbs[t].wake == due[t] % TICK_MODULUS
    ensures var r := InsertAt(l, InsertPosition(Keys(tcbs, l.items), tcbs[t].wake), t).items;
            && DueIn(tcbs, r, due, epoch, low)
            && (r[0] == t || (l.items != [] && r[0] == l.items[0]))
  {
    var keys, wake := Keys(tcbs, l.items), tcbs[t].wake;
    var pos := InsertPosition(keys, wake);
    var r := InsertAt(l, pos, t).items;
    InsertAtMembers(l, pos, t);
    InsertKeepsSorted(keys, wake);
    hide Sorted, NoDuplicates;
    forall i | 0 <= i < |r| ensures Keys(tcbs, r)[i] == (keys[..pos] + [wake] + keys[pos..])[i] {
      SplicedAt(keys, pos, wake, i);
      SplicedAt(l.items, pos, t, i);
    }
    assert Keys(tcbs, r) == keys[..pos] + [wake] + keys[pos..];
  }

  // ----- moving a state item ----------------------------------------------------

  function Unlinked(k: State, t: TaskId): map<ListId, ListV<TaskId>>
    requires Placed(k) && t in k.tcbs
  {
    k.lists[k.tcbs[t].list := Remove(k.lists[k.tcbs[t].list], t)]
  }

  /** Only the list that t leaves gets shorter, by one. */
  lemma UnlinkedLengths(k: State, t: TaskId, l: ListId)
    requires Placed(k) && t in k.tcbs && IsList(l)
    ensures l in k.lists && l in Unlinked(k, t)
    ensures |Unlinked(k, t)[l].items| == |k.lists[l].items| - if l == k.tcbs[t].list then 1 else 0
  {
    RemoveMembers(k.lists[k.tcbs[t].list], t);
    hide NoDuplicates, Remove;
  }

  lemma UnlinkedKnown(k: State, t: TaskId, l: ListId)
    requires Placed(k) && t in k.tcbs && IsList(l)
    ensures l in Unlinked(k, t) && forall u :: u in Unlinked(k, t)[l].items ==> u in k.tcbs
  {
    RemoveMembers(k.lists[k.tcbs[t].list], t);
    hide NoDuplicates, Remove;
  }

  /** Takes t's state item off its list and puts it at place pos of list l. */
  function Relink(k: State, t: TaskId, l: ListId, pos: nat): (r: State)
    requires Placed(k) && t in k.tcbs && IsList(l) && pos <= |Unlinked(k, t)[l].items|
    ensures Placed(r)
  {
    hide Placed, Unlinked;
    RelinkedPlaced(k, t, l, pos);
    var lists := Unlinked(k, t);
    k.(lists := lists[l := InsertAt(lists[l], pos, t)], tcbs := k.tcbs[t := k.tcbs[t].(list := l)])
  }

  lemma RelinkedPlaced(k: State, t: TaskId, l: ListId, pos: nat)
    requires Placed(k) && t in k.tcbs && IsList(l) && pos <= |Unlinked(k, t)[l].items|
    ensures var lists := Unlinked(k, t);
            && l in lists
            && Placed(k.(lists := lists[l := InsertAt(lists[l], pos, t)], tcbs := k.tcbs[t := k.tcbs[t].(list := l)]))
  {
    hide Remove, InsertAt, NoDuplicates;
    RemoveMembers(k.lists[k.tcbs[t].list], t);
    InsertAtMembers(Unlinked(k, t)[l], pos, t);
  }

  function EndPosition(l: ListV<TaskId>): (pos: nat)
    requires l.index <= |l.items|
    ensures pos <= |l.items| && forall x :: InsertEnd(l, x) == InsertAt(l, pos, x)
  {
    if l.index == 0 then |l.items| else l.index - 1
  }

  /** uxListRemove then vListInsertEnd */
  function MoveToEnd(k: State, t: TaskId, l: ListId): (r: State)
    requires Placed(k) && t in k.tcbs && IsList(l)
    ensures Placed(r)
  {
    Relink(k, t, l, EndPosition(Unlinked(k, t)[l]))
  }

  function WithTcb(k: State, t: TaskId, c: Tcb): (r: State)
    requires t in k.tcbs && c.list == k.tcbs[t].list
    ensures Placed(k) ==> Placed(r)
  {
    k.(tcbs := k.tcbs[t := c])
  }

  lemma MapTwice(m: map<TaskId, Tcb>, t: TaskId, a: Tcb, b: Tcb)
    ensures m[t := a][t := b] == m[t := b]
  {
  }

  /** uxListRemove then vListInsert with the given item value */
  function MoveSorted(k: State, t: TaskId, l: ListId, wake: nat): (r: State)
    requires Placed(k) && t in k.tcbs && IsList(l)
    ensures Placed(r) && r == k.(lists := r.lists, tcbs := k.tcbs[t := k.tcbs[t].(wake := wake, list := l)])
  {
    hide Placed, Unlinked, SortedPosition, Relink;
    var k1 := WithTcb(k, t, k.tcbs[t].(wake := wake));
    var pos := SortedPosition(k1, t, l);
    RelinkTcbs(k1, t, l, pos);
    MapTwice(k.tcbs, t, k1.tcbs[t], k1.tcbs[t].(list := l));
    Relink(k1, t, l, pos)
  }

  /** Where vListInsert puts t's state item in list l. */
  function SortedPosition(k: State, t: TaskId, l: ListId): (pos: nat)
    requires Placed(k) && t in k.tcbs && IsList(l)
    ensures l in Unlinked(k, t) && pos <= |Unlinked(k, t)[l].items|
  {
    hide Placed, Unlinked;
    UnlinkedKnown(k, t, l);
    InsertPosition(Keys(k.tcbs, Unlinked(k, t)[l].items), k.tcbs[t].wake)
  }

  /** listREMOVE_ITEM then prvAddTaskToReadyList */
  function MakeReady(k: State, t: TaskId): (r: State)
    requires Placed(k) && t in k.tcbs && k.tcbs[t].priority < MAX_PRIORITIES
    ensures Placed(r)
  {
    MoveToEnd(k.(topReady := HighestOf(k.topReady, k.tcbs[t].priority)), t, Ready(k.tcbs[t].priority))
  }

  /** The event item leaves whatever list it is on. */
  function ClearEvent(k: State, t: TaskId): (r: State)
    requires t in k.tcbs
    ensures Placed(k) ==> Placed(r)
  {
    WithTcb(k.(pending := if t in k.pending then Remove(ListV(k.pending, 0), t).items else k.pending),
            t, k.tcbs[t].(event := Nowhere))
  }

  // ----- what the moves keep ------------------------------------------------------

  /** A list that t does not enter stays due in its epoch, and its head does
      not get earlier. */
  lemma RelinkKeepsDue(k: State, t: TaskId, l: ListId, pos: nat, d: ListId,
                       due: map<TaskId, nat>, epoch: nat, low: nat)
    requires Placed(k) && t in k.tcbs && IsList(l) && pos <= |Unlinked(k, t)[l].items|
    requires IsList(d) && d != l && DueIn(k.tcbs, k.lists[d].items, due, epoch, low)
    ensures var r := Relink(k, t, l, pos);
            && DueIn(r.tcbs, r.lists[d].items, due, epoch, low)
            && (r.lists[d].items != [] ==>
                  k.lists[d].items != []
                  && k.tcbs[k.lists[d].items[0]].wake <= r.tcbs[r.lists[d].items[0]].wake)
  {
    var r := Relink(k, t, l, pos);
    if k.tcbs[t].list == d {
      DueInRemove(k.tcbs, k.lists[d], t, due, epoch, low);
    }
    DueInFrame(k.tcbs, r.tcbs, r.lists[d].items, due, due, epoch, low);
  }

  /** Moving a task anywhere but to a delayed list leaves time consistent. */
  lemma RelinkKeepsClock(k: State, t: TaskId, l: ListId, pos: nat, now: nat, due: map<TaskId, nat>, low: nat)
    requires Placed(k) && t in k.tcbs && IsList(l) && pos <= |Unlinked(k, t)[l].items|
    requires l != Delayed1 && l != Delayed2 && Clocked(k, now, due, low)
    ensures Clocked(Relink(k, t, l, pos), now, due, low)
  {
    RelinkKeepsDue(k, t, l, pos, CurrentDelayed(k), due, now / TICK_MODULUS, low);
    RelinkKeepsDue(k, t, l, pos, OverflowDelayed(k), due, now / TICK_MODULUS + 1, 0);
  }

  lemma WithTcbKeepsClock(k: State, t: TaskId, c: Tcb, now: nat, due: map<TaskId, nat>, low: nat)
    requires Placed(k) && t in k.tcbs && Clocked(k, now, due, low)
    requires c.list == k.tcbs[t].list && c.wake == k.tcbs[t].wake
    ensures Clocked(WithTcb(k, t, c), now, due, low)
  {
    var r := WithTcb(k, t, c);
    DueInFrame(k.tcbs, r.tcbs, k.lists[CurrentDelayed(k)].items, due, due, now / TICK_MODULUS, low);
    DueInFrame(k.tcbs, r.tcbs, k.lists[OverflowDelayed(k)].items, due, due, now / TICK_MODULUS + 1, 0);
  }

  lemma RelinkKeepsEvented(k: State, t: TaskId, l: ListId, pos: nat)
    requires Placed(k) && Evented(k) && t in k.tcbs && IsList(l) && pos <= |Unlinked(k, t)[l].items|
    requires k.tcbs[t].event == OnEventList ==> Sleeping(l)
    requires k.tcbs[t].event == OnPendingReady ==> l != Termination
    ensures Evented(Relink(k, t, l, pos))
  {
  }

  lemma RelinkRoom(k: State, t: TaskId, l: ListId)
    requires Placed(k) && t in k.tcbs && IsList(l)
    ensures l in Unlinked(k, t) && Unlinked(k, t)[l].index <= |Unlinked(k, t)[l].items|
  {
    hide NoDuplicates, Remove;
  }

  lemma RelinkTcbs(k: State, t: TaskId, l: ListId, pos: nat)
    requires Placed(k) && t in k.tcbs && IsList(l) && pos <= |Unlinked(k, t)[l].items|
    ensures var r := Relink(k, t, l, pos);
            r == k.(lists := r.lists, tcbs := k.tcbs[t := k.tcbs[t].(list := l)])
  {
    hide Placed, Unlinked;
  }

  lemma RelinkLengths(k: State, t: TaskId, l: ListId, pos: nat, d: ListId)
    requires Placed(k) && t in k.tcbs && IsList(l) && IsList(d) && pos <= |Unlinked(k, t)[l].items|
    ensures d in k.lists && d in Relink(k, t, l, pos).lists
    ensures |Relink(k, t, l, pos).lists[d].items|
            == |k.lists[d].items| - (if d == k.tcbs[t].list then 1 else 0) + if d == l then 1 else 0
  {
    hide NoDuplicates, Remove;
    UnlinkedLengths(k, t, d);
  }

  lemma RelinkKeepsCounted(k: State, t: TaskId, l: ListId, pos: nat)
    requires Placed(k) && Counted(k) && t in k.tcbs && IsList(l) && pos <= |Unlinked(k, t)[l].items|
    requires k.tcbs[t].list != Termination && l != Termination
    requires l.Ready? ==> l.priority <= k.topReady
    requires t == k.idle ==> l.Ready?
    ensures Counted(Relink(k, t, l, pos))
  {
    hide Placed, Unlinked, InsertAt;
    var r := Relink(k, t, l, pos);
    forall p | k.topReady < p < MAX_PRIORITIES ensures Ready(p) in r.lists && r.lists[Ready(p)].items == [] {
      RelinkLengths(k, t, l, pos, Ready(p));
    }
    RelinkLengths(k, t, l, pos, Termination);
    assert r.tcbs.Keys == k.tcbs.Keys;
  }

  lemma WithTcbKeepsFineTcbs(tcbs: map<TaskId, Tcb>, t: TaskId, c: Tcb)
    requires FineTcbs(tcbs) && FineTcb(c)
    ensures FineTcbs(tcbs[t := c])
  {
  }

  /** Moving a task keeps the structure, unless the idle task leaves the ready
      lists or a task enters or leaves the termination list. */
  lemma RelinkKeepsFine(k: State, t: TaskId, l: ListId, pos: nat)
    requires Fine(k) && t in k.tcbs && IsList(l) && pos <= |Unlinked(k, t)[l].items|
    requires k.tcbs[t].list != Termination && l != Termination
    requires k.tcbs[t].event == OnEventList ==> Sleeping(l)
    requires l.Ready? ==> l.priority <= k.topReady
    requires t == k.idle ==> l.Ready?
    ensures Fine(Relink(k, t, l, pos))
  {
    RelinkKeepsEvented(k, t, l, pos);
    RelinkKeepsCounted(k, t, l, pos);
    WithTcbKeepsFineTcbs(k.tcbs, t, k.tcbs[t].(list := l));
  }

  lemma MoveToEndKeeps(k: State, t: TaskId, l: ListId, now: nat, due: map<TaskId, nat>, low: nat)
    requires Fine(k) && Clocked(k, now, due, low) && t in k.tcbs && IsList(l)
    requires k.tcbs[t].list != Termination && l != Termination && l != Delayed1 && l != Delayed2
    requires k.tcbs[t].event == OnEventList ==> Sleeping(l)
    requires l.Ready? ==> l.priority <= k.topReady
    requires t == k.idle ==> l.Ready?
    ensures Fine(MoveToEnd(k, t, l)) && Clocked(MoveToEnd(k, t, l), now, due, low)
  {
    var pos := EndPosition(Unlinked(k, t)[l]);
    RelinkKeepsFine(k, t, l, pos);
    RelinkKeepsClock(k, t, l, pos, now, due, low);
  }

  lemma RaiseTopKeeps(k: State, p: nat, now: nat, due: map<TaskId, nat>, low: nat)
    requires Fine(k) && Clocked(k, now, due, low) && p < MAX_PRIORITIES
    ensures var k1 := k.(topReady := HighestOf(k.topReady, p)); Fine(k1) && Clocked(k1, now, due, low)
  {
  }

  ghost predicate IndexedExcept(k: State, t: TaskId) {
    forall u :: u in k.tcbs && u != t && k.tcbs[u].list.Ready? ==> k.tcbs[u].list.priority == k.tcbs[u].priority
  }

  lemma MakeReadyIndexes(k: State, t: TaskId)
    requires Placed(k) && t in k.tcbs && k.tcbs[t].priority < MAX_PRIORITIES && IndexedExcept(k, t)
    ensures Indexed(MakeReady(k, t))
  {
  }

  lemma MakeReadyKeeps(k: State, t: TaskId, now: nat, due: map<TaskId, nat>, low: nat)
    requires Fine(k) && t in k.tcbs && Clocked(k, now, due, low)
    requires k.tcbs[t].list != Termination && k.tcbs[t].event != OnEventList && IndexedExcept(k, t)
    ensures Fine(MakeReady(k, t)) && Indexed(MakeReady(k, t)) && Clocked(MakeReady(k, t), now, due, low)
  {
    MakeReadyIndexes(k, t);
    var p := k.tcbs[t].priority;
    RaiseTopKeeps(k, p, now, due, low);
    MoveToEndKeeps(k.(topReady := HighestOf(k.topReady, p)), t, Ready(p), now, due, low);
  }

  lemma ClearEventKeepsEvented(k: State, t: TaskId)
    requires Evented(k) && t in k.tcbs
    ensures Evented(ClearEvent(k, t)) && t !in ClearEvent(k, t).pending
  {
    if t in k.pending {
      RemoveMembers(ListV(k.pending, 0), t);
    }
  }

  lemma SameEvents(k: State, r: State)
    requires Evented(k) && r.tcbs == k.tcbs && r.pending == k.pending
    ensures Evented(r)
  {
  }

  lemma ClearEventKeepsCounted(k: State, t: TaskId)
    requires Placed(k) && Counted(k) && t in k.tcbs
    ensures Counted(ClearEvent(k, t))
  {
    hide WellFormed;
    assert ClearEvent(k, t).tcbs.Keys == k.tcbs.Keys;
  }

  lemma ClearEventKeeps(k: State, t: TaskId, now: nat, due: map<TaskId, nat>, low: nat)
    requires Fine(k) && t in k.tcbs && Clocked(k, now, due, low)
    ensures Fine(ClearEvent(k, t)) && Clocked(ClearEvent(k, t), now, due, low)
  {
    hide Counted, Evented, FineTcbs, DueIn, Placed;
    var r := ClearEvent(k, t);
    ClearEventKeepsEvented(k, t);
    ClearEventKeepsCounted(k, t);
    FineOne(k.tcbs, t);
    WithTcbKeepsFineTcbs(k.tcbs, t, r.tcbs[t]);
    WithTcbKeepsClock(k, t, r.tcbs[t], now, due, low);
  }
}
