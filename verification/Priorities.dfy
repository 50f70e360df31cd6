/** Priority changes: vTaskPrioritySet and priority inheritance (tasks.c). */
module Priorities {
  import opened Kernel
  import opened Tasks
  import opened Lifecycle

  /** Nothing outside the task table and the ready lists differs. */
  predicate SameRest(k: State, r: State) {
    r == k.(lists := r.lists, tcbs := r.tcbs, topReady := r.topReady)
  }

  lemma RelistedFine(tcbs: map<TaskId, Tcb>, t: TaskId, c: Tcb)
    requires FineTcbs(tcbs) && FineTcb(c)
    ensures FineTcbs(tcbs[t := c]) && forall l :: FineTcbs(tcbs[t := c][t := c.(list := l)])
  {
  }

  lemma ReadiedTask(k: State, t: TaskId)
    requires Placed(k) && t in k.tcbs && k.tcbs[t].priority < MAX_PRIORITIES
    ensures MakeReady(k, t).tcbs == k.tcbs[t := k.tcbs[t].(list := Ready(k.tcbs[t].priority))]
    ensures SameRest(k, MakeReady(k, t))
  {
    hide Placed;
  }

  /** Stores new priority fields and, if the task is ready, moves it to the
      back of the list of its new priority. */
  function Reprioritise(k: State, t: TaskId, c: Tcb): (r: State)
    requires Placed(k) && t in k.tcbs && c.list == k.tcbs[t].list && c.priority < MAX_PRIORITIES
    ensures Placed(r) && SameRest(k, r) && r.tcbs.Keys == k.tcbs.Keys
    ensures FineTcbs(k.tcbs) && FineTcb(c) ==> FineTcbs(r.tcbs)
  {
    hide Placed, MakeReady, FineTcbs, FineTcb;
    var w := WithTcb(k, t, c);
    ReadiedTask(w, t);
    assert FineTcbs(k.tcbs) && FineTcb(c) ==> FineTcbs(w.tcbs) && forall l :: FineTcbs(w.tcbs[t := c.(list := l)]) by {
      if FineTcbs(k.tcbs) && FineTcb(c) { RelistedFine(k.tcbs, t, c); }
    }
    if c.list == Ready(k.tcbs[t].priority) then MakeReady(w, t) else w
  }

  /** c differs from t's TCB in priorities, mutex count and event value only. */
  ghost predicate PriorityChange(k: State, t: TaskId, c: Tcb) {
    && t in k.tcbs && FineTcb(c)
    && c == k.tcbs[t].(priority := c.priority, basePriority := c.basePriority,
                       mutexesHeld := c.mutexesHeld, eventValue := c.eventValue)
  }

  lemma ReprioritiseKeeps(k: State, t: TaskId, c: Tcb, now: nat, due: map<TaskId, nat>, low: nat)
    requires Sound(k, now, due, low) && PriorityChange(k, t, c)
    ensures Placed(k) && Sound(Reprioritise(k, t, c), now, due, low)
    ensures Reprioritise(k, t, c).tcbs ==
            k.tcbs[t := c.(list := if c.list.Ready? then Ready(c.priority) else c.list)]
    ensures SameRest(k, Reprioritise(k, t, c))
  {
    hide Clocked, Evented, Counted, FineTcbs, Placed, DueIn, MakeReady;
    SoundGives(k, now, due, low);
    TcbGives(k, t, now, due, low);
    var w := WithTcb(k, t, c);
    WithTcbKeepsClock(k, t, c, now, due, low);
    WithTcbKeepsFineTcbs(k.tcbs, t, c);
    ChangeKeepsEvented(k, t, c);
    ChangeKeepsCounted(k, t, c);
    if c.list.Ready? {
      MakeReadyKeeps(w, t, now, due, low);
      ReadiedTask(w, t);
    }
  }

  lemma ChangeKeepsEvented(k: State, t: TaskId, c: Tcb)
    requires Evented(k) && PriorityChange(k, t, c)
    ensures Evented(WithTcb(k, t, c))
  {
  }

  lemma ChangeKeepsCounted(k: State, t: TaskId, c: Tcb)
    requires Placed(k) && Counted(k) && PriorityChange(k, t, c)
    ensures Counted(WithTcb(k, t, c))
  {
    assert WithTcb(k, t, c).tcbs.Keys == k.tcbs.Keys;
  }

  /** The event list item value, unless it is in use for something else. */
  function EventValue(c: Tcb, priority: nat): nat
    requires priority < MAX_PRIORITIES
  {
    if c.eventValue >= IN_USE then c.eventValue else MAX_PRIORITIES - priority
  }

  // ----- vTaskPrioritySet ----------------------------------------------------------

  function NewPriorities(c: Tcb, wanted: nat): Tcb {
    var p := if wanted >= MAX_PRIORITIES then MAX_PRIORITIES - 1 else wanted;
    if c.basePriority == p then c
    else c.(priority := if c.basePriority == c.priority || p > c.priority then p else c.priority,
            basePriority := p, eventValue := EventValue(c, p))
  }

  function SetPriority(k: State, t: TaskId, wanted: nat): (r: State)
    requires Placed(k) && FineTcbs(k.tcbs) && t in k.tcbs
    ensures Placed(r)
  {
    var c := NewPriorities(k.tcbs[t], wanted);
    if c.basePriority == k.tcbs[t].basePriority then k else Reprioritise(k, t, c)
  }

  lemma PrioritisedTask(k: State, t: TaskId, wanted: nat)
    requires Placed(k) && FineTcbs(k.tcbs) && t in k.tcbs
    ensures var r, c := SetPriority(k, t, wanted), NewPriorities(k.tcbs[t], wanted);
            && SameRest(k, r)
            && r.tcbs == k.tcbs[t := if c.basePriority != k.tcbs[t].basePriority && c.list == Ready(k.tcbs[t].priority)
                                     then c.(list := Ready(c.priority)) else c]
  {
    hide Placed, MakeReady;
    FineOne(k.tcbs, t);
    var c := NewPriorities(k.tcbs[t], wanted);
    if c.basePriority != k.tcbs[t].basePriority {
      ReadiedTask(WithTcb(k, t, c), t);
      MapTwice(k.tcbs, t, c, c.(list := Ready(c.priority)));
    }
  }

  lemma SetPriorityKeeps(k: State, t: TaskId, wanted: nat, now: nat, due: map<TaskId, nat>, low: nat)
    requires Sound(k, now, due, low) && t in k.tcbs
    ensures Placed(k) && FineTcbs(k.tcbs) && Sound(SetPriority(k, t, wanted), now, due, low)
    ensures var r := SetPriority(k, t, wanted);
            && t in r.tcbs && r.tcbs[t].mutexesHeld == k.tcbs[t].mutexesHeld
            && forall u :: u in k.tcbs && u != t ==> u in r.tcbs && r.tcbs[u] == k.tcbs[u]
  {
    hide Sound, Placed, FineTcbs, Reprioritise;
    SoundGives(k, now, due, low);
    TcbGives(k, t, now, due, low);
    var c := NewPriorities(k.tcbs[t], wanted);
    if c.basePriority != k.tcbs[t].basePriority {
      ReprioritiseKeeps(k, t, c, now, due, low);
    }
  }

  /** Apart from moves between ready lists, both items stay where they are,
      and the event item's value stays of its kind. */
  predicate SameLists(c: Tcb, c': Tcb) {
    && (c'.list == c.list || (c.list.Ready? && c'.list.Ready?)) && c'.event == c.event && c'.notify == c.notify
    && (c.eventValue < IN_USE ==> c'.eventValue < IN_USE)
  }

  /** Inheritance leaves an event value alone that is in use. */
  predicate SameInUse(c: Tcb, c': Tcb) {
    c.eventValue >= IN_USE ==> c'.eventValue == c.eventValue
  }

  // ----- inheritance ------------------------------------------------------------------

  /** xTaskPriorityInherit, for a holder that is a task; the second result is
      the value returned. */
  function Inherit(k: State, holder: TaskId): (r: (State, bool))
    requires Placed(k) && FineTcbs(k.tcbs) && holder in k.tcbs && k.current in k.tcbs
    ensures Placed(r.0) && SameRest(k, r.0) && r.0.tcbs.Keys == k.tcbs.Keys
  {
    var c, p := k.tcbs[holder], k.tcbs[k.current].priority;
    if c.priority < p then
      (Reprioritise(k, holder, c.(priority := p, eventValue := EventValue(c, p))), true)
    else (k, c.basePriority < p)
  }

  /** xTaskPriorityDisinherit, called by the holder itself. */
  function Disinherit(k: State): (r: (State, bool))
    requires Placed(k) && FineTcbs(k.tcbs) && k.current in k.tcbs && k.tcbs[k.current].mutexesHeld > 0
    ensures Placed(r.0) && SameRest(k, r.0) && r.0.tcbs.Keys == k.tcbs.Keys && FineTcbs(r.0.tcbs)
  {
    var c := k.tcbs[k.current];
    var held := c.(mutexesHeld := c.mutexesHeld - 1);
    if c.priority != c.basePriority && held.mutexesHeld == 0 then
      (Reprioritise(k, k.current,
                    held.(priority := c.basePriority, eventValue := MAX_PRIORITIES - c.basePriority)), true)
    else (WithTcb(k, k.current, held), false)
  }

  /** The only mutex of a holder has lost the waiter whose priority it runs at. */
  predicate Falls(c: Tcb, waiting: nat) {
    c.priority != HighestOf(c.basePriority, waiting) && c.mutexesHeld == 1
  }

  /** vTaskPriorityDisinheritAfterTimeout */
  function DisinheritAfterTimeout(k: State, holder: TaskId, waiting: nat): (r: State)
    requires Placed(k) && FineTcbs(k.tcbs) && holder in k.tcbs && waiting < MAX_PRIORITIES
    ensures Placed(r)
  {
    var c := k.tcbs[holder];
    var p := HighestOf(c.basePriority, waiting);
    if Falls(c, waiting) then
      Reprioritise(k, holder, c.(priority := p, eventValue := EventValue(c, p)))
    else k
  }

  /** pvTaskIncrementMutexHeldCount */
  function IncrementHeld(k: State): (r: State)
    requires Placed(k) && k.current in k.tcbs
    ensures Placed(r)
  {
    WithTcb(k, k.current, k.tcbs[k.current].(mutexesHeld := k.tcbs[k.current].mutexesHeld + 1))
  }

  lemma InheritKeeps(k: State, holder: TaskId, now: nat, due: map<TaskId, nat>, low: nat)
    requires Sound(k, now, due, low) && holder in k.tcbs && k.tcbs[holder].mutexesHeld > 0
    ensures Placed(k) && FineTcbs(k.tcbs) && k.current in k.tcbs && Sound(Inherit(k, holder).0, now, due, low)
    ensures var r := Inherit(k, holder).0;
            && SameRest(k, r) && r.tcbs.Keys == k.tcbs.Keys
            && (forall u :: u in k.tcbs && u != holder ==> r.tcbs[u] == k.tcbs[u])
            && r.tcbs[holder].mutexesHeld == k.tcbs[holder].mutexesHeld
            && r.tcbs[holder].basePriority == k.tcbs[holder].basePriority
            && r.tcbs[holder].priority == HighestOf(k.tcbs[holder].priority, k.tcbs[k.current].priority)
            && r.tcbs[holder].eventValue ==
               (if k.tcbs[holder].priority < k.tcbs[k.current].priority
                then EventValue(k.tcbs[holder], k.tcbs[k.current].priority) else k.tcbs[holder].eventValue)
            && SameLists(k.tcbs[holder], r.tcbs[holder]) && SameInUse(k.tcbs[holder], r.tcbs[holder])
  {
    hide Sound, Placed, FineTcbs;
    SoundGives(k, now, due, low);
    TcbGives(k, holder, now, due, low);
    TcbGives(k, k.current, now, due, low);
    var c, p := k.tcbs[holder], k.tcbs[k.current].priority;
    if c.priority < p {
      ReprioritiseKeeps(k, holder, c.(priority := p, eventValue := EventValue(c, p)), now, due, low);
    }
  }

  /** The running task has one mutex less, and its base priority if it has none left. */
  ghost predicate Relinquishes(k: State, r: State)
    requires k.current in k.tcbs && k.tcbs[k.current].mutexesHeld > 0
  {
    && SameRest(k, r) && r.tcbs.Keys == k.tcbs.Keys
    && (forall u :: u in k.tcbs && u != k.current ==> r.tcbs[u] == k.tcbs[u])
    && var c, c' := k.tcbs[k.current], r.tcbs[k.current];
       && c'.mutexesHeld == c.mutexesHeld - 1 && c'.basePriority == c.basePriority && SameLists(c, c')
       && c'.priority == if c.mutexesHeld == 1 then c.basePriority else c.priority
  }

  lemma DisinheritKeeps(k: State, now: nat, due: map<TaskId, nat>, low: nat)
    requires Sound(k, now, due, low) && k.current in k.tcbs && k.tcbs[k.current].mutexesHeld > 0
    ensures Placed(k) && FineTcbs(k.tcbs) && Sound(Disinherit(k).0, now, due, low)
    ensures Relinquishes(k, Disinherit(k).0)
  {
    hide Sound, Placed, FineTcbs, Reprioritise, WithTcb, Relinquishes;
    SoundGives(k, now, due, low);
    TcbGives(k, k.current, now, due, low);
    var c := k.tcbs[k.current];
    if c.priority != c.basePriority && c.mutexesHeld == 1 {
      BaseRestored(k, now, due, low);
    } else {
      GivenUp(k, now, due, low);
    }
  }

  /** The last mutex is given, and inheritance ends. */
  lemma BaseRestored(k: State, now: nat, due: map<TaskId, nat>, low: nat)
    requires Sound(k, now, due, low) && k.current in k.tcbs && k.tcbs[k.current].mutexesHeld == 1
    requires k.tcbs[k.current].basePriority <= k.tcbs[k.current].priority < MAX_PRIORITIES
    ensures Placed(k)
    ensures var c := k.tcbs[k.current];
            var r := Reprioritise(k, k.current, c.(mutexesHeld := 0, priority := c.basePriority,
                                                   eventValue := MAX_PRIORITIES - c.basePriority));
            Sound(r, now, due, low) && Relinquishes(k, r)
  {
    hide Sound, Placed, FineTcbs, Reprioritise;
    SoundGives(k, now, due, low);
    var c := k.tcbs[k.current];
    ReprioritiseKeeps(k, k.current, c.(mutexesHeld := 0, priority := c.basePriority,
                                       eventValue := MAX_PRIORITIES - c.basePriority), now, due, low);
  }

  /** One mutex less, with no inheritance to end. */
  lemma GivenUp(k: State, now: nat, due: map<TaskId, nat>, low: nat)
    requires Sound(k, now, due, low) && k.current in k.tcbs && k.tcbs[k.current].mutexesHeld > 0
    requires k.tcbs[k.current].mutexesHeld > 1 || k.tcbs[k.current].priority == k.tcbs[k.current].basePriority
    ensures var r := WithTcb(k, k.current, k.tcbs[k.current].(mutexesHeld := k.tcbs[k.current].mutexesHeld - 1));
            Sound(r, now, due, low) && Relinquishes(k, r)
  {
    hide Sound;
    var c := k.tcbs[k.current];
    TcbGives(k, k.current, now, due, low);
    WithTcbKeeps(k, k.current, c.(mutexesHeld := c.mutexesHeld - 1), now, due, low);
  }

  lemma DisinheritAfterTimeoutKeeps(k: State, holder: TaskId, waiting: nat, now: nat, due: map<TaskId, nat>, low: nat)
    requires Sound(k, now, due, low) && holder in k.tcbs && k.tcbs[holder].mutexesHeld > 0 && waiting < MAX_PRIORITIES
    ensures Placed(k) && FineTcbs(k.tcbs) && Sound(DisinheritAfterTimeout(k, holder, waiting), now, due, low)
    ensures var r := DisinheritAfterTimeout(k, holder, waiting);
            && SameRest(k, r) && r.tcbs.Keys == k.tcbs.Keys
            && (forall u :: u in k.tcbs && u != holder ==> r.tcbs[u] == k.tcbs[u])
            && r.tcbs[holder].mutexesHeld == k.tcbs[holder].mutexesHeld
            && SameLists(k.tcbs[holder], r.tcbs[holder]) && SameInUse(k.tcbs[holder], r.tcbs[holder])
            && (if Falls(k.tcbs[holder], waiting) then
                  var p := HighestOf(k.tcbs[holder].basePriority, waiting);
                  r.tcbs[holder].priority == p && r.tcbs[holder].eventValue == EventValue(k.tcbs[holder], p)
                else r == k)
            && (k.tcbs[holder].mutexesHeld == 1 ==>
                  r.tcbs[holder].priority == HighestOf(k.tcbs[holder].basePriority, waiting))
  {
    hide Sound, Placed, FineTcbs;
    SoundGives(k, now, due, low);
    TcbGives(k, holder, now, due, low);
    var c := k.tcbs[holder];
    var p := HighestOf(c.basePriority, waiting);
    if Falls(c, waiting) {
      ReprioritiseKeeps(k, holder, c.(priority := p, eventValue := EventValue(c, p)), now, due, low);
    }
  }
}
