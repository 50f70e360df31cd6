/** Every task is counted once: the lengths of the scheduler's lists sum to
    uxCurrentNumberOfTasks in every state that a run reaches. */
module Population {
  import opened Lists
  import opened Kernel
  import opened Ticks
  import opened Lifecycle
  import opened Runs
  import Mutexes

  function ReadyLists(n: nat): (ls: seq<ListId>)
    requires n <= MAX_PRIORITIES
    ensures forall l :: l in ls <==> l.Ready? && l.priority < n
    ensures forall i, j :: 0 <= i < j < |ls| ==> ls[i] != ls[j]
  {
    if n == 0 then [] else [Ready(n - 1)] + ReadyLists(n - 1)
  }

  function EveryList(): (ls: seq<ListId>)
    ensures NoDuplicates(ls) && forall l :: l in ls <==> IsList(l)
  {
    [Delayed1, Delayed2, Suspended, Termination] + ReadyLists(MAX_PRIORITIES)
  }

  ghost function TotalLength(k: State, ls: seq<ListId>): nat
    requires forall l :: l in ls ==> l in k.lists
  {
    if ls == [] then 0 else |k.lists[ls[0]].items| + TotalLength(k, ls[1..])
  }

  ghost function On(k: State, ls: seq<ListId>): set<TaskId> {
    set t | t in k.tcbs && k.tcbs[t].list in ls
  }

  lemma OneList(k: State, l: ListId)
    requires Placed(k) && IsList(l)
    ensures |On(k, [l])| == |k.lists[l].items|
  {
    CountElements(k.lists[l].items);
    assert On(k, [l]) == Elements(k.lists[l].items);
  }

  lemma KnownList(k: State, l: ListId)
    requires Placed(k) && l in k.lists
    ensures IsList(l)
  {
  }

  lemma OnSplits(k: State, ls: seq<ListId>)
    requires ls != [] && ls[0] !in ls[1..]
    ensures |On(k, ls)| == |On(k, [ls[0]])| + |On(k, ls[1..])|
  {
    assert On(k, ls) == On(k, [ls[0]]) + On(k, ls[1..]);
    assert On(k, [ls[0]]) !! On(k, ls[1..]);
  }

  lemma {:induction false} LengthsCountTasks(k: State, ls: seq<ListId>)
    requires Placed(k) && NoDuplicates(ls) && forall l :: l in ls ==> l in k.lists
    ensures TotalLength(k, ls) == |On(k, ls)|
  {
    hide Placed;
    if ls == [] {
      assert On(k, ls) == {};
    } else {
      assert IsList(ls[0]) by { KnownList(k, ls[0]); }
      OneList(k, ls[0]);
      LengthsCountTasks(k, ls[1..]);
      OnSplits(k, ls);
    }
  }

  /** In every reachable state the list lengths sum to uxCurrentNumberOfTasks,
      and uxDeletedTasksWaitingCleanUp is the length of the termination list. */
  lemma LengthsSum(c: Config, ops: seq<Op>)
    requires Good(c) && IsRun(c, ops)
    ensures var k := Final(c, ops).k;
            && (forall l :: l in EveryList() ==> l in k.lists)
            && TotalLength(k, EveryList()) == k.taskCount
            && k.deletedCount == |k.lists[Termination].items|
  {
    hide Good, IsRun, Final, On, TotalLength, EveryList;
    AlwaysGood(c, ops);
    LengthsSumIn(Final(c, ops));
  }

  lemma LengthsSumIn(c: Config)
    requires Good(c)
    ensures (forall l :: l in EveryList() ==> l in c.k.lists)
    ensures TotalLength(c.k, EveryList()) == c.k.taskCount
    ensures Termination in c.k.lists && c.k.deletedCount == |c.k.lists[Termination].items|
  {
    hide EveryList, Clocked, Evented, FineTcbs, NoDuplicates, Indexed;
    GoodGives(c);
    LengthsCountTasks(c.k, EveryList());
    OnEvery(c.k);
  }

  lemma GoodGives(c: Config)
    requires Good(c)
    ensures Placed(c.k) && c.k.taskCount == |c.k.tcbs.Keys|
    ensures Termination in c.k.lists && c.k.deletedCount == |c.k.lists[Termination].items|
    ensures forall l :: IsList(l) ==> l in c.k.lists
  {
    hide Clocked, Evented, FineTcbs, NoDuplicates, Indexed;
  }

  lemma OnEvery(k: State)
    requires Placed(k)
    ensures On(k, EveryList()) == k.tcbs.Keys
  {
    hide EveryList, NoDuplicates;
  }

  // ----- the first state -----------------------------------------------------------

  /** The lists after prvInitialiseTaskLists, and the file-static variables as
      vTaskStartScheduler leaves them, but for the idle task. */
  ghost function Empty(): (k: State)
    ensures Placed(k)
  {
    State(map[], map l: ListId | l in EveryList() :: ListV([], 0), [], 0, 0, true, 0, 0, MAX_DELAY,
          0, 0, 0, false, 0, 0)
  }

  ghost function Started(idle: TaskId): (k: State)
    ensures Placed(k)
  {
    hide Create;
    Create(Empty(), idle, 0).(idle := idle, current := idle)
  }

  /** The scheduler starts with its idle task, in a state that satisfies the
      invariant of all runs. */
  lemma StartsGood(idle: TaskId)
    ensures Good(Config(Started(idle), 0, map[]))
  {
    hide Started, Counted, Placed, DueIn;
    var k := Started(idle);
    StartsCounted(idle);
    StartsEmpty(idle);
    DueInEmpty(k.tcbs, map[], 0, 1);
    DueInEmpty(k.tcbs, map[], 1, 0);
  }

  lemma StartsCounted(idle: TaskId)
    ensures Counted(Started(idle))
  {
    hide NoDuplicates, EveryList, ReadyLists, Placed;
    assert Started(idle).tcbs.Keys == {idle};
  }

  lemma StartsEmpty(idle: TaskId)
    ensures var k := Started(idle);
            && k.tcbs == map[idle := NewTcb(0)] && k.pending == []
            && k.lists[Delayed1].items == [] && k.lists[Delayed2].items == []
            && k.tick == k.overflows == k.pendedTicks == k.suspendCount == 0
            && k.nextUnblock == MAX_DELAY && k.firstIsCurrent
            && k.current == k.idle == idle && !k.yieldPending
  {
  }

  /** Before any mutex is created, no task holds one. */
  lemma StartsGoodSystem(idle: TaskId)
    ensures Mutexes.GoodSystem(Mutexes.System(Config(Started(idle), 0, map[]), map[]))
  {
    hide Good, Started;
    StartsGood(idle);
    StartsEmpty(idle);
    assert Mutexes.Held(map[], idle) == {};
  }
}
