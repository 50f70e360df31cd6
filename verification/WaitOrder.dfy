/** Whether the tasks that wait for a mutex stay in the order of their item
    values, which is the order in which they are woken. */
module WaitOrder {
  import opened Lists
  import opened Kernel
  import opened Suspension
  import opened Tasks
  import opened Lifecycle
  import opened Priorities
  import opened Runs
  import opened Mutexes
  import opened Inheritance

  function ValueOf(k: State, t: TaskId): nat {
    if t in k.tcbs then k.tcbs[t].eventValue else 0
  }

  function Values(k: State, waiters: seq<TaskId>): (r: seq<nat>)
    ensures |r| == |waiters| && forall i :: 0 <= i < |waiters| ==> r[i] == ValueOf(k, waiters[i])
  {
    seq(|waiters|, i requires 0 <= i < |waiters| => ValueOf(k, waiters[i]))
  }

  /** The waiters of every mutex are in order. */
  ghost predicate Ordered(k: State, ms: map<MutexId, Mutex>) {
    forall m :: m in ms ==> Sorted(Values(k, ms[m].waiters))
  }

  /** Value v does not lie between those of t's neighbours in the queue. */
  ghost predicate Misplaced(k: State, waiters: seq<TaskId>, t: TaskId, v: nat) {
    exists i :: 0 <= i < |waiters| && waiters[i] == t && OutOfPlace(Values(k, waiters), i, v)
  }

  predicate OutOfPlace(values: seq<nat>, i: nat, v: nat)
    requires i < |values|
  {
    (i > 0 && v < values[i - 1]) || (i + 1 < |values| && v > values[i + 1])
  }

  /** A step that gives a waiter a value out of its place. */
  ghost predicate Disorders(s: System, op: MutexOp)
    requires Possible(s, op)
  {
    var ch := RankChange(s, op);
    ch.Change? && exists m :: m in s.mutexes && Misplaced(s.c.k, s.mutexes[m].waiters, ch.task, ch.value)
  }

  // ----- one queue -----------------------------------------------------------------------

  /** Only t's value differs. */
  ghost predicate Revalued(k: State, r: State, waiters: seq<TaskId>, ch: Change) {
    forall u :: u in waiters ==> ValueOf(r, u) == if ch.Change? && ch.task == u then ch.value else ValueOf(k, u)
  }

  lemma RevaluedSorted(k: State, r: State, waiters: seq<TaskId>, ch: Change)
    requires NoDuplicates(waiters) && Sorted(Values(k, waiters)) && Revalued(k, r, waiters, ch)
    ensures Sorted(Values(r, waiters)) <==> !(ch.Change? && Misplaced(k, waiters, ch.task, ch.value))
  {
    var values, values' := Values(k, waiters), Values(r, waiters);
    assert forall i :: 0 <= i < |waiters| ==> waiters[i] in waiters;
    if ch.Change? && ch.task in waiters {
      var i := IndexOf(waiters, ch.task);
      assert forall j :: 0 <= j < |waiters| && j != i ==> values'[j] == values[j];
      OneValueSorted(values, values', i);
    }
  }

  lemma OneValueSorted(values: seq<nat>, values': seq<nat>, i: nat)
    requires Sorted(values) && i < |values| == |values'|
    requires forall j :: 0 <= j < |values| && j != i ==> values'[j] == values[j]
    ensures Sorted(values') <==> !OutOfPlace(values, i, values'[i])
  {
  }

  lemma {:induction false} StillSorted(k: State, r: State, waiters: seq<TaskId>)
    requires Sorted(Values(k, waiters))
    requires forall u :: u in StillWaiting(r, waiters) ==> ValueOf(r, u) == ValueOf(k, u)
    ensures Sorted(Values(r, StillWaiting(r, waiters)))
  {
    var still := StillWaiting(r, waiters);
    if waiters != [] {
      TailSorted(k, waiters);
      StillSorted(k, r, waiters[1..]);
      var rest := StillWaiting(r, waiters[1..]);
      if still == [waiters[0]] + rest {
        assert waiters[0] in still;
        forall i | 0 <= i < |rest| ensures ValueOf(r, waiters[0]) <= ValueOf(r, rest[i]) {
          assert rest[i] in rest && rest[i] in still;
          FirstIsLeast(k, waiters, rest[i]);
        }
        FirstSorted(r, waiters[0], rest);
      }
    }
  }

  lemma FirstSorted(k: State, t: TaskId, rest: seq<TaskId>)
    requires Sorted(Values(k, rest)) && forall i :: 0 <= i < |rest| ==> ValueOf(k, t) <= ValueOf(k, rest[i])
    ensures Sorted(Values(k, [t] + rest))
  {
  }

  lemma TailSorted(k: State, waiters: seq<TaskId>)
    requires waiters != [] && Sorted(Values(k, waiters))
    ensures Sorted(Values(k, waiters[1..]))
  {
    var values, tail := Values(k, waiters), Values(k, waiters[1..]);
    assert forall i :: 0 <= i < |tail| ==> tail[i] == values[i + 1];
  }

  lemma FirstIsLeast(k: State, waiters: seq<TaskId>, t: TaskId)
    requires t in waiters && Sorted(Values(k, waiters))
    ensures ValueOf(k, waiters[0]) <= ValueOf(k, t)
  {
    var i := IndexOf(waiters, t);
    assert Values(k, waiters)[0] <= Values(k, waiters)[i];
  }

  /** A task that joins with its own value keeps the order, and cannot mend it. */
  lemma JoinSorted(i: State, k: State, waiters: seq<TaskId>, t: TaskId)
    requires (forall u :: u in waiters ==> u in i.tcbs && ValueOf(k, u) == ValueOf(i, u))
    ensures var r := Enqueue(i, waiters, t, ValueOf(k, t));
            Sorted(Values(k, r)) <==> Sorted(Values(k, waiters))
  {
    var keys, value := Values(k, waiters), ValueOf(k, t);
    assert EventValues(i, waiters) == keys by {
      assert forall j :: 0 <= j < |waiters| ==> waiters[j] in waiters;
    }
    var pos := InsertPosition(keys, value);
    var r := Enqueue(i, waiters, t, value);
    forall j | 0 <= j < |r| ensures Values(k, r)[j] == (keys[..pos] + [value] + keys[pos..])[j] {
      SplicedAt(keys, pos, value, j);
      SplicedAt(waiters, pos, t, j);
    }
    assert Values(k, r) == keys[..pos] + [value] + keys[pos..];
    SplicedSorted(keys, pos, value);
  }

  lemma SplicedSorted(keys: seq<nat>, pos: nat, value: nat)
    requires pos == InsertPosition(keys, value)
    ensures Sorted(keys[..pos] + [value] + keys[pos..]) <==> Sorted(keys)
  {
    hide Sorted;
    if Sorted(keys) {
      InsertKeepsSorted(keys, value);
    }
    var s := keys[..pos] + [value] + keys[pos..];
    if Sorted(s) {
      WithoutSplit(keys[..pos], value, keys[pos..]);
      WithoutKeepsSorted(s, pos);
      assert keys[..pos] + keys[pos..] == keys;
    }
  }

  // ----- steps ---------------------------------------------------------------------------

  lemma QueuedAt(s: System, m: MutexId)
    requires GoodSystem(s) && m in s.mutexes
    ensures Workable(s) && NoDuplicates(s.mutexes[m].waiters)
    ensures forall u :: u in s.mutexes[m].waiters ==> u in s.c.k.tcbs && s.c.k.tcbs[u].event == OnEventList
  {
    hide Good, AllExclusive, HeldCounts, NoDuplicates;
    SystemGives(s);
    assert Queued(s.c.k, s.mutexes[m]);
  }

  /** Every mutex keeps its waiters, and all of them are revalued. */
  lemma RevaluedOrdered(s: System, op: MutexOp, r: State)
    requires GoodSystem(s) && Possible(s, op) && Ordered(s.c.k, s.mutexes)
    requires forall m :: m in s.mutexes ==> Revalued(s.c.k, r, s.mutexes[m].waiters, RankChange(s, op))
    ensures Ordered(r, s.mutexes) <==> !Disorders(s, op)
  {
    hide GoodSystem, Steppable, Sorted, Revalued, Misplaced, RankChange, NoDuplicates;
    forall m | m in s.mutexes
      ensures var ch := RankChange(s, op);
              Sorted(Values(r, s.mutexes[m].waiters)) <==>
              !(ch.Change? && Misplaced(s.c.k, s.mutexes[m].waiters, ch.task, ch.value))
    {
      QueuedAt(s, m);
      RevaluedSorted(s.c.k, r, s.mutexes[m].waiters, RankChange(s, op));
    }
  }

  /** Neither a wait for an event nor one's end stores a value in a mutex waiter. */
  lemma NothingStored(s: System, op: MutexOp, t: TaskId, m: MutexId)
    requires GoodSystem(s) && Possible(s, op) && m in s.mutexes && t in s.mutexes[m].waiters
    ensures !Inheritance.Stores(s, op, t)
  {
    hide GoodSystem, Steppable;
    QueuedAt(s, m);
  }

  lemma WaiterRevalued(s: System, op: MutexOp, t: TaskId, m: MutexId)
    requires GoodSystem(s) && Possible(s, op) && m in s.mutexes && t in s.mutexes[m].waiters
    requires !op.GiveMutex? && t in After(s, op).c.k.tcbs
    ensures var ch := RankChange(s, op);
            ValueOf(After(s, op).c.k, t) == if ch.Change? && ch.task == t then ch.value else ValueOf(s.c.k, t)
  {
    hide GoodSystem, Steppable, After, RankChange;
    QueuedAt(s, m);
    NothingStored(s, op, t, m);
    StepRanks(s, op, t);
  }

  lemma KernelOrdered(s: System, op: Op)
    requires GoodSystem(s) && Possible(s, KernelStep(op)) && Ordered(s.c.k, s.mutexes)
    ensures var r := After(s, KernelStep(op)); Ordered(r.c.k, r.mutexes) <==> !Disorders(s, KernelStep(op))
  {
    hide GoodSystem, Steppable, Step, Sorted, StillWaiting, Misplaced;
    var r, o := After(s, KernelStep(op)), KernelStep(op);
    if op.Prioritise? || op.ReadEventValue? {
      RankedWaiters(s, op);
      forall m | m in s.mutexes ensures Revalued(s.c.k, r.c.k, s.mutexes[m].waiters, RankChange(s, o)) {
        QueuedAt(s, m);
        forall t | t in s.mutexes[m].waiters ensures t in r.c.k.tcbs { }
        forall t | t in s.mutexes[m].waiters
          ensures var ch := RankChange(s, o);
                  ValueOf(r.c.k, t) == if ch.Change? && ch.task == t then ch.value else ValueOf(s.c.k, t)
        {
          WaiterRevalued(s, o, t, m);
        }
      }
      RevaluedOrdered(s, o, r.c.k);
    } else {
      forall m | m in s.mutexes ensures Sorted(Values(r.c.k, StillWaiting(r.c.k, s.mutexes[m].waiters))) {
        forall t | t in StillWaiting(r.c.k, s.mutexes[m].waiters) ensures ValueOf(r.c.k, t) == ValueOf(s.c.k, t) {
          StillThere(r.c.k, s.mutexes[m].waiters, t);
          WaiterRevalued(s, o, t, m);
        }
        StillSorted(s.c.k, r.c.k, s.mutexes[m].waiters);
      }
    }
  }

  lemma SameOrdered(s: System, r: System)
    requires Ordered(s.c.k, s.mutexes)
    requires forall m :: m in r.mutexes ==>
               r.mutexes[m].waiters == [] || (m in s.mutexes && r.mutexes[m].waiters == s.mutexes[m].waiters)
    requires forall m, t :: m in s.mutexes && t in s.mutexes[m].waiters ==> ValueOf(r.c.k, t) == ValueOf(s.c.k, t)
    ensures Ordered(r.c.k, r.mutexes)
  {
    hide Sorted;
    forall m | m in r.mutexes ensures Sorted(Values(r.c.k, r.mutexes[m].waiters)) {
      if r.mutexes[m].waiters == [] {
        NobodySorted(r.c.k);
      } else {
        var waiters := s.mutexes[m].waiters;
        assert forall i :: 0 <= i < |waiters| ==> waiters[i] in waiters;
        assert Values(r.c.k, waiters) == Values(s.c.k, waiters);
      }
    }
  }

  lemma NobodySorted(k: State)
    ensures Sorted(Values(k, []))
  {
  }

  lemma TakeOrdered(s: System, m: MutexId)
    requires GoodSystem(s) && Possible(s, TakeMutex(m)) && Ordered(s.c.k, s.mutexes)
    ensures Ordered(Take(s, m).0.c.k, Take(s, m).0.mutexes)
  {
    hide GoodSystem, Steppable, Placed, FineTcbs, Ordered;
    var r := Take(s, m).0;
    forall i, t | i in s.mutexes && t in s.mutexes[i].waiters ensures ValueOf(r.c.k, t) == ValueOf(s.c.k, t) {
      QueuedAt(s, i);
      TakeRanks(s, m, t);
    }
    SameOrdered(s, r);
  }

  lemma NewOrdered(s: System, m: MutexId, recursive: bool)
    requires Possible(s, NewMutex(m, recursive)) && Ordered(s.c.k, s.mutexes)
    ensures var r := After(s, NewMutex(m, recursive)); Ordered(r.c.k, r.mutexes)
  {
    hide Steppable, Ordered;
    SameOrdered(s, After(s, NewMutex(m, recursive)));
  }

  /** The task that gives a mutex is on no queue. */
  lemma GiverDoesNotWait(s: System, g: MutexId, m: MutexId)
    requires GoodSystem(s) && Gives(s, g) && m in s.mutexes
    ensures s.c.k.current !in s.mutexes[m].waiters
  {
    hide Sound, Steppable, AllExclusive, HeldCounts;
    SystemGives(s);
    StateGives(s.c.k);
    assert Queued(s.c.k, s.mutexes[m]);
    TcbGives(s.c.k, s.c.k.current, s.c.now, s.c.due, s.c.now + 1);
  }

  lemma GiveOrdered(s: System, m: MutexId)
    requires GoodSystem(s) && Possible(s, GiveMutex(m)) && Ordered(s.c.k, s.mutexes)
    ensures Ordered(Give(s, m).0.c.k, Give(s, m).0.mutexes)
  {
    hide GoodSystem, Steppable, Release, Ordered;
    if s.mutexes[m].holder == HeldBy(s.c.k.current) && !(s.mutexes[m].recursive && s.mutexes[m].depth > 1) {
      ReleaseOrdered(s, m);
    } else {
      SameOrdered(s, Give(s, m).0);
    }
  }

  lemma ReleaseOrdered(s: System, m: MutexId)
    requires GoodSystem(s) && Gives(s, m) && Ordered(s.c.k, s.mutexes)
    ensures Ordered(Release(s, m).c.k, Release(s, m).mutexes)
  {
    hide GoodSystem, Steppable, Release, Sorted;
    var r := Release(s, m);
    ReleasedMutexes(s, m);
    forall i, t | i in s.mutexes && t in s.mutexes[i].waiters ensures ValueOf(r.c.k, t) == ValueOf(s.c.k, t) {
      QueuedAt(s, i);
      GiverDoesNotWait(s, m, i);
      ReleaseRanks(s, m, t);
    }
    forall i | i in r.mutexes ensures Sorted(Values(r.c.k, r.mutexes[i].waiters)) {
      var waiters := s.mutexes[i].waiters;
      assert forall j :: 0 <= j < |waiters| ==> waiters[j] in waiters;
      assert Values(r.c.k, waiters) == Values(s.c.k, waiters);
      if i == m && waiters != [] {
        TailSorted(r.c.k, waiters);
      }
    }
  }

  lemma WaitOrdered(s: System, m: MutexId, ticks: nat)
    requires GoodSystem(s) && Possible(s, WaitMutex(m, ticks)) && Ordered(s.c.k, s.mutexes)
    ensures var r := Wait(s, m, ticks); Ordered(r.c.k, r.mutexes) <==> !Disorders(s, WaitMutex(m, ticks))
  {
    hide GoodSystem, Steppable, Wait, Sorted, Misplaced, Revalued;
    var k, r, op := s.c.k, Wait(s, m, ticks), WaitMutex(m, ticks);
    forall i | i in s.mutexes ensures Revalued(k, r.c.k, s.mutexes[i].waiters, RankChange(s, op)) {
      WaitRevalues(s, m, ticks, i);
    }
    RevaluedOrdered(s, op, r.c.k);
    WaitMutexes(s, m, ticks);
    WaitJoins(s, m, ticks);
    JoinOrdered(r.c.k, s.mutexes, r.mutexes, m);
  }

  lemma WaitRevalues(s: System, m: MutexId, ticks: nat, i: MutexId)
    requires GoodSystem(s) && Possible(s, WaitMutex(m, ticks)) && i in s.mutexes
    ensures Revalued(s.c.k, Wait(s, m, ticks).c.k, s.mutexes[i].waiters, RankChange(s, WaitMutex(m, ticks)))
  {
    hide GoodSystem, Steppable, Wait;
    QueuedAt(s, i);
    forall t | t in s.mutexes[i].waiters
      ensures var ch := RankChange(s, WaitMutex(m, ticks));
              ValueOf(Wait(s, m, ticks).c.k, t) == if ch.Change? && ch.task == t then ch.value else ValueOf(s.c.k, t)
    {
      WaitRanks(s, m, ticks, t);
    }
  }

  lemma JoinOrdered(k: State, ms: map<MutexId, Mutex>, ms': map<MutexId, Mutex>, m: MutexId)
    requires m in ms && m in ms' && ms' == ms[m := ms[m].(waiters := ms'[m].waiters)]
    requires Sorted(Values(k, ms'[m].waiters)) <==> Sorted(Values(k, ms[m].waiters))
    ensures Ordered(k, ms') <==> Ordered(k, ms)
  {
    hide Sorted;
    if Ordered(k, ms') {
      forall i | i in ms ensures Sorted(Values(k, ms[i].waiters)) {
        assert i in ms';
      }
    }
  }

  lemma WaitJoins(s: System, m: MutexId, ticks: nat)
    requires GoodSystem(s) && Possible(s, WaitMutex(m, ticks))
    ensures m in s.mutexes && m in Wait(s, m, ticks).mutexes
    ensures var r := Wait(s, m, ticks);
            Sorted(Values(r.c.k, r.mutexes[m].waiters)) <==> Sorted(Values(r.c.k, s.mutexes[m].waiters))
  {
    hide Sound, Steppable, Placed, FineTcbs, AllExclusive, HeldCounts, Inherit, Block, Deadline, PendingKnown;
    hide Sorted, Enqueue, NoDuplicates;
    var k, mx := s.c.k, s.mutexes[m];
    SystemGives(s);
    StateGives(k);
    InheritLeavesCurrent(k, mx.holder.task);
    var i := Inherit(k, mx.holder.task).0;
    BlockedTask(i, ticks, true);
    assert forall u :: u in mx.waiters ==> u in i.tcbs.Keys;
    JoinSorted(i, Wait(s, m, ticks).c.k, mx.waiters, k.current);
  }

  lemma ExpireOrdered(s: System, m: MutexId, inherited: bool)
    requires GoodSystem(s) && Possible(s, ExpireMutex(m, inherited)) && Ordered(s.c.k, s.mutexes)
    ensures var r := Expire(s, m, inherited); Ordered(r.c.k, r.mutexes) <==> !Disorders(s, ExpireMutex(m, inherited))
  {
    hide GoodSystem, Steppable, Expire, Sorted, Misplaced;
    var r, op := Expire(s, m, inherited), ExpireMutex(m, inherited);
    ExpiredMutexes(s, m, inherited);
    forall i | i in s.mutexes ensures Revalued(s.c.k, r.c.k, s.mutexes[i].waiters, RankChange(s, op)) {
      QueuedAt(s, i);
      forall t | t in s.mutexes[i].waiters
        ensures var ch := RankChange(s, op);
                ValueOf(r.c.k, t) == if ch.Change? && ch.task == t then ch.value else ValueOf(s.c.k, t)
      {
        ExpireRanks(s, m, inherited, t);
      }
    }
    RevaluedOrdered(s, op, r.c.k);
  }

  // ----- whole runs ----------------------------------------------------------------------

  lemma StepOrdered(s: System, op: MutexOp)
    requires GoodSystem(s) && Possible(s, op) && Ordered(s.c.k, s.mutexes)
    ensures Ordered(After(s, op).c.k, After(s, op).mutexes) <==> !Disorders(s, op)
  {
    hide GoodSystem, Steppable, Ordered, Take, Give, Wait, Expire, Step, Misplaced;
    match op {
      case KernelStep(o) => KernelOrdered(s, o);
      case NewMutex(m, recursive) => NewOrdered(s, m, recursive);
      case TakeMutex(m) => TakeOrdered(s, m);
      case GiveMutex(m) => GiveOrdered(s, m);
      case WaitMutex(m, ticks) => WaitOrdered(s, m, ticks);
      case ExpireMutex(m, inherited) => ExpireOrdered(s, m, inherited);
    }
  }

  ghost predicate AlwaysOrdered(s: System, ops: seq<MutexOp>)
    requires IsMutexRun(s, ops)
    decreases |ops|
  {
    Ordered(s.c.k, s.mutexes) && (ops != [] ==> AlwaysOrdered(After(s, ops[0]), ops[1..]))
  }

  ghost predicate NeverDisorders(s: System, ops: seq<MutexOp>)
    requires IsMutexRun(s, ops)
    decreases |ops|
  {
    ops != [] ==> !Disorders(s, ops[0]) && NeverDisorders(After(s, ops[0]), ops[1..])
  }

  /** The waiters of all mutexes stay in order over a run exactly if no waiter ever
      gets an item value that does not lie between those of its neighbours. */
  lemma {:induction false} OrderedUnless(s: System, ops: seq<MutexOp>)
    requires GoodSystem(s) && IsMutexRun(s, ops) && NoHolderDeleted(s, ops) && Ordered(s.c.k, s.mutexes)
    ensures AlwaysOrdered(s, ops) <==> NeverDisorders(s, ops)
    decreases |ops|
  {
    hide GoodSystem, After, Ordered, Disorders, DeletesHolder;
    if ops != [] {
      MutexStepKeeps(s, ops[0]);
      StepOrdered(s, ops[0]);
      if !Disorders(s, ops[0]) {
        OrderedUnless(After(s, ops[0]), ops[1..]);
      }
    }
  }
}
