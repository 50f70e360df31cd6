/** Event groups (event_groups.c): waiting for bits, the walk that releases
    waiters, and the rendezvous. */
module EventGroups {

  type TaskId = nat

  /** A 32-bit word as the set of the numbers of its one bits, so that union,
      intersection and difference are the source's |, & and & ~. */
  type Bits = set<nat>

  const CLEAR_ON_EXIT: Bits := {24}      // eventCLEAR_EVENTS_ON_EXIT_BIT, 0x01000000
  const DUE_TO_BIT_SET: Bits := {25}     // eventUNBLOCKED_DUE_TO_BIT_SET, 0x02000000
  const WAIT_FOR_ALL: Bits := {26}       // eventWAIT_FOR_ALL_BITS, 0x04000000
  const IN_USE: Bits := {31}             // taskEVENT_LIST_ITEM_VALUE_IN_USE, 0x80000000

  // eventEVENT_BITS_CONTROL_BYTES, 0xff000000
  const CONTROL: Bits := {24, 25, 26, 27, 28, 29, 30, 31}

  /** A task on xTasksWaitingForBits and its event list item value. */
  datatype Waiter = Waiter(task: TaskId, value: Bits)

  // ----- conditions --------------------------------------------------------------------

  /** prvTestWaitCondition */
  function TestWaitCondition(bits: Bits, mask: Bits, all: bool): bool {
    if all then bits * mask == mask else bits * mask != {}
  }

  /** What prvTestWaitCondition decides: every bit of the mask is set, or some
      bit of it is. */
  ghost predicate Met(bits: Bits, mask: Bits, all: bool) {
    if all then forall b :: b in mask ==> b in bits else exists b :: b in mask && b in bits
  }

  lemma TestIsMet(bits: Bits, mask: Bits, all: bool)
    ensures TestWaitCondition(bits, mask, all) <==> Met(bits, mask, all)
  {
    if all {
      assert bits * mask == mask <==> mask <= bits;
    } else if bits * mask != {} {
      var b :| b in bits * mask;
      assert b in mask && b in bits;
    } else {
      assert forall b :: b in mask && b in bits ==> b in bits * mask;
    }
  }

  function Wanted(value: Bits): Bits {
    value - CONTROL
  }

  function WantsAll(value: Bits): bool {
    value * CONTROL * WAIT_FOR_ALL != {}
  }

  function ClearsOnExit(value: Bits): bool {
    value * CONTROL * CLEAR_ON_EXIT != {}
  }

  /** The match that the walk of xEventGroupSetBits looks for. */
  function Matches(value: Bits, bits: Bits): bool {
    if !WantsAll(value) then Wanted(value) * bits != {} else Wanted(value) * bits == Wanted(value)
  }

  /** The item value of a task that blocks. */
  function ItemValue(mask: Bits, clear: bool, all: bool): Bits {
    mask + (if clear then CLEAR_ON_EXIT else {}) + (if all then WAIT_FOR_ALL else {}) + IN_USE
  }

  predicate UserBits(bits: Bits) {
    bits * CONTROL == {}
  }

  /** The control bits survive next to the mask, and the walk judges a blocked
      task exactly by the condition that it asked for. */
  lemma ItemValueSplits(mask: Bits, clear: bool, all: bool, bits: Bits)
    requires UserBits(mask)
    ensures var v := ItemValue(mask, clear, all);
            && Wanted(v) == mask && WantsAll(v) == all && ClearsOnExit(v) == clear
            && v * DUE_TO_BIT_SET == {}
            && Matches(v, bits) == Met(bits, mask, all)
  {
    TestIsMet(bits, mask, all);
    assert bits * mask == mask * bits;
  }

  /** Clearing bits never satisfies a condition. */
  lemma ClearingSatisfiesNone(value: Bits, bits: Bits, cleared: Bits)
    requires !Matches(value, bits)
    ensures !Matches(value, bits - cleared)
  {
  }

  lemma UserBitsClosed(a: Bits, b: Bits)
    requires UserBits(a)
    ensures UserBits(a - b) && (UserBits(b) ==> UserBits(a + b))
  {
  }

  // ----- the walk ------------------------------------------------------------------------

  /** The value that a released task finds in its event item. */
  function ReleaseValue(bits: Bits): Bits {
    bits + DUE_TO_BIT_SET + IN_USE
  }

  function Released(ws: seq<Waiter>, bits: Bits): seq<Waiter> {
    if ws == [] then []
    else
      var rest := Released(ws[1..], bits);
      if Matches(ws[0].value, bits) then [Waiter(ws[0].task, ReleaseValue(bits))] + rest else rest
  }

  function Remaining(ws: seq<Waiter>, bits: Bits): seq<Waiter> {
    if ws == [] then []
    else
      var rest := Remaining(ws[1..], bits);
      if Matches(ws[0].value, bits) then rest else [ws[0]] + rest
  }

  function ToClear(ws: seq<Waiter>, bits: Bits): Bits {
    if ws == [] then {}
    else
      var rest := ToClear(ws[1..], bits);
      if Matches(ws[0].value, bits) && ClearsOnExit(ws[0].value) then Wanted(ws[0].value) + rest else rest
  }

  /** Exactly the waiters whose condition holds are released, all with the same
      snapshot; exactly the others stay. */
  lemma {:induction false} WalkPartitions(ws: seq<Waiter>, bits: Bits)
    ensures forall w :: w in Remaining(ws, bits) <==> w in ws && !Matches(w.value, bits)
    ensures forall w :: w in ws && Matches(w.value, bits) ==> Waiter(w.task, ReleaseValue(bits)) in Released(ws, bits)
    ensures forall r :: r in Released(ws, bits) ==>
              r.value == ReleaseValue(bits) && exists w :: w in ws && w.task == r.task && Matches(w.value, bits)
  {
    hide Matches, ReleaseValue;
    if ws != [] {
      WalkPartitions(ws[1..], bits);
      assert ws == [ws[0]] + ws[1..];
    }
  }

  function ReleasedOne(w: Waiter, bits: Bits): seq<Waiter> {
    if Matches(w.value, bits) then [Waiter(w.task, ReleaseValue(bits))] else []
  }

  function ToClearOne(w: Waiter, bits: Bits): Bits {
    if Matches(w.value, bits) && ClearsOnExit(w.value) then Wanted(w.value) else {}
  }

  lemma {:induction false} ReleasedAppend(ws: seq<Waiter>, w: Waiter, bits: Bits)
    ensures Released(ws + [w], bits) == Released(ws, bits) + ReleasedOne(w, bits)
  {
    hide Matches, ReleaseValue;
    if ws == [] {
      assert ws + [w] == [w] && [w][1..] == [];
    } else {
      ReleasedAppend(ws[1..], w, bits);
      assert (ws + [w])[1..] == ws[1..] + [w] && (ws + [w])[0] == ws[0];
    }
  }

  lemma {:induction false} RemainingAppend(ws: seq<Waiter>, w: Waiter, bits: Bits)
    ensures Remaining(ws + [w], bits) == Remaining(ws, bits) + if Matches(w.value, bits) then [] else [w]
  {
    hide Matches;
    if ws == [] {
      assert ws + [w] == [w] && [w][1..] == [];
    } else {
      RemainingAppend(ws[1..], w, bits);
      assert (ws + [w])[1..] == ws[1..] + [w] && (ws + [w])[0] == ws[0];
    }
  }

  lemma {:induction false} ToClearAppend(ws: seq<Waiter>, w: Waiter, bits: Bits)
    ensures ToClear(ws + [w], bits) == ToClear(ws, bits) + ToClearOne(w, bits)
  {
    hide Matches, Wanted, ClearsOnExit;
    if ws == [] {
      assert ws + [w] == [w] && [w][1..] == [];
    } else {
      ToClearAppend(ws[1..], w, bits);
      assert (ws + [w])[1..] == ws[1..] + [w] && (ws + [w])[0] == ws[0];
    }
  }

  lemma WalkAppend(ws: seq<Waiter>, w: Waiter, bits: Bits)
    ensures Released(ws + [w], bits) == Released(ws, bits) + ReleasedOne(w, bits)
    ensures Remaining(ws + [w], bits) == Remaining(ws, bits) + if Matches(w.value, bits) then [] else [w]
    ensures ToClear(ws + [w], bits) == ToClear(ws, bits) + ToClearOne(w, bits)
  {
    hide *;
    ReleasedAppend(ws, w, bits);
    RemainingAppend(ws, w, bits);
    ToClearAppend(ws, w, bits);
  }

  /** A released task returns a snapshot that satisfies its own condition. */
  lemma ReleaseSatisfies(value: Bits, bits: Bits)
    requires Matches(value, bits) && UserBits(bits)
    ensures ReleaseValue(bits) * DUE_TO_BIT_SET != {} && Wanted(ReleaseValue(bits)) == bits
    ensures TestWaitCondition(Wanted(ReleaseValue(bits)), Wanted(value), WantsAll(value))
  {
  }

  // ----- the group as a value ------------------------------------------------------------

  datatype Group = Group(bits: Bits, waiting: seq<Waiter>)

  /** A blocked task's value is the condition that it waits for, and says that
      no set has released it. */
  ghost predicate Blocked(w: Waiter) {
    && UserBits(Wanted(w.value)) && w.value * DUE_TO_BIT_SET == {}
    && w.value == ItemValue(Wanted(w.value), ClearsOnExit(w.value), WantsAll(w.value))
  }

  /** No task on the list has a condition that the bits satisfy. */
  ghost predicate NoneSatisfied(g: Group) {
    && UserBits(g.bits)
    && forall w :: w in g.waiting ==> Blocked(w) && !Matches(w.value, g.bits)
  }

  function AfterSet(g: Group, bits: Bits): Group {
    var all := g.bits + bits;
    Group(all - ToClear(g.waiting, all), Remaining(g.waiting, all))
  }

  /** The first part of xEventGroupWaitBits; the second result tells whether
      the condition was met at once. */
  function AfterWait(g: Group, task: TaskId, mask: Bits, clear: bool, all: bool, block: bool): (Group, bool) {
    if TestWaitCondition(g.bits, mask, all) then (g.(bits := if clear then g.bits - mask else g.bits), true)
    else if block then (g.(waiting := g.waiting + [Waiter(task, ItemValue(mask, clear, all))]), false)
    else (g, false)
  }

  /** The first part of xEventGroupSync; the second result tells whether this
      call completes the rendezvous. */
  function AfterSync(g: Group, task: TaskId, bits: Bits, mask: Bits, block: bool): (Group, bool) {
    var s := AfterSet(g, bits);
    if (g.bits + bits) * mask == mask then (s.(bits := s.bits - mask), true)
    else if block then (s.(waiting := s.waiting + [Waiter(task, ItemValue(mask, true, true))]), false)
    else (s, false)
  }

  /** The end of a wait that timed out. */
  function AfterTimeout(g: Group, mask: Bits, clear: bool, all: bool): Group {
    if clear && TestWaitCondition(g.bits, mask, all) then g.(bits := g.bits - mask) else g
  }

  lemma FewerKeep(g: Group, r: Group, cleared: Bits)
    requires NoneSatisfied(g) && r.bits == g.bits - cleared && forall w :: w in r.waiting ==> w in g.waiting
    ensures NoneSatisfied(r)
  {
    hide Matches, UserBits, Blocked;
    UserBitsClosed(g.bits, cleared);
    forall w | w in r.waiting ensures !Matches(w.value, r.bits) {
      ClearingSatisfiesNone(w.value, g.bits, cleared);
    }
  }

  lemma SetKeeps(g: Group, bits: Bits)
    requires NoneSatisfied(g) && UserBits(bits)
    ensures NoneSatisfied(AfterSet(g, bits))
  {
    hide Matches, UserBits, Blocked, ToClear;
    var all := g.bits + bits;
    WalkPartitions(g.waiting, all);
    UserBitsClosed(g.bits, bits);
    FewerKeep(Group(all, Remaining(g.waiting, all)), AfterSet(g, bits), ToClear(g.waiting, all));
  }

  lemma JoinKeeps(g: Group, task: TaskId, mask: Bits, clear: bool, all: bool)
    requires NoneSatisfied(g) && UserBits(mask) && !TestWaitCondition(g.bits, mask, all)
    ensures NoneSatisfied(g.(waiting := g.waiting + [Waiter(task, ItemValue(mask, clear, all))]))
  {
    hide Matches, UserBits, TestWaitCondition, ItemValue, Met, Wanted, WantsAll, ClearsOnExit;
    TestIsMet(g.bits, mask, all);
    ItemValueSplits(mask, clear, all, g.bits);
  }

  lemma SyncKeeps(g: Group, task: TaskId, bits: Bits, mask: Bits, block: bool)
    requires NoneSatisfied(g) && UserBits(bits) && UserBits(mask)
    ensures NoneSatisfied(AfterSync(g, task, bits, mask, block).0)
  {
    hide Matches, UserBits, Blocked, ToClear, ItemValue, NoneSatisfied, Remaining;
    var s := AfterSet(g, bits);
    SetKeeps(g, bits);
    FewerKeep(s, s.(bits := s.bits - mask), mask);
    if !((g.bits + bits) * mask == mask) && block {
      JoinKeeps(s, task, mask, true, true);
    }
  }

  // ----- which bits a call leaves ----------------------------------------------------------

  /** A waiter that asked to clear on exit has its condition met by the bits, and
      b is in its mask. */
  ghost predicate ClearedFor(ws: seq<Waiter>, bits: Bits, b: nat) {
    exists w, mask, all :: w in ws && UserBits(mask) && w.value == ItemValue(mask, true, all)
                           && Met(bits, mask, all) && b in mask
  }

  lemma {:induction false} ToClearHas(ws: seq<Waiter>, bits: Bits, b: nat)
    ensures b in ToClear(ws, bits) <==>
            exists w :: w in ws && Matches(w.value, bits) && ClearsOnExit(w.value) && b in Wanted(w.value)
  {
    hide Matches, ClearsOnExit, Wanted;
    if ws != [] {
      ToClearHas(ws[1..], bits, b);
      assert ws == [ws[0]] + ws[1..];
    }
  }

  lemma ToClearIsAsked(ws: seq<Waiter>, bits: Bits, b: nat)
    requires forall w :: w in ws ==> Blocked(w)
    ensures b in ToClear(ws, bits) <==> ClearedFor(ws, bits, b)
  {
    hide Matches, ClearsOnExit, Wanted, WantsAll, ToClear, ItemValue, UserBits, Met;
    ToClearHas(ws, bits, b);
    if b in ToClear(ws, bits) {
      var w :| w in ws && Matches(w.value, bits) && ClearsOnExit(w.value) && b in Wanted(w.value);
      assert Blocked(w);
      ItemValueSplits(Wanted(w.value), true, WantsAll(w.value), bits);
    }
    if ClearedFor(ws, bits, b) {
      var w, mask, all :| w in ws && UserBits(mask) && w.value == ItemValue(mask, true, all)
                          && Met(bits, mask, all) && b in mask;
      ItemValueSplits(mask, true, all, bits);
    }
  }

  /** A set adds its bits and takes away those that a released waiter asked to
      clear, and no others. */
  lemma SetLeaves(g: Group, bits: Bits, b: nat)
    requires NoneSatisfied(g)
    ensures b in AfterSet(g, bits).bits <==> (b in g.bits || b in bits) && !ClearedFor(g.waiting, g.bits + bits, b)
  {
    hide Matches, ToClear, ClearedFor, Remaining;
    ToClearIsAsked(g.waiting, g.bits + bits, b);
  }

  /** A wait that is met clears its mask if it asked to, and otherwise the bits
      stay; one that is not met joins the list if it blocks. */
  lemma WaitLeaves(g: Group, task: TaskId, mask: Bits, clear: bool, all: bool, block: bool)
    ensures var r := AfterWait(g, task, mask, clear, all, block);
            && (r.1 <==> Met(g.bits, mask, all))
            && (forall b :: b in r.0.bits <==> b in g.bits && !(r.1 && clear && b in mask))
            && r.0.waiting == if !r.1 && block then g.waiting + [Waiter(task, ItemValue(mask, clear, all))]
                              else g.waiting
  {
    hide Met, ItemValue, TestWaitCondition;
    TestIsMet(g.bits, mask, all);
  }

  /** The end of a wait that timed out clears its mask exactly when its condition
      has been met meanwhile and it asked to. */
  lemma TimeoutLeaves(g: Group, mask: Bits, clear: bool, all: bool)
    ensures var r := AfterTimeout(g, mask, clear, all);
            && (forall b :: b in r.bits <==> b in g.bits && !(Met(g.bits, mask, all) && clear && b in mask))
            && r.waiting == g.waiting
  {
    hide Met, TestWaitCondition;
    TestIsMet(g.bits, mask, all);
  }

  /** The call of the rendezvous that completes its mask clears it, also the bits
      that nobody who waited asked to clear. */
  lemma SyncLeaves(g: Group, task: TaskId, bits: Bits, mask: Bits, block: bool)
    requires NoneSatisfied(g)
    ensures var r, set_ := AfterSync(g, task, bits, mask, block), AfterSet(g, bits);
            && (r.1 <==> mask <= g.bits + bits)
            && (forall b :: b in r.0.bits <==>
                  && (b in g.bits || b in bits) && !ClearedFor(g.waiting, g.bits + bits, b) && !(r.1 && b in mask))
            && r.0.waiting == if !r.1 && block then set_.waiting + [Waiter(task, ItemValue(mask, true, true))]
                              else set_.waiting
  {
    hide ItemValue, AfterSet, ClearedFor;
    assert (g.bits + bits) * mask == mask <==> mask <= g.bits + bits;
    forall b ensures b in AfterSet(g, bits).bits <==>
                     (b in g.bits || b in bits) && !ClearedFor(g.waiting, g.bits + bits, b)
    {
      SetLeaves(g, bits, b);
    }
  }

  // ----- the rendezvous ------------------------------------------------------------------

  /** A group used by xEventGroupSync with one mask only; arrived are the bits
      that were set since the last completion. */
  ghost predicate Barrier(g: Group, mask: Bits, arrived: Bits) {
    && NoneSatisfied(g) && UserBits(mask)
    && g.bits * mask == arrived * mask && arrived * mask != mask
    && forall w :: w in g.waiting ==> w.value == ItemValue(mask, true, true)
  }

  lemma AllWaitAlike(ws: seq<Waiter>, mask: Bits, bits: Bits)
    requires UserBits(mask) && forall w :: w in ws ==> w.value == ItemValue(mask, true, true)
    ensures bits * mask == mask ==>
              && Remaining(ws, bits) == []
              && (ws != [] ==> ToClear(ws, bits) == mask) && (ws == [] ==> ToClear(ws, bits) == {})
              && |Released(ws, bits)| == |ws|
              && forall i :: 0 <= i < |ws| ==> Released(ws, bits)[i] == Waiter(ws[i].task, ReleaseValue(bits))
    ensures bits * mask != mask ==>
              Remaining(ws, bits) == ws && ToClear(ws, bits) == {} && Released(ws, bits) == []
  {
    hide Matches, ItemValue, ReleaseValue, UserBits, Wanted, ClearsOnExit;
    if ws != [] {
      AllWaitAlike(ws[1..], mask, bits);
      ItemValueSplits(mask, true, true, bits);
    }
  }

  lemma SameOnMask(a: Bits, b: Bits, more: Bits, mask: Bits)
    requires a * mask == b * mask
    ensures (a + more) * mask == (b + more) * mask
  {
    assert (a + more) * mask == a * mask + more * mask;
    assert (b + more) * mask == b * mask + more * mask;
  }

  /** A call completes the rendezvous exactly when every bit of the mask has
      arrived. It then releases every waiting participant in its one walk, with
      a snapshot that has the whole mask, and leaves the mask cleared; any other
      call releases nobody. */
  lemma SyncRendezvous(g: Group, mask: Bits, arrived: Bits, task: TaskId, bits: Bits, block: bool)
    requires Barrier(g, mask, arrived) && UserBits(bits)
    ensures var r := AfterSync(g, task, bits, mask, block);
            && r.1 == ((arrived + bits) * mask == mask)
            && (r.1 ==>
                  && r.0.waiting == [] && r.0.bits * mask == {}
                  && |Released(g.waiting, g.bits + bits)| == |g.waiting|
                  && (forall i :: 0 <= i < |g.waiting| ==>
                        Released(g.waiting, g.bits + bits)[i] == Waiter(g.waiting[i].task, ReleaseValue(g.bits + bits)))
                  && mask <= g.bits + bits)
            && (!r.1 ==>
                  && Released(g.waiting, g.bits + bits) == []
                  && r.0.waiting == g.waiting + if block then [Waiter(task, ItemValue(mask, true, true))] else [])
            && (mask != {} ==> Barrier(r.0, mask, if r.1 then {} else arrived + bits))
  {
    hide Matches, ItemValue, ReleaseValue, UserBits, NoneSatisfied, Remaining, ToClear, Released;
    SyncKeeps(g, task, bits, mask, block);
    AllWaitAlike(g.waiting, mask, g.bits + bits);
    SameOnMask(g.bits, arrived, bits, mask);
  }

  /** A new group is a rendezvous at which nobody has arrived. */
  lemma StartsBarrier(mask: Bits)
    requires UserBits(mask) && mask != {}
    ensures Barrier(Group({}, []), mask, {})
  {
    var none: Bits := {};
    assert none * mask == {} && UserBits(none);
  }

  datatype SyncOp = Arrive(task: TaskId, bits: Bits, block: bool) | Withdraw(task: TaskId) | EndTimedOut

  function WithoutTask(ws: seq<Waiter>, task: TaskId): (r: seq<Waiter>)
    ensures forall w :: w in r <==> w in ws && w.task != task
    ensures (forall w :: w in ws ==> w.task != task) ==> r == ws
  {
    if ws == [] then []
    else if ws[0].task == task then WithoutTask(ws[1..], task)
    else [ws[0]] + WithoutTask(ws[1..], task)
  }

  /** Which calls of a run complete the rendezvous, as the code decides. A
      waiter that times out leaves the list, and later runs the last part of
      its call. */
  ghost function Completions(g: Group, mask: Bits, ops: seq<SyncOp>): (seq<bool>, Group)
    decreases |ops|
  {
    if ops == [] then ([], g)
    else
      match ops[0]
      case Arrive(task, bits, block) =>
        var s := AfterSync(g, task, bits, mask, block);
        var r := Completions(s.0, mask, ops[1..]);
        ([s.1] + r.0, r.1)
      case Withdraw(task) =>
        var r := Completions(g.(waiting := WithoutTask(g.waiting, task)), mask, ops[1..]);
        ([false] + r.0, r.1)
      case EndTimedOut =>
        var r := Completions(AfterTimeout(g, mask, true, true), mask, ops[1..]);
        ([false] + r.0, r.1)
  }

  function Tasks(ws: seq<Waiter>): seq<TaskId> {
    if ws == [] then [] else [ws[0].task] + Tasks(ws[1..])
  }

  function WithoutOne(ts: seq<TaskId>, task: TaskId): seq<TaskId> {
    if ts == [] then []
    else if ts[0] == task then WithoutOne(ts[1..], task)
    else [ts[0]] + WithoutOne(ts[1..], task)
  }

  lemma {:induction false} TasksWithout(ws: seq<Waiter>, task: TaskId)
    ensures Tasks(WithoutTask(ws, task)) == WithoutOne(Tasks(ws), task)
  {
    if ws != [] {
      TasksWithout(ws[1..], task);
      assert Tasks(ws)[1..] == Tasks(ws[1..]);
      if ws[0].task != task {
        var rest := WithoutTask(ws[1..], task);
        assert ([ws[0]] + rest)[1..] == rest;
      }
    }
  }

  lemma {:induction false} TasksAppend(ws: seq<Waiter>, w: Waiter)
    ensures Tasks(ws + [w]) == Tasks(ws) + [w.task]
  {
    if ws == [] {
      assert ws + [w] == [w] && [w][1..] == [];
    } else {
      TasksAppend(ws[1..], w);
      assert (ws + [w])[1..] == ws[1..] + [w];
    }
  }

  /** Who should be waiting in the end: who came since the last completion,
      would block, and did not withdraw. */
  ghost function Attending(ts: seq<TaskId>, arrived: Bits, mask: Bits, ops: seq<SyncOp>): seq<TaskId>
    decreases |ops|
  {
    if ops == [] then ts
    else
      match ops[0]
      case Arrive(task, bits, block) =>
        if (arrived + bits) * mask == mask then Attending([], {}, mask, ops[1..])
        else Attending(if block then ts + [task] else ts, arrived + bits, mask, ops[1..])
      case Withdraw(task) => Attending(WithoutOne(ts, task), arrived, mask, ops[1..])
      case EndTimedOut => Attending(ts, arrived, mask, ops[1..])
  }

  /** Which calls should: those that bring the last missing bits. */
  ghost function Expected(arrived: Bits, mask: Bits, ops: seq<SyncOp>): seq<bool>
    decreases |ops|
  {
    if ops == [] then []
    else
      match ops[0]
      case Arrive(_, bits, _) =>
        var done := (arrived + bits) * mask == mask;
        [done] + Expected(if done then {} else arrived + bits, mask, ops[1..])
      case _ => [false] + Expected(arrived, mask, ops[1..])
  }

  lemma WithdrawKeeps(g: Group, mask: Bits, arrived: Bits, task: TaskId)
    requires Barrier(g, mask, arrived)
    ensures Barrier(g.(waiting := WithoutTask(g.waiting, task)), mask, arrived)
    ensures AfterTimeout(g, mask, true, true) == g
  {
    hide NoneSatisfied, UserBits, ItemValue;
    FewerKeep(g, g.(waiting := WithoutTask(g.waiting, task)), {});
    assert g.bits - {} == g.bits;
  }

  /** Over any run of calls and timeouts, exactly the calls that complete the
      mask return through the bits-set path, and exactly those who came since
      and did not withdraw wait. */
  lemma {:induction false} RendezvousIsExact(g: Group, mask: Bits, arrived: Bits, ops: seq<SyncOp>)
    requires Barrier(g, mask, arrived) && mask != {}
    requires forall op :: op in ops && op.Arrive? ==> UserBits(op.bits)
    ensures Completions(g, mask, ops).0 == Expected(arrived, mask, ops)
    ensures Tasks(Completions(g, mask, ops).1.waiting) == Attending(Tasks(g.waiting), arrived, mask, ops)
    ensures NoneSatisfied(Completions(g, mask, ops).1)
    decreases |ops|
  {
    hide Matches, ItemValue, ReleaseValue, UserBits, NoneSatisfied, AfterSync, Barrier, AfterTimeout, Tasks, WithoutOne;
    if ops == [] {
      assert NoneSatisfied(g) by { BarrierGives(g, mask, arrived); }
    } else {
      match ops[0] {
        case Arrive(task, bits, block) =>
          assert ops[0] in ops;
          SyncRendezvous(g, mask, arrived, task, bits, block);
          var s := AfterSync(g, task, bits, mask, block);
          AttendingNow(g, s.0, task, mask, block, s.1);
          RendezvousIsExact(s.0, mask, if s.1 then {} else arrived + bits, ops[1..]);
        case Withdraw(task) =>
          WithdrawKeeps(g, mask, arrived, task);
          TasksWithout(g.waiting, task);
          RendezvousIsExact(g.(waiting := WithoutTask(g.waiting, task)), mask, arrived, ops[1..]);
        case EndTimedOut =>
          WithdrawKeeps(g, mask, arrived, 0);
          RendezvousIsExact(g, mask, arrived, ops[1..]);
      }
    }
  }

  lemma AttendingNow(g: Group, r: Group, task: TaskId, mask: Bits, block: bool, done: bool)
    requires if done then r.waiting == []
             else r.waiting == g.waiting + if block then [Waiter(task, ItemValue(mask, true, true))] else []
    ensures Tasks(r.waiting) == if done then [] else if block then Tasks(g.waiting) + [task] else Tasks(g.waiting)
  {
    hide ItemValue, Tasks;
    if done {
      NoTasks();
    } else if block {
      TasksAppend(g.waiting, Waiter(task, ItemValue(mask, true, true)));
    } else {
      assert r.waiting == g.waiting;
    }
  }

  lemma NoTasks()
    ensures Tasks([]) == []
  {
  }

  lemma BarrierGives(g: Group, mask: Bits, arrived: Bits)
    requires Barrier(g, mask, arrived)
    ensures NoneSatisfied(g)
  {
  }

  // ----- the object ----------------------------------------------------------------------

  class EventGroup {
    var eventBits: Bits                  // uxEventBits
    var waiting: seq<Waiter>             // xTasksWaitingForBits

    ghost function Value(): Group
      reads this
    {
      Group(eventBits, waiting)
    }

    ghost predicate Valid()
      reads this
    {
      NoneSatisfied(Value())
    }

    /** xEventGroupCreate */
    constructor ()
      ensures Valid() && eventBits == {} && waiting == []
    {
      eventBits, waiting := {}, [];
    }

    /** xEventGroupClearBits */
    method ClearBits(bits: Bits) returns (before: Bits)
      requires Valid() && UserBits(bits)
      modifies this
      ensures Valid() && before == old(eventBits) && eventBits == before - bits && waiting == old(waiting)
    {
      ghost var g := Value();
      before := eventBits;
      eventBits := eventBits - bits;
      FewerKeep(g, Value(), bits);
    }

    /** xEventGroupSetBits: every waiter is judged against the same bits, and
        bits are cleared only after the walk. */
    method SetBits(bits: Bits) returns (after: Bits, woken: seq<Waiter>)
      requires Valid() && UserBits(bits)
      modifies this
      ensures Valid() && after == eventBits
      ensures Value() == AfterSet(old(Value()), bits)
      ensures forall b :: b in eventBits <==>
                (b in old(eventBits) || b in bits) && !ClearedFor(old(waiting), old(eventBits) + bits, b)
      ensures woken == Released(old(waiting), old(eventBits) + bits)
    {
      hide Matches, ReleaseValue, UserBits, Blocked, NoneSatisfied, ClearedFor;
      SetKeeps(Value(), bits);
      forall b ensures b in AfterSet(Value(), bits).bits <==>
                       (b in eventBits || b in bits) && !ClearedFor(waiting, eventBits + bits, b)
      {
        SetLeaves(Value(), bits, b);
      }
      ghost var ws, n := waiting, 0;
      var clear: Bits, i := {}, 0;
      woken := [];
      eventBits := eventBits + bits;
      while i < |waiting|
        invariant n <= |ws| && i <= |waiting| && eventBits == old(eventBits) + bits
        invariant woken == Released(ws[..n], eventBits) && clear == ToClear(ws[..n], eventBits)
        invariant waiting[..i] == Remaining(ws[..n], eventBits) && waiting[i..] == ws[n..]
        decreases |waiting| - i
      {
        var item := waiting[i];
        WalkStep(waiting, i, ws, n);
        var control, wanted := item.value * CONTROL, item.value - CONTROL;
        var match_ := if control * WAIT_FOR_ALL == {} then wanted * eventBits != {} else wanted * eventBits == wanted;
        MatchIs(item.value, eventBits);
        WalkAppend(ws[..n], ws[n], eventBits);
        if match_ {
          if control * CLEAR_ON_EXIT != {} {
            clear := clear + wanted;
          }
          woken := woken + [Waiter(item.task, RemoveValue(eventBits))];
          waiting := waiting[..i] + waiting[i + 1..];
        } else {
          i := i + 1;
        }
        n := n + 1;
      }
      assert ws[..n] == ws && waiting[..i] == waiting;
      eventBits := eventBits - clear;
      after := eventBits;
    }

    /** xEventGroupWaitBits up to the point where the task blocks */
    method WaitBits(task: TaskId, mask: Bits, clear: bool, all: bool, block: bool) returns (met: bool, bits: Bits)
      requires Valid() && UserBits(mask) && mask != {}
      modifies this
      ensures Valid() && (Value(), met) == AfterWait(old(Value()), task, mask, clear, all, block)
      ensures met <==> Met(old(eventBits), mask, all)
      ensures bits == if !met && block then {} else old(eventBits)
      ensures eventBits == (if met && clear then old(eventBits) - mask else old(eventBits))
    {
      hide Matches, UserBits, NoneSatisfied, ItemValue, TestWaitCondition, Met;
      ghost var g := Value();
      TestIsMet(eventBits, mask, all);
      bits := eventBits;
      met := TestWaitCondition(bits, mask, all);
      if met {
        if clear {
          eventBits := eventBits - mask;
        }
        FewerKeep(g, g.(bits := g.bits - mask), mask);
      } else if block {
        var control: Bits := {};
        if clear {
          control := control + CLEAR_ON_EXIT;
        }
        if all {
          control := control + WAIT_FOR_ALL;
        }
        ControlIs(mask, control, clear, all);
        waiting := waiting + [Waiter(task, mask + control + IN_USE)];
        bits := {};
        JoinKeeps(g, task, mask, clear, all);
      }
    }

    static lemma ControlIs(mask: Bits, control: Bits, clear: bool, all: bool)
      requires control == (if clear then CLEAR_ON_EXIT else {}) + if all then WAIT_FOR_ALL else {}
      ensures mask + control + IN_USE == ItemValue(mask, clear, all)
    {
    }

    /** The last part of xEventGroupWaitBits and of xEventGroupSync, run by a
        task that was blocked with its condition and finds value in its event
        item: a released task returns the snapshot that released it. */
    method EndWait(value: Bits, mask: Bits, clear: bool, all: bool) returns (bits: Bits)
      requires Valid()
      modifies this
      ensures Valid()
      ensures if value * DUE_TO_BIT_SET != {} then bits == Wanted(value) && Value() == old(Value())
              else bits == old(eventBits) && Value() == AfterTimeout(old(Value()), mask, clear, all)
      ensures waiting == old(waiting)
      ensures eventBits == if value * DUE_TO_BIT_SET == {} && clear && Met(old(eventBits), mask, all)
                           then old(eventBits) - mask else old(eventBits)
    {
      hide Matches, NoneSatisfied, TestWaitCondition, Met;
      ghost var g := Value();
      TestIsMet(eventBits, mask, all);
      bits := value;
      if bits * DUE_TO_BIT_SET == {} {
        bits := eventBits;
        if TestWaitCondition(bits, mask, all) {
          if clear {
            eventBits := eventBits - mask;
          }
        }
        FewerKeep(g, g.(bits := g.bits - mask), mask);
        OwnBits(g);
      }
      bits := bits - CONTROL;
    }

    static lemma OwnBits(g: Group)
      requires NoneSatisfied(g)
      ensures g.bits - CONTROL == g.bits
    {
      var bits, control := g.bits, CONTROL;
      assert bits * control == {};
      assert forall b :: b in bits ==> b !in bits * control;
    }

    /** xEventGroupSync up to the point where the task blocks */
    method Sync(task: TaskId, bits: Bits, mask: Bits, block: bool) returns (met: bool, result: Bits, woken: seq<Waiter>)
      requires Valid() && UserBits(bits) && UserBits(mask) && mask != {}
      modifies this
      ensures Valid() && (Value(), met) == AfterSync(old(Value()), task, bits, mask, block)
      ensures woken == Released(old(waiting), old(eventBits) + bits)
      ensures met <==> mask <= old(eventBits) + bits
      ensures met ==> result == old(eventBits) + bits
      ensures !met ==> result == if block then {} else eventBits
      ensures forall b :: b in eventBits <==>
                && (b in old(eventBits) || b in bits) && !ClearedFor(old(waiting), old(eventBits) + bits, b)
                && !(met && b in mask)
    {
      hide Matches, UserBits, NoneSatisfied, ItemValue, ClearedFor;
      SyncKeeps(Value(), task, bits, mask, block);
      var original := eventBits;
      result, woken := SetBits(bits);
      met := (original + bits) * mask == mask;
      if met {
        result := original + bits;
        eventBits := eventBits - mask;
      } else if block {
        ControlIs(mask, CLEAR_ON_EXIT + WAIT_FOR_ALL, true, true);
        assert mask + CLEAR_ON_EXIT + WAIT_FOR_ALL + IN_USE == mask + (CLEAR_ON_EXIT + WAIT_FOR_ALL) + IN_USE;
        waiting := waiting + [Waiter(task, mask + CLEAR_ON_EXIT + WAIT_FOR_ALL + IN_USE)];
        result := {};
      }
    }

    /** A waiter whose timeout expires, or that is suspended, leaves the list. */
    method Leave(task: TaskId)
      requires Valid()
      modifies this
      ensures Valid() && Value() == old(Value()).(waiting := WithoutTask(old(waiting), task))
      ensures eventBits == old(eventBits) && forall w :: w in waiting <==> w in old(waiting) && w.task != task
    {
      ghost var g := Value();
      waiting := WithoutTask(waiting, task);
      FewerKeep(g, Value(), {});
    }

    /** vTaskRemoveFromUnorderedEventList stores this value. */
    static function RemoveValue(bits: Bits): (v: Bits)
      ensures v == ReleaseValue(bits)
    {
      (bits + DUE_TO_BIT_SET) + IN_USE
    }

    /** Where the walk stands after an item that stays, or that leaves. */
    static lemma WalkStep(list: seq<Waiter>, i: nat, ws: seq<Waiter>, n: nat)
      requires i < |list| && n <= |ws| && list[i..] == ws[n..]
      ensures n < |ws| && list[i] == ws[n] && ws[..n] + [ws[n]] == ws[..n + 1]
      ensures list[..i + 1] == list[..i] + [list[i]] && list[i + 1..] == ws[n + 1..]
      ensures var rest := list[..i] + list[i + 1..]; rest[..i] == list[..i] && rest[i..] == ws[n + 1..]
    {
      assert list[i..][0] == ws[n..][0];
      assert list[i..][1..] == ws[n..][1..];
    }

    static lemma MatchIs(value: Bits, bits: Bits)
      ensures Matches(value, bits) ==
              if value * CONTROL * WAIT_FOR_ALL == {} then (value - CONTROL) * bits != {}
              else (value - CONTROL) * bits == value - CONTROL
    {
    }
  }
}
