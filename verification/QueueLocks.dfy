/** The lock counts of queue.c: interrupts that use a queue while a task has it
    locked must not touch its event lists, and no wake-up may be lost.

    A Gate is a queue as this protocol sees it. Beside the source's fields it
    counts the tasks that were woken and have not yet run, and what interrupts
    did since the queue was locked. */
module QueueLocks {
  import opened Lists

  type TaskId = nat

  const UNLOCKED: int := -1            // queueUNLOCKED
  const LOCKED_UNMODIFIED: int := 0    // queueLOCKED_UNMODIFIED
  const INT8_LARGEST: int := 127       // queueINT8_MAX

  datatype Gate = Gate(
    length: nat, sized: bool,          // uxLength, uxItemSize != 0
    messages: nat,                     // uxMessagesWaiting
    receivers: seq<TaskId>,            // xTasksWaitingToReceive
    senders: seq<TaskId>,              // xTasksWaitingToSend
    txLock: int, rxLock: int,          // cTxLock, cRxLock
    wokenReceivers: nat, wokenSenders: nat,
    posts: nat, takes: nat,            // by interrupts, since the queue was locked
    sawEmpty: bool, sawFull: bool)     // what the locking task found out

  function Least(a: int, b: int): int {
    if a < b then a else b
  }

  // ----- steps -------------------------------------------------------------------------

  /** xTaskRemoveFromEventList on xTasksWaitingToReceive, if there is a task */
  function WakeReceivers(g: Gate, n: nat): Gate
    requires n <= |g.receivers|
  {
    g.(receivers := g.receivers[n..], wokenReceivers := g.wokenReceivers + n)
  }

  function WakeSenders(g: Gate, n: nat): Gate
    requires n <= |g.senders|
  {
    g.(senders := g.senders[n..], wokenSenders := g.wokenSenders + n)
  }

  function WakeReceiver(g: Gate): Gate {
    WakeReceivers(g, if g.receivers == [] then 0 else 1)
  }

  function WakeSender(g: Gate): Gate {
    WakeSenders(g, if g.senders == [] then 0 else 1)
  }

  predicate CanPost(g: Gate, overwrite: bool) {
    g.messages < g.length || (overwrite && g.length == 1)
  }

  /** The count after prvCopyDataToQueue: an overwrite of a full queue keeps it,
      unless items have no size. */
  function Posted(g: Gate): Gate {
    g.(messages := if g.messages < g.length || !g.sized then g.messages + 1 else g.messages)
  }

  /** prvIncrementQueueTxLock and prvIncrementQueueRxLock */
  function Capped(lock: int, numberOfTasks: nat): int {
    if lock < numberOfTasks then lock + 1 else lock
  }

  /** xQueueGenericSendFromISR; a full queue is left alone. */
  function IsrSend(g: Gate, overwrite: bool, numberOfTasks: nat): Gate {
    if !CanPost(g, overwrite) then g
    else if g.txLock == UNLOCKED then WakeReceiver(Posted(g))
    else Posted(g).(txLock := Capped(g.txLock, numberOfTasks), posts := g.posts + 1)
  }

  /** xQueueReceiveFromISR; an empty queue is left alone. */
  function IsrReceive(g: Gate, numberOfTasks: nat): Gate {
    if g.messages == 0 then g
    else
      var r := g.(messages := g.messages - 1);
      if g.rxLock == UNLOCKED then WakeSender(r)
      else r.(rxLock := Capped(g.rxLock, numberOfTasks), takes := g.takes + 1)
  }

  /** prvLockQueue */
  function Lock(g: Gate): Gate {
    var r := if g.rxLock == UNLOCKED then g.(rxLock := LOCKED_UNMODIFIED, takes := 0) else g;
    if r.txLock == UNLOCKED then r.(txLock := LOCKED_UNMODIFIED, posts := 0) else r
  }

  /** The first critical section of prvUnlockQueue */
  function UnlockTx(g: Gate): Gate {
    var n := Least(g.txLock, |g.receivers|);
    WakeReceivers(g, if n < 0 then 0 else n).(txLock := UNLOCKED, sawEmpty := false)
  }

  /** The second critical section of prvUnlockQueue */
  function UnlockRx(g: Gate): Gate {
    var n := Least(g.rxLock, |g.senders|);
    WakeSenders(g, if n < 0 then 0 else n).(rxLock := UNLOCKED, sawFull := false)
  }

  /** xQueueGenericReset of an existing queue: all its places become free, and
      one waiting sender is woken. */
  function Reset(g: Gate): Gate {
    WakeSender(g.(messages := 0, txLock := UNLOCKED, rxLock := UNLOCKED))
  }

  // ----- runs ------------------------------------------------------------------------------

  /** Retry is a woken task that runs again: it finds an item (or room) or not.
      Abandon is a woken task that is suspended or deleted before it runs. */
  datatype Op =
    | InterruptSend(overwrite: bool)
    | InterruptReceive
    | TaskSend(overwrite: bool)
    | TaskReceive
    | TaskPeek
    | RetrySend(overwrite: bool)
    | RetryReceive
    | RetryPeek
    | LockQueue
    | CheckEmpty
    | CheckFull
    | BlockReceiver(task: TaskId, pos: nat)
    | BlockSender(task: TaskId, pos: nat)
    | UnlockReceivers
    | UnlockSenders
    | Leave(task: TaskId)
    | ResetQueue
    | AbandonReceiver
    | AbandonSender

  predicate Unlocked(g: Gate) {
    g.txLock == UNLOCKED && g.rxLock == UNLOCKED
  }

  /** While a task has the queue locked the scheduler is suspended, so only
      interrupts and that task take steps; it blocks only if it found the
      queue empty, or full, under the lock. */
  ghost predicate Enabled(g: Gate, op: Op, tasks: set<TaskId>) {
    match op
    case InterruptSend(_) => true
    case InterruptReceive => true
    case TaskSend(overwrite) => Unlocked(g) && CanPost(g, overwrite)
    case TaskReceive => Unlocked(g) && g.messages > 0
    case TaskPeek => Unlocked(g) && g.messages > 0
    case RetrySend(_) => Unlocked(g) && g.wokenSenders > 0
    case RetryReceive => Unlocked(g) && g.wokenReceivers > 0
    case RetryPeek => Unlocked(g) && g.wokenReceivers > 0
    case LockQueue => Unlocked(g)
    case CheckEmpty => g.txLock != UNLOCKED && g.rxLock != UNLOCKED
    case CheckFull => g.txLock != UNLOCKED && g.rxLock != UNLOCKED
    case BlockReceiver(t, pos) => g.sawEmpty && t in tasks && t !in g.receivers && pos <= |g.receivers|
    case BlockSender(t, pos) => g.sawFull && t in tasks && t !in g.senders && pos <= |g.senders|
    case UnlockReceivers => g.txLock != UNLOCKED && g.rxLock != UNLOCKED
    case UnlockSenders => g.txLock == UNLOCKED && g.rxLock != UNLOCKED
    case Leave(t) => Unlocked(g) && (t in g.receivers || t in g.senders)
    case ResetQueue => Unlocked(g)
    case AbandonReceiver => g.wokenReceivers > 0
    case AbandonSender => g.wokenSenders > 0
  }

  function Received(g: Gate): Gate
    requires g.messages > 0
  {
    WakeSender(g.(messages := g.messages - 1))
  }

  function Without(s: seq<TaskId>, t: TaskId): seq<TaskId> {
    if t in s then Remove(ListV(s, 0), t).items else s
  }

  ghost function Step(g: Gate, op: Op, tasks: set<TaskId>): Gate
    requires Enabled(g, op, tasks)
  {
    match op
    case InterruptSend(overwrite) => IsrSend(g, overwrite, |tasks|)
    case InterruptReceive => IsrReceive(g, |tasks|)
    case TaskSend(overwrite) => WakeReceiver(Posted(g))
    case TaskReceive => Received(g)
    case TaskPeek => WakeReceiver(g)
    case RetrySend(overwrite) =>
      var r := g.(wokenSenders := g.wokenSenders - 1);
      if CanPost(g, overwrite) then WakeReceiver(Posted(r)) else r
    case RetryReceive =>
      var r := g.(wokenReceivers := g.wokenReceivers - 1);
      if g.messages > 0 then Received(r) else r
    case RetryPeek =>
      var r := g.(wokenReceivers := g.wokenReceivers - 1);
      if g.messages > 0 then WakeReceiver(r) else r
    case LockQueue => Lock(g)
    case CheckEmpty => g.(sawEmpty := g.messages == 0)
    case CheckFull => g.(sawFull := g.messages == g.length)
    case BlockReceiver(t, pos) => g.(receivers := InsertAt(ListV(g.receivers, 0), pos, t).items, sawEmpty := false)
    case BlockSender(t, pos) => g.(senders := InsertAt(ListV(g.senders, 0), pos, t).items, sawFull := false)
    case UnlockReceivers => UnlockTx(g)
    case UnlockSenders => UnlockRx(g)
    case Leave(t) => g.(receivers := Without(g.receivers, t), senders := Without(g.senders, t))
    case ResetQueue => Reset(g)
    case AbandonReceiver => g.(wokenReceivers := g.wokenReceivers - 1)
    case AbandonSender => g.(wokenSenders := g.wokenSenders - 1)
  }

  /** The lock counts are exact up to their cap, and the waiters are tasks. */
  ghost predicate Counts(g: Gate, tasks: set<TaskId>) {
    && (g.sized ==> g.messages <= g.length)
    && NoDuplicates(g.receivers) && Elements(g.receivers) <= tasks
    && NoDuplicates(g.senders) && Elements(g.senders) <= tasks
    && (g.txLock == UNLOCKED || g.txLock == Least(g.posts, |tasks|))
    && (g.rxLock == UNLOCKED || g.rxLock == Least(g.takes, |tasks|))
    && (g.sawEmpty ==> g.txLock != UNLOCKED) && (g.sawFull ==> g.rxLock != UNLOCKED)
  }

  /** While a task waits, or is about to, for each item in the queue a task is
      on its way to fetch it: woken already, or to be woken by the unlock. And
      for each free place a sender is. */
  ghost predicate NoneLost(g: Gate) {
    ReceiversServed(g) && SendersServed(g)
  }

  ghost predicate ReceiversServed(g: Gate) {
    g.receivers != [] || g.sawEmpty ==> g.messages <= g.wokenReceivers + if g.txLock == UNLOCKED then 0 else g.posts
  }

  ghost predicate SendersServed(g: Gate) {
    g.senders != [] || g.sawFull ==>
      g.length - g.messages <= g.wokenSenders + if g.rxLock == UNLOCKED then 0 else g.takes
  }

  // ----- what a step leaves ------------------------------------------------------------------

  /** The first waiting receiver, if there is one, is on its way. */
  ghost predicate OneReceiverWoken(g: Gate, r: Gate) {
    if g.receivers == [] then r.receivers == [] && r.wokenReceivers == g.wokenReceivers
    else r.receivers == g.receivers[1..] && r.wokenReceivers == g.wokenReceivers + 1
  }

  ghost predicate OneSenderWoken(g: Gate, r: Gate) {
    if g.senders == [] then r.senders == [] && r.wokenSenders == g.wokenSenders
    else r.senders == g.senders[1..] && r.wokenSenders == g.wokenSenders + 1
  }

  /** A post that is accepted adds one item, but for the overwrite of a sized one
      in a full queue, which leaves the count. The first receiver is on its way,
      unless the queue is locked: then the post is counted. */
  ghost predicate PostedTo(g: Gate, r: Gate, numberOfTasks: nat) {
    var messages := if g.messages == g.length && g.sized then g.messages else g.messages + 1;
    if g.txLock == UNLOCKED then
      && OneReceiverWoken(g, r)
      && r == g.(messages := messages, receivers := r.receivers, wokenReceivers := r.wokenReceivers)
    else
      r == g.(messages := messages, posts := g.posts + 1,
              txLock := if g.txLock < numberOfTasks then g.txLock + 1 else g.txLock)
  }

  /** A receive takes one item off; the first sender is on its way, unless the
      queue is locked: then the receive is counted. */
  ghost predicate TakenFrom(g: Gate, r: Gate, numberOfTasks: nat) {
    && g.messages > 0
    && if g.rxLock == UNLOCKED then
         && OneSenderWoken(g, r)
         && r == g.(messages := g.messages - 1, senders := r.senders, wokenSenders := r.wokenSenders)
       else
         r == g.(messages := g.messages - 1, takes := g.takes + 1,
                 rxLock := if g.rxLock < numberOfTasks then g.rxLock + 1 else g.rxLock)
  }

  predicate Accepts(g: Gate, overwrite: bool) {
    g.messages < g.length || (overwrite && g.length == 1)
  }

  /** What is refused changes nothing. */
  lemma InterruptEffect(g: Gate, overwrite: bool, tasks: set<TaskId>)
    requires Counts(g, tasks)
    ensures var r := Step(g, InterruptSend(overwrite), tasks);
            if Accepts(g, overwrite) then PostedTo(g, r, |tasks|) else r == g
    ensures var r := Step(g, InterruptReceive, tasks); if g.messages > 0 then TakenFrom(g, r, |tasks|) else r == g
  {
    hide NoDuplicates, Elements;
  }

  /** Tasks do the same on an unlocked queue; a peek takes nothing off, and lets
      another receiver look. A woken task that finds the queue otherwise just
      is no longer on its way. */
  lemma TaskEffect(g: Gate, op: Op, tasks: set<TaskId>)
    requires Counts(g, tasks) && Enabled(g, op, tasks)
    ensures var r := Step(g, op, tasks);
            match op
            case TaskSend(_) => PostedTo(g, r, |tasks|)
            case TaskReceive => TakenFrom(g, r, |tasks|)
            case TaskPeek =>
              && OneReceiverWoken(g, r)
              && r == g.(receivers := r.receivers, wokenReceivers := r.wokenReceivers)
            case RetrySend(overwrite) =>
              var came := g.(wokenSenders := g.wokenSenders - 1);
              if Accepts(g, overwrite) then PostedTo(came, r, |tasks|) else r == came
            case RetryReceive =>
              var came := g.(wokenReceivers := g.wokenReceivers - 1);
              if g.messages > 0 then TakenFrom(came, r, |tasks|) else r == came
            case RetryPeek =>
              var came := g.(wokenReceivers := g.wokenReceivers - 1);
              if g.messages == 0 then r == came
              else
                && OneReceiverWoken(came, r)
                && r == came.(receivers := r.receivers, wokenReceivers := r.wokenReceivers)
            case _ => true
  {
    hide NoDuplicates, Elements;
  }

  /** Locking starts both counts at 0. A reset empties an unlocked queue and puts
      one sender on its way. */
  lemma LockEffect(g: Gate, op: Op, tasks: set<TaskId>)
    requires Enabled(g, op, tasks)
    ensures op.LockQueue? ==> Step(g, op, tasks) == g.(txLock := 0, rxLock := 0, posts := 0, takes := 0)
    ensures op.ResetQueue? ==>
              var r := Step(g, op, tasks);
              OneSenderWoken(g, r) && r == g.(messages := 0, senders := r.senders, wokenSenders := r.wokenSenders)
  {
    hide Without, InsertAt;
  }

  /** A task blocks only after it found the queue empty, or full, under the lock;
      it joins the waiters and none of them leaves. */
  lemma BlockEffect(g: Gate, op: Op, tasks: set<TaskId>)
    requires Enabled(g, op, tasks)
    ensures op.CheckEmpty? ==> Step(g, op, tasks) == g.(sawEmpty := g.messages == 0)
    ensures op.CheckFull? ==> Step(g, op, tasks) == g.(sawFull := g.messages == g.length)
    ensures op.BlockReceiver? ==>
              && g.sawEmpty && op.pos <= |g.receivers|
              && Step(g, op, tasks) == g.(receivers := g.receivers[..op.pos] + [op.task] + g.receivers[op.pos..],
                                          sawEmpty := false)
    ensures op.BlockSender? ==>
              && g.sawFull && op.pos <= |g.senders|
              && Step(g, op, tasks) == g.(senders := g.senders[..op.pos] + [op.task] + g.senders[op.pos..],
                                          sawFull := false)
  {
    hide Without;
  }

  /** A waiter whose timeout expires, or that is suspended, leaves its list; the
      others stay in order. A woken task that never runs is no longer on its way. */
  lemma LeaveEffect(g: Gate, op: Op, tasks: set<TaskId>)
    requires Counts(g, tasks) && Enabled(g, op, tasks)
    ensures op.Leave? ==>
              var r := Step(g, op, tasks);
              && r == g.(receivers := r.receivers, senders := r.senders)
              && LeftOut(g.receivers, r.receivers, op.task) && LeftOut(g.senders, r.senders, op.task)
    ensures op.AbandonReceiver? ==> Step(g, op, tasks) == g.(wokenReceivers := g.wokenReceivers - 1)
    ensures op.AbandonSender? ==> Step(g, op, tasks) == g.(wokenSenders := g.wokenSenders - 1)
  {
    hide InsertAt, Without, LeftOut;
    if op.Leave? {
      WithoutLeavesOut(g.receivers, op.task);
      WithoutLeavesOut(g.senders, op.task);
    }
  }

  /** r is s without t, which is in it at most once. */
  ghost predicate LeftOut(s: seq<TaskId>, r: seq<TaskId>, t: TaskId) {
    if t in s then exists i :: 0 <= i < |s| && s[i] == t && r == s[..i] + s[i + 1..] else r == s
  }

  lemma WithoutLeavesOut(s: seq<TaskId>, t: TaskId)
    ensures LeftOut(s, Without(s, t), t)
  {
    if t in s {
      assert s[IndexOf(s, t)] == t;
    }
  }

  /** Each unlock ends one of the counts with the waiters that it counted on
      their way, in order. */
  lemma UnlockEffect(g: Gate, tasks: set<TaskId>)
    requires Counts(g, tasks)
    ensures Enabled(g, UnlockReceivers, tasks) ==>
              var n := if g.posts < |g.receivers| then g.posts else |g.receivers|;
              Step(g, UnlockReceivers, tasks) ==
              g.(txLock := -1, receivers := g.receivers[n..], wokenReceivers := g.wokenReceivers + n, sawEmpty := false)
    ensures Enabled(g, UnlockSenders, tasks) ==>
              var n := if g.takes < |g.senders| then g.takes else |g.senders|;
              Step(g, UnlockSenders, tasks) ==
              g.(rxLock := -1, senders := g.senders[n..], wokenSenders := g.wokenSenders + n, sawFull := false)
  {
    hide NoDuplicates, Elements, Without, InsertAt;
    WaitersBound(g.receivers, tasks);
    WaitersBound(g.senders, tasks);
  }

  lemma WaitersBound(s: seq<TaskId>, tasks: set<TaskId>)
    requires NoDuplicates(s) && Elements(s) <= tasks
    ensures |s| <= |tasks|
  {
    CountElements(s);
    SubsetSize(Elements(s), tasks);
  }

  /** The first critical section of the unlock moves exactly min(k, waiters)
      receivers, where k interrupts posted since the lock: the cap on the
      count never costs a wake-up. */
  lemma UnlockIsExact(g: Gate, tasks: set<TaskId>)
    requires Counts(g, tasks)
    ensures g.txLock != UNLOCKED ==>
              var n := Least(g.posts, |g.receivers|);
              && UnlockTx(g).receivers == g.receivers[n..]
              && UnlockTx(g).wokenReceivers == g.wokenReceivers + n
    ensures g.rxLock != UNLOCKED ==>
              var n := Least(g.takes, |g.senders|);
              && UnlockRx(g).senders == g.senders[n..]
              && UnlockRx(g).wokenSenders == g.wokenSenders + n
  {
    WaitersBound(g.receivers, tasks);
    WaitersBound(g.senders, tasks);
  }

  /** The assertion in prvIncrementQueueTxLock and its twin never fails. */
  lemma CountsFitInt8(g: Gate, tasks: set<TaskId>)
    requires Counts(g, tasks) && |tasks| <= INT8_LARGEST
    ensures g.txLock < |tasks| ==> g.txLock != INT8_LARGEST
    ensures UNLOCKED <= g.txLock <= INT8_LARGEST && UNLOCKED <= g.rxLock <= INT8_LARGEST
  {
  }

  lemma ShorterIsFine(s: seq<TaskId>, n: nat, tasks: set<TaskId>)
    requires n <= |s| && NoDuplicates(s) && Elements(s) <= tasks
    ensures NoDuplicates(s[n..]) && Elements(s[n..]) <= tasks
  {
    assert forall t :: t in s[n..] ==> t in s;
  }

  lemma JoinIsFine(s: seq<TaskId>, pos: nat, t: TaskId, tasks: set<TaskId>)
    requires pos <= |s| && NoDuplicates(s) && Elements(s) <= tasks && t in tasks && t !in s
    ensures var r := InsertAt(ListV(s, 0), pos, t).items; NoDuplicates(r) && Elements(r) <= tasks
  {
    InsertAtMembers(ListV(s, 0), pos, t);
    forall u | u in InsertAt(ListV(s, 0), pos, t).items ensures u in tasks {
      assert u != t ==> u in Elements(s);
    }
  }

  lemma LeaveIsFine(s: seq<TaskId>, t: TaskId, tasks: set<TaskId>)
    requires NoDuplicates(s) && Elements(s) <= tasks
    ensures NoDuplicates(Without(s, t)) && Elements(Without(s, t)) <= tasks && (s == [] ==> Without(s, t) == [])
  {
    if t in s {
      RemoveMembers(ListV(s, 0), t);
      assert forall u :: u in Without(s, t) ==> u in Elements(s);
    }
  }

  lemma StepCounts(g: Gate, op: Op, tasks: set<TaskId>)
    requires Counts(g, tasks) && Enabled(g, op, tasks)
    ensures Counts(Step(g, op, tasks), tasks)
  {
    hide NoDuplicates, Elements, InsertAt, Without;
    var n, m := if g.receivers == [] then 0 else 1, if g.senders == [] then 0 else 1;
    ShorterIsFine(g.receivers, n, tasks);
    ShorterIsFine(g.senders, m, tasks);
    match op {
      case BlockReceiver(t, pos) => JoinIsFine(g.receivers, pos, t, tasks);
      case BlockSender(t, pos) => JoinIsFine(g.senders, pos, t, tasks);
      case UnlockReceivers => ShorterIsFine(g.receivers, |g.receivers| - |UnlockTx(g).receivers|, tasks);
      case UnlockSenders => ShorterIsFine(g.senders, |g.senders| - |UnlockRx(g).senders|, tasks);
      case Leave(t) => LeaveIsFine(g.receivers, t, tasks); LeaveIsFine(g.senders, t, tasks);
      case _ =>
    }
  }

  /** The three steps that can leave a waiter beside an item, or a place: a reset
      with more senders waiting than the one it wakes, and a woken task that
      never runs while the others on their way are too few. */
  ghost predicate Forgets(g: Gate, op: Op) {
    match op
    case ResetQueue => |g.senders| > 1 && g.length > g.wokenSenders + 1
    case AbandonReceiver =>
      && (g.receivers != [] || g.sawEmpty)
      && g.messages == g.wokenReceivers + if g.txLock == UNLOCKED then 0 else g.posts
    case AbandonSender =>
      && (g.senders != [] || g.sawFull)
      && g.length - g.messages == g.wokenSenders + if g.rxLock == UNLOCKED then 0 else g.takes
    case _ => false
  }

  lemma StepServesReceivers(g: Gate, op: Op, tasks: set<TaskId>)
    requires Counts(g, tasks) && NoneLost(g) && Enabled(g, op, tasks)
    ensures ReceiversServed(Step(g, op, tasks)) <==> !(op.AbandonReceiver? && Forgets(g, op))
  {
    hide NoDuplicates, Elements, InsertAt, Without, SendersServed;
    match op {
      case UnlockReceivers => UnlockIsExact(g, tasks);
      case Leave(t) => LeaveIsFine(g.receivers, t, tasks); LeaveIsFine(g.senders, t, tasks);
      case _ =>
    }
  }

  lemma StepServesSenders(g: Gate, op: Op, tasks: set<TaskId>)
    requires Counts(g, tasks) && NoneLost(g) && Enabled(g, op, tasks)
    ensures SendersServed(Step(g, op, tasks)) <==> !(!op.AbandonReceiver? && Forgets(g, op))
  {
    hide NoDuplicates, Elements, InsertAt, Without, ReceiversServed;
    match op {
      case UnlockSenders => UnlockIsExact(g, tasks);
      case Leave(t) => LeaveIsFine(g.receivers, t, tasks); LeaveIsFine(g.senders, t, tasks);
      case _ =>
    }
  }

  lemma StepLosesNone(g: Gate, op: Op, tasks: set<TaskId>)
    requires Counts(g, tasks) && NoneLost(g) && Enabled(g, op, tasks)
    ensures NoneLost(Step(g, op, tasks)) <==> !Forgets(g, op)
  {
    hide Counts, Enabled, Step, Forgets, ReceiversServed, SendersServed;
    StepServesReceivers(g, op, tasks);
    StepServesSenders(g, op, tasks);
  }

  ghost predicate IsRun(g: Gate, ops: seq<Op>, tasks: set<TaskId>)
    decreases |ops|
  {
    ops != [] ==> Enabled(g, ops[0], tasks) && IsRun(Step(g, ops[0], tasks), ops[1..], tasks)
  }

  ghost function Final(g: Gate, ops: seq<Op>, tasks: set<TaskId>): Gate
    requires IsRun(g, ops, tasks)
    decreases |ops|
  {
    if ops == [] then g else Final(Step(g, ops[0], tasks), ops[1..], tasks)
  }

  /** No waiter is forgotten at any moment of the run. */
  ghost predicate NeverLost(g: Gate, ops: seq<Op>, tasks: set<TaskId>)
    requires IsRun(g, ops, tasks)
    decreases |ops|
  {
    NoneLost(g) && (ops != [] ==> NeverLost(Step(g, ops[0], tasks), ops[1..], tasks))
  }

  ghost predicate NeverForgets(g: Gate, ops: seq<Op>, tasks: set<TaskId>)
    requires IsRun(g, ops, tasks)
    decreases |ops|
  {
    ops != [] ==> !Forgets(g, ops[0]) && NeverForgets(Step(g, ops[0], tasks), ops[1..], tasks)
  }

  /** However interrupts interleave with locking, checking, blocking and
      unlocking, no waiter is forgotten, but for the steps that Forgets names:
      if the queue is unlocked, a receiver still waits and every woken task has
      run, then the queue is empty; if a sender still waits, it is full. */
  lemma {:induction false} NoLostWakeUp(g: Gate, ops: seq<Op>, tasks: set<TaskId>)
    requires Counts(g, tasks) && NoneLost(g) && IsRun(g, ops, tasks)
    ensures NeverLost(g, ops, tasks) <==> NeverForgets(g, ops, tasks)
    ensures NeverForgets(g, ops, tasks) ==>
              var f := Final(g, ops, tasks);
              && Counts(f, tasks) && NoneLost(f)
              && (Unlocked(f) && f.receivers != [] && f.wokenReceivers == 0 ==> f.messages == 0)
              && (Unlocked(f) && f.senders != [] && f.wokenSenders == 0 ==>
                    f.messages >= f.length && (f.sized ==> f.messages == f.length))
    decreases |ops|
  {
    hide Step, Enabled, Forgets;
    if ops != [] {
      StepCounts(g, ops[0], tasks);
      StepLosesNone(g, ops[0], tasks);
      if !Forgets(g, ops[0]) {
        NoLostWakeUp(Step(g, ops[0], tasks), ops[1..], tasks);
      }
    }
  }

  /** A new queue forgets nobody. */
  lemma StartsFine(length: nat, sized: bool, tasks: set<TaskId>)
    ensures var g := Gate(length, sized, 0, [], [], UNLOCKED, UNLOCKED, 0, 0, 0, 0, false, false);
            Counts(g, tasks) && NoneLost(g)
  {
  }

  // ----- the balance of items ------------------------------------------------------------

  /** Whether the step is a post that adds an item: it is accepted, and does not
      replace a sized one. */
  ghost function Added(g: Gate, op: Op): nat {
    match op
    case InterruptSend(overwrite) => AddedBy(g, overwrite)
    case TaskSend(overwrite) => AddedBy(g, overwrite)
    case RetrySend(overwrite) => AddedBy(g, overwrite)
    case _ => 0
  }

  ghost function AddedBy(g: Gate, overwrite: bool): nat {
    if g.messages < g.length || (overwrite && g.length == 1 && !g.sized) then 1 else 0
  }

  /** Whether it is a receive that finds an item. */
  ghost function TakenOff(g: Gate, op: Op): nat {
    if (op.InterruptReceive? || op.TaskReceive? || op.RetryReceive?) && g.messages > 0 then 1 else 0
  }

  /** The items that a reset drops. */
  ghost function Dropped(g: Gate, op: Op): nat {
    if op.ResetQueue? then g.messages else 0
  }

  lemma StepBalances(g: Gate, op: Op, tasks: set<TaskId>)
    requires Counts(g, tasks) && Enabled(g, op, tasks)
    ensures Step(g, op, tasks).messages + TakenOff(g, op) + Dropped(g, op) == g.messages + Added(g, op)
  {
    hide NoDuplicates, Elements, InsertAt, Without;
  }

  ghost function AllAdded(g: Gate, ops: seq<Op>, tasks: set<TaskId>): nat
    requires IsRun(g, ops, tasks)
    decreases |ops|
  {
    if ops == [] then 0 else Added(g, ops[0]) + AllAdded(Step(g, ops[0], tasks), ops[1..], tasks)
  }

  ghost function AllTaken(g: Gate, ops: seq<Op>, tasks: set<TaskId>): nat
    requires IsRun(g, ops, tasks)
    decreases |ops|
  {
    if ops == [] then 0 else TakenOff(g, ops[0]) + AllTaken(Step(g, ops[0], tasks), ops[1..], tasks)
  }

  ghost function AllDropped(g: Gate, ops: seq<Op>, tasks: set<TaskId>): nat
    requires IsRun(g, ops, tasks)
    decreases |ops|
  {
    if ops == [] then 0 else Dropped(g, ops[0]) + AllDropped(Step(g, ops[0], tasks), ops[1..], tasks)
  }

  /** Over any run, with the queue locked or not, the items in the queue are the
      initial ones and the added ones without those received and those that a
      reset dropped. */
  lemma {:induction false} MessagesBalance(g: Gate, ops: seq<Op>, tasks: set<TaskId>)
    requires Counts(g, tasks) && IsRun(g, ops, tasks)
    ensures Final(g, ops, tasks).messages + AllTaken(g, ops, tasks) + AllDropped(g, ops, tasks)
            == g.messages + AllAdded(g, ops, tasks)
    decreases |ops|
  {
    hide Counts, Enabled, Step, Added, TakenOff, Dropped;
    if ops != [] {
      StepBalances(g, ops[0], tasks);
      StepCounts(g, ops[0], tasks);
      MessagesBalance(Step(g, ops[0], tasks), ops[1..], tasks);
    }
  }

  // ----- xQueueGenericReset --------------------------------------------------------------

  /** A reset forgets no sender exactly when at most one waits, or when enough
      were woken already to fill the queue. */
  lemma ResetForgetsSenders(g: Gate)
    requires NoneLost(g) && Unlocked(g) && !g.sawEmpty && !g.sawFull
    ensures NoneLost(Reset(g)) <==> |g.senders| <= 1 || g.length <= g.wokenSenders + 1
  {
  }

  /** Two senders wait on a full queue of two: after the reset one of them
      still waits, though the other cannot fill the queue. */
  lemma ResetExample()
    ensures var g := Gate(2, true, 2, [], [0, 1], UNLOCKED, UNLOCKED, 0, 0, 0, 0, false, false);
            NoneLost(g) && Reset(g).senders == [1] && !NoneLost(Reset(g))
  {
    var g := Gate(2, true, 2, [], [0, 1], UNLOCKED, UNLOCKED, 0, 0, 0, 0, false, false);
    assert g.senders[1..] == [1];
  }

  /** One item, one receiver woken for it, and another one waiting: if the woken
      one is suspended, the other waits beside the item. */
  lemma AbandonExample()
    ensures var g := Gate(1, true, 1, [1], [], UNLOCKED, UNLOCKED, 1, 0, 0, 0, false, false);
            && Counts(g, {0, 1}) && NoneLost(g) && Enabled(g, AbandonReceiver, {0, 1})
            && !NoneLost(Step(g, AbandonReceiver, {0, 1}))
  {
    var g := Gate(1, true, 1, [1], [], UNLOCKED, UNLOCKED, 1, 0, 0, 0, false, false);
    assert g.receivers[0] == 1;
  }

  // ----- the queue object ------------------------------------------------------------------

  class LockableQueue {
    const length: nat
    const itemSize: nat
    var messagesWaiting: nat
    var waitingToReceive: seq<TaskId>
    var waitingToSend: seq<TaskId>
    var txLock: int
    var rxLock: int
    ghost var history: Gate

    /** The fields, and from history what the fields do not record. */
    ghost function Value(): Gate
      reads this
    {
      history.(length := length, sized := itemSize != 0, messages := messagesWaiting, receivers := waitingToReceive,
               senders := waitingToSend, txLock := txLock, rxLock := rxLock)
    }

    method RemoveReceiver() returns (task: TaskId)
      requires waitingToReceive != []
      modifies `waitingToReceive, `history
      ensures task == old(waitingToReceive[0]) && Value() == WakeReceivers(old(Value()), 1)
    {
      task, waitingToReceive := waitingToReceive[0], waitingToReceive[1..];
      history := history.(wokenReceivers := history.wokenReceivers + 1);
    }

    method RemoveSender() returns (task: TaskId)
      requires waitingToSend != []
      modifies `waitingToSend, `history
      ensures task == old(waitingToSend[0]) && Value() == WakeSenders(old(Value()), 1)
    {
      task, waitingToSend := waitingToSend[0], waitingToSend[1..];
      history := history.(wokenSenders := history.wokenSenders + 1);
    }

    /** xQueueGenericSendFromISR */
    method SendFromIsr(overwrite: bool, numberOfTasks: nat) returns (sent: bool)
      requires overwrite ==> length == 1
      modifies this
      ensures Value() == IsrSend(old(Value()), overwrite, numberOfTasks)
      ensures sent <==> old(messagesWaiting) < length || overwrite
      ensures messagesWaiting == old(messagesWaiting)
                                 + if sent && (old(messagesWaiting) < length || itemSize == 0) then 1 else 0
      ensures if sent && old(txLock) == UNLOCKED && old(waitingToReceive) != [] then
                waitingToReceive == old(waitingToReceive[1..])
              else waitingToReceive == old(waitingToReceive)
      ensures txLock == old(txLock) + if sent && old(txLock) != UNLOCKED && old(txLock) < numberOfTasks then 1 else 0
      ensures waitingToSend == old(waitingToSend) && rxLock == old(rxLock)
    {
      sent := messagesWaiting < length || overwrite;
      if sent {
        if messagesWaiting < length || itemSize == 0 {
          messagesWaiting := messagesWaiting + 1;
        }
        if txLock == UNLOCKED {
          if waitingToReceive != [] {
            var _ := RemoveReceiver();
          }
        } else {
          if txLock < numberOfTasks {
            txLock := txLock + 1;
          }
          history := history.(posts := history.posts + 1);
        }
      }
    }

    /** xQueueReceiveFromISR */
    method ReceiveFromIsr(numberOfTasks: nat) returns (received: bool)
      modifies this
      ensures Value() == IsrReceive(old(Value()), numberOfTasks) && received == (old(messagesWaiting) > 0)
      ensures messagesWaiting == old(messagesWaiting) - if received then 1 else 0
      ensures if received && old(rxLock) == UNLOCKED && old(waitingToSend) != [] then
                waitingToSend == old(waitingToSend[1..])
              else waitingToSend == old(waitingToSend)
      ensures rxLock == old(rxLock)
                        + if received && old(rxLock) != UNLOCKED && old(rxLock) < numberOfTasks then 1 else 0
      ensures waitingToReceive == old(waitingToReceive) && txLock == old(txLock)
    {
      received := messagesWaiting > 0;
      if received {
        messagesWaiting := messagesWaiting - 1;
        if rxLock == UNLOCKED {
          if waitingToSend != [] {
            var _ := RemoveSender();
          }
        } else {
          if rxLock < numberOfTasks {
            rxLock := rxLock + 1;
          }
          history := history.(takes := history.takes + 1);
        }
      }
    }

    /** prvLockQueue */
    method LockQueue()
      modifies this
      ensures Value() == Lock(old(Value()))
    {
      if rxLock == UNLOCKED {
        rxLock, history := LOCKED_UNMODIFIED, history.(takes := 0);
      }
      if txLock == UNLOCKED {
        txLock, history := LOCKED_UNMODIFIED, history.(posts := 0);
      }
    }

    /** The first loop of prvUnlockQueue; woken are the tasks it moved to the
        pending-ready list, in order. */
    method UnlockForReceivers() returns (woken: seq<TaskId>)
      modifies this
      ensures Value() == UnlockTx(old(Value()))
      ensures woken + waitingToReceive == old(waitingToReceive)
    {
      var lock, n := txLock, 0;
      woken := [];
      while lock > LOCKED_UNMODIFIED
        invariant 0 <= n <= |old(waitingToReceive)|
        invariant (n == 0 || n + lock == txLock) && (n == 0 ==> lock == txLock)
        invariant lock >= 0 || n == 0
        invariant Value() == WakeReceivers(old(Value()), n)
        invariant woken == old(waitingToReceive[..n])
        decreases lock
      {
        if waitingToReceive == [] {
          break;
        }
        var task := RemoveReceiver();
        woken, lock, n := woken + [task], lock - 1, n + 1;
      }
      txLock, history := UNLOCKED, history.(sawEmpty := false);
    }

    /** The second loop of prvUnlockQueue */
    method UnlockForSenders() returns (woken: seq<TaskId>)
      modifies this
      ensures Value() == UnlockRx(old(Value()))
      ensures woken + waitingToSend == old(waitingToSend)
    {
      var lock, n := rxLock, 0;
      woken := [];
      while lock > LOCKED_UNMODIFIED
        invariant 0 <= n <= |old(waitingToSend)|
        invariant (n == 0 || n + lock == rxLock) && (n == 0 ==> lock == rxLock)
        invariant lock >= 0 || n == 0
        invariant Value() == WakeSenders(old(Value()), n)
        invariant woken == old(waitingToSend[..n])
        decreases lock
      {
        if waitingToSend == [] {
          break;
        }
        var task := RemoveSender();
        woken, lock, n := woken + [task], lock - 1, n + 1;
      }
      rxLock, history := UNLOCKED, history.(sawFull := false);
    }
  }
}
