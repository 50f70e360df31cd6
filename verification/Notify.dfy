/** Task notifications (tasks.c). */
module Notify {
  import opened Lists
  import opened Words
  import opened Kernel
  import opened Suspension
  import opened Tasks
  import opened Lifecycle

  datatype Action = SetBits(bits: Word) | Increment | Overwrite(value: Word) | NoOverwrite(value: Word) | NoAction

  function Notified(c: Tcb, a: Action): Word {
    match a
    case SetBits(bits) => Join(c.notified, bits)
    case Increment => (c.notified + 1) % TICK_MODULUS
    case Overwrite(value) => value
    case NoOverwrite(value) => if c.notify != Received then value else c.notified
    case NoAction => c.notified
  }

  /** What xTaskGenericNotify and its FromISR form return. */
  function Accepted(c: Tcb, a: Action): bool {
    !(a.NoOverwrite? && c.notify == Received)
  }

  function Record(k: State, t: TaskId, a: Action): (r: State)
    requires t in k.tcbs
    ensures Placed(k) ==> Placed(r)
  {
    WithTcb(k, t, k.tcbs[t].(notify := Received, notified := Notified(k.tcbs[t], a)))
  }

  /** xTaskGenericNotify; it does not pend a yield but yields in place. */
  function NotifyFromTask(k: State, t: TaskId, a: Action): (r: State)
    requires Placed(k) && FineTcbs(k.tcbs) && t in k.tcbs
    ensures Placed(r)
  {
    hide Placed, MakeReady;
    if k.tcbs[t].notify == Waiting then MakeReady(Record(k, t, a), t) else Record(k, t, a)
  }

  /** xTaskGenericNotifyFromISR, and vTaskGenericNotifyGiveFromISR with Increment */
  function NotifyFromIsr(k: State, t: TaskId, a: Action): (r: State)
    requires Placed(k) && FineTcbs(k.tcbs) && t in k.tcbs && k.current in k.tcbs
    ensures Placed(r)
  {
    hide Placed, MakeReady, HoldPending;
    var n := Record(k, t, a);
    if k.tcbs[t].notify != Waiting then n
    else PendYield(if k.suspendCount == 0 then MakeReady(n, t) else HoldPending(n, t), Outranks(k, t))
  }

  lemma RecordKeeps(k: State, t: TaskId, a: Action, now: nat, due: map<TaskId, nat>, low: nat)
    requires Sound(k, now, due, low) && t in k.tcbs
    ensures Sound(Record(k, t, a), now, due, low)
  {
    hide Sound, WithTcb;
    TcbGives(k, t, now, due, low);
    var c := k.tcbs[t].(notify := Received, notified := Notified(k.tcbs[t], a));
    WithTcbKeeps(k, t, c, now, due, low);
  }

  lemma NotifyFromTaskKeeps(k: State, t: TaskId, a: Action, now: nat, due: map<TaskId, nat>, low: nat)
    requires Sound(k, now, due, low) && t in k.tcbs && k.tcbs[t].list != Termination
    ensures Placed(k) && FineTcbs(k.tcbs) && Sound(NotifyFromTask(k, t, a), now, due, low)
  {
    hide Clocked, Fine, Placed, Evented, FineTcbs, MakeReady;
    SoundGives(k, now, due, low);
    TcbGives(k, t, now, due, low);
    RecordKeeps(k, t, a, now, due, low);
    if k.tcbs[t].notify == Waiting {
      MakeReadyKeeps(Record(k, t, a), t, now, due, low);
    }
  }

  lemma NotifyFromIsrKeeps(k: State, t: TaskId, a: Action, now: nat, due: map<TaskId, nat>, low: nat)
    requires Sound(k, now, due, low) && t in k.tcbs && k.tcbs[t].list != Termination
    ensures Placed(k) && FineTcbs(k.tcbs) && k.current in k.tcbs && Sound(NotifyFromIsr(k, t, a), now, due, low)
  {
    hide Clocked, Fine, Placed, Evented, FineTcbs, MakeReady, HoldPending, PendYield;
    SoundGives(k, now, due, low);
    TcbGives(k, t, now, due, low);
    var n := Record(k, t, a);
    RecordKeeps(k, t, a, now, due, low);
    SoundGives(n, now, due, low);
    if k.tcbs[t].notify == Waiting {
      if k.suspendCount == 0 {
        MakeReadyKeeps(n, t, now, due, low);
        PendYieldKeeps(MakeReady(n, t), Outranks(k, t), now, due, low);
      } else {
        HoldPendingKeeps(n, t, now, due, low);
        PendYieldKeeps(HoldPending(n, t), Outranks(k, t), now, due, low);
      }
    }
  }

  // ----- the waiting side ----------------------------------------------------------

  /** The task is marked as waiting, with the value it is left. */
  function MarkWaiting(k: State, value: Word): (r: State)
    requires Placed(k) && k.current in k.tcbs
    ensures Placed(r)
  {
    var c := k.tcbs[k.current];
    WithTcb(k, k.current, c.(notify := Waiting, notified := value))
  }

  /** The critical section of ulTaskGenericNotifyTake that decides to wait. */
  function StartTake(k: State): (r: State)
    requires Placed(k) && k.current in k.tcbs
    ensures Placed(r)
  {
    hide Placed;
    if k.tcbs[k.current].notified == 0 then MarkWaiting(k, 0) else k
  }

  /** The one of xTaskGenericNotifyWait, which clears bits on entry. */
  function StartWait(k: State, clearOnEntry: Word): (r: State)
    requires Placed(k) && k.current in k.tcbs
    ensures Placed(r)
  {
    hide Placed;
    var c := k.tcbs[k.current];
    if c.notify != Received then MarkWaiting(k, Clear(c.notified, clearOnEntry)) else k
  }

  /** The final critical section of ulTaskGenericNotifyTake. */
  function FinishTake(k: State, clearCount: bool): (r: (State, Word))
    requires Placed(k) && k.current in k.tcbs
    ensures Placed(r.0)
  {
    var c := k.tcbs[k.current];
    var left := if c.notified == 0 || clearCount then 0 else c.notified - 1;
    (WithTcb(k, k.current, c.(notified := left, notify := NotWaiting)), c.notified)
  }

  /** The final critical section of xTaskGenericNotifyWait. */
  function FinishWait(k: State, clearOnExit: Word): (r: (State, bool))
    requires Placed(k) && k.current in k.tcbs
    ensures Placed(r.0)
  {
    var c := k.tcbs[k.current];
    var got := c.notify == Received;
    (WithTcb(k, k.current, c.(notified := if got then Clear(c.notified, clearOnExit) else c.notified,
                              notify := NotWaiting)), got)
  }

  lemma MarkWaitingKeeps(k: State, value: Word, now: nat, due: map<TaskId, nat>, low: nat)
    requires Sound(k, now, due, low) && k.current in k.tcbs && k.tcbs[k.current].event == Nowhere
    ensures Placed(k) && Sound(MarkWaiting(k, value), now, due, low)
  {
    hide Sound, WithTcb, Placed;
    SoundGives(k, now, due, low);
    TcbGives(k, k.current, now, due, low);
    var c := k.tcbs[k.current];
    WithTcbKeeps(k, k.current, c.(notify := Waiting, notified := value), now, due, low);
  }

  lemma StartKeeps(k: State, bits: Word, now: nat, due: map<TaskId, nat>, low: nat)
    requires Sound(k, now, due, low) && k.current in k.tcbs && k.tcbs[k.current].event == Nowhere
    ensures Placed(k) && Sound(StartTake(k), now, due, low) && Sound(StartWait(k, bits), now, due, low)
  {
    hide Sound, MarkWaiting, Placed, Clear;
    SoundGives(k, now, due, low);
    MarkWaitingKeeps(k, 0, now, due, low);
    MarkWaitingKeeps(k, Clear(k.tcbs[k.current].notified, bits), now, due, low);
  }

  lemma FinishKeeps(k: State, clearCount: bool, clearOnExit: Word, now: nat, due: map<TaskId, nat>, low: nat)
    requires Sound(k, now, due, low) && k.current in k.tcbs
    ensures Placed(k) && Sound(FinishTake(k, clearCount).0, now, due, low)
    ensures Sound(FinishWait(k, clearOnExit).0, now, due, low)
  {
    hide Sound, Placed;
    SoundGives(k, now, due, low);
    TcbGives(k, k.current, now, due, low);
    WithTcbKeeps(k, k.current, FinishTake(k, clearCount).0.tcbs[k.current], now, due, low);
    WithTcbKeeps(k, k.current, FinishWait(k, clearOnExit).0.tcbs[k.current], now, due, low);
  }

  // ----- clearing ------------------------------------------------------------------

  /** xTaskGenericNotifyStateClear */
  function ClearState(k: State, t: TaskId): (r: State)
    requires t in k.tcbs
    ensures Placed(k) ==> Placed(r)
  {
    var c := k.tcbs[t];
    WithTcb(k, t, c.(notify := if c.notify == Received then NotWaiting else c.notify))
  }

  /** ulTaskGenericNotifyValueClear */
  function ClearValue(k: State, t: TaskId, bits: Word): (r: State)
    requires t in k.tcbs
    ensures Placed(k) ==> Placed(r)
  {
    WithTcb(k, t, k.tcbs[t].(notified := Clear(k.tcbs[t].notified, bits)))
  }

  lemma ClearKeeps(k: State, t: TaskId, bits: Word, now: nat, due: map<TaskId, nat>, low: nat)
    requires Sound(k, now, due, low) && t in k.tcbs
    ensures Sound(ClearState(k, t), now, due, low) && Sound(ClearValue(k, t, bits), now, due, low)
  {
    hide Sound, Placed, Clear;
    TcbGives(k, t, now, due, low);
    WithTcbKeeps(k, t, ClearState(k, t).tcbs[t], now, due, low);
    WithTcbKeeps(k, t, ClearValue(k, t, bits).tcbs[t], now, due, low);
  }
}
