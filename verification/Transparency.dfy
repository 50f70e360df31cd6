/** Suspending the scheduler is transparent to time. */
module Transparency {
  import opened Lists
  import opened Kernel
  import opened Ticks
  import opened Suspension

  /** Ticks neither read nor write xYieldPendings (but for passing it on) nor
      xPendedTicks; Relabel changes just these. */
  function Relabel(k: State, y: bool, n: nat): (r: State)
    ensures (Placed(k) ==> Placed(r)) && r.tcbs == k.tcbs && r.current == k.current
    ensures r.lists == k.lists && CurrentDelayed(r) == CurrentDelayed(k) && r.tick == k.tick
  {
    k.(yieldPending := y, pendedTicks := n)
  }

  lemma AwakenIgnoresLabels(k: State, t: TaskId, y: bool, n: nat)
    requires Placed(k) && FineTcbs(k.tcbs) && t in k.tcbs
    ensures Awaken(Relabel(k, y, n), t) == Relabel(Awaken(k, t), y, n)
  {
    hide Placed, FineTcbs;
  }

  lemma ResetIgnoresLabels(k: State, y: bool, n: nat)
    requires Placed(k)
    ensures ResetNextUnblock(Relabel(k, y, n)) == Relabel(ResetNextUnblock(k), y, n)
    ensures ResetNextUnblock(k).yieldPending == k.yieldPending
  {
    hide Placed;
  }

  lemma HeadExpiredIgnoresLabels(k: State, y: bool, n: nat)
    requires Placed(k)
    ensures HeadExpired(Relabel(k, y, n)) == HeadExpired(k)
  {
  }

  lemma {:induction false} DrainIgnoresLabels(k: State, y: bool, n: nat)
    requires Placed(k) && FineTcbs(k.tcbs) && k.current in k.tcbs
    ensures Drain(Relabel(k, y, n)) == (Relabel(Drain(k).0, y, n), Drain(k).1)
    ensures Drain(k).0.yieldPending == k.yieldPending
    decreases |k.lists[CurrentDelayed(k)].items|
  {
    hide Placed, FineTcbs, Awaken, ResetNextUnblock, Drain, HeadExpired;
    HeadExpiredIgnoresLabels(k, y, n);
    DrainUnfolds(k);
    DrainUnfolds(Relabel(k, y, n));
    if HeadExpired(k) {
      var t := k.lists[CurrentDelayed(k)].items[0];
      AwakenIgnoresLabels(k, t, y, n);
      DrainIgnoresLabels(Awaken(k, t), y, n);
    } else {
      ResetIgnoresLabels(k, y, n);
    }
  }

  lemma AdvanceIgnoresLabels(k: State, y: bool, n: nat)
    requires Placed(k)
    ensures AdvanceTick(Relabel(k, y, n)) == Relabel(AdvanceTick(k), y, n)
    ensures AdvanceTick(k).yieldPending == k.yieldPending
  {
    hide Placed;
  }

  lemma DrainIfDueIgnoresLabels(k: State, y: bool, n: nat)
    requires Placed(k) && FineTcbs(k.tcbs) && k.current in k.tcbs
    ensures DrainIfDue(Relabel(k, y, n)) == (Relabel(DrainIfDue(k).0, y, n), DrainIfDue(k).1)
    ensures DrainIfDue(k).0.yieldPending == k.yieldPending
  {
    hide Placed, FineTcbs, Drain;
    DrainIgnoresLabels(k, y, n);
  }

  lemma TickIgnoresLabels(k: State, y: bool, n: nat)
    requires Placed(k) && FineTcbs(k.tcbs) && k.current in k.tcbs
    ensures TickNow(Relabel(k, y, n)).0 == Relabel(TickNow(k).0, y, n)
    ensures TickNow(k).0.yieldPending == k.yieldPending
    ensures y == k.yieldPending ==> TickNow(Relabel(k, y, n)).1 == TickNow(k).1
  {
    hide Placed, FineTcbs, DrainIfDue, AdvanceTick;
    AdvanceIgnoresLabels(k, y, n);
    DrainIfDueIgnoresLabels(AdvanceTick(k), y, n);
  }

  /** n direct ticks; the flag tells whether any of them asked for a switch. */
  function Direct(k: State, n: nat): (r: (State, bool))
    requires Placed(k) && FineTcbs(k.tcbs) && k.current in k.tcbs
    ensures Placed(r.0) && FineTcbs(r.0.tcbs) && SameControl(k, r.0)
    decreases n
  {
    hide Placed, FineTcbs, TickNow;
    if n == 0 then (k, false)
    else
      var t := TickNow(k);
      var r := Direct(t.0, n - 1);
      (r.0, t.1 || r.1)
  }

  lemma {:induction false} DirectIgnoresLabels(k: State, n: nat, y: bool, m: nat)
    requires Placed(k) && FineTcbs(k.tcbs) && k.current in k.tcbs
    ensures Direct(Relabel(k, y, m), n).0 == Relabel(Direct(k, n).0, y, m)
    ensures y == k.yieldPending ==> Direct(Relabel(k, y, m), n).1 == Direct(k, n).1
    decreases n
  {
    hide Placed, FineTcbs, TickNow;
    if n > 0 {
      TickIgnoresLabels(k, y, m);
      DirectIgnoresLabels(TickNow(k).0, n - 1, y, m);
    }
  }

  /** The replay is the direct ticks, and pends a yield exactly when one was
      pending or some direct tick asked for one. */
  lemma {:induction false} ReplayIsDirect(k: State, n: nat)
    requires Placed(k) && FineTcbs(k.tcbs) && k.current in k.tcbs
    ensures Replay(k, n) == Relabel(Direct(k, n).0, k.yieldPending || Direct(k, n).1, k.pendedTicks)
    decreases n
  {
    hide Placed, FineTcbs, TickNow;
    if n > 0 {
      var t := TickNow(k);
      var m := PendYield(t.0, t.1);
      TickIgnoresLabels(k, false, 0);
      ReplayIsDirect(m, n - 1);
      assert m == Relabel(t.0, t.0.yieldPending || t.1, k.pendedTicks);
      DirectIgnoresLabels(t.0, n - 1, t.0.yieldPending || t.1, k.pendedTicks);
    }
  }

  lemma QuietMoves(k: State)
    requires Placed(k) && FineTcbs(k.tcbs) && k.current in k.tcbs && k.pending == []
    ensures PendingKnown(k) && MovePending(k) == k
  {
    hide Placed, FineTcbs;
  }

  lemma ResumeUnfolds(s: State)
    requires Placed(s) && FineTcbs(s.tcbs) && s.current in s.tcbs && s.suspendCount == 1
    requires s.pending == [] && s.taskCount > 0
    ensures PendingKnown(s) && ResumeAll(s) == ClearPended(Replay(Unsuspend(s), s.pendedTicks))
  {
    hide Placed, FineTcbs, Replay, MovePending;
    QuietMoves(Unsuspend(s));
  }

  /** With no event wake-up in between, n ticks that arrive while the scheduler
      is suspended leave exactly the state of n direct ticks: tick count,
      overflow count, unblock time, every list and every task. A yield is
      pending iff one was or some direct tick asked for one. */
  lemma SuspensionIsTransparent(k: State, n: nat)
    requires Placed(k) && FineTcbs(k.tcbs) && k.current in k.tcbs && k.taskCount > 0
    requires k.suspendCount == 0 && k.pending == [] && k.pendedTicks == 0 && n < TICK_MODULUS
    ensures var s := PendTicks(SuspendAll(k), n);
            && Placed(s) && PendingKnown(s) && FineTcbs(s.tcbs) && s.current in s.tcbs && s.suspendCount > 0
            && ResumeAll(s) == Relabel(Direct(k, n).0, k.yieldPending || Direct(k, n).1, 0)
  {
    hide Placed, FineTcbs, Replay, Direct, PendTicks, ResumeAll;
    var s := PendTicks(SuspendAll(k), n);
    PendTicksCounts(SuspendAll(k), n);
    ResumeUnfolds(s);
    assert Unsuspend(s) == Relabel(k, k.yieldPending, n);
    ReplayIsDirect(Unsuspend(s), n);
    DirectIgnoresLabels(k, n, k.yieldPending, n);
  }
}
