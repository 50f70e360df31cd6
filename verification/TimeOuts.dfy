/** xTaskCheckForTimeOut (tasks.c): block times measured across wraps. */
module TimeOuts {
  import opened Clock
  import opened Lists

  datatype Entry = Entry(overflowCount: Tick, timeOnEntering: Tick)

  /** What vTaskSetTimeOutState records at time t; xNumOfOverflows is a 32-bit
      count as well. */
  function Recorded(t: nat): Entry {
    Entry(Wrap(Epoch(t)), Wrap(t))
  }

  /** xTaskCheckForTimeOut: whether the wait has timed out, the ticks still to
      wait, and the entry that it leaves. */
  function Check(e: Entry, wait: Tick, overflows: Tick, tick: Tick): (bool, Tick, Entry) {
    var elapsed := Minus(tick, e.timeOnEntering);
    if wait == MAX_DELAY then (false, wait, e)
    else if overflows != e.overflowCount && tick >= e.timeOnEntering then (true, 0, e)
    else if elapsed < wait then (false, wait - elapsed, Entry(overflows, tick))
    else (true, 0, e)
  }

  /** Up to one wrap after the entry the report is exact; and so it is up to
      2^32 wraps, except when the count has wrapped more than once, is behind
      the entry's again, and has not gained the block time on it. */
  lemma ReportIsExactWhen(entry: nat, now: nat, wait: Tick)
    requires entry <= now && wait != MAX_DELAY && Epoch(now) < Epoch(entry) + TICK_MODULUS
    ensures var timedOut := Check(Recorded(entry), wait, Recorded(now).overflowCount, Wrap(now)).0;
            (timedOut <==> now - entry >= wait) <==>
            !(Epoch(now) > Epoch(entry) + 1 && Wrap(now) < Wrap(entry) && Minus(Wrap(now), Wrap(entry)) < wait)
    ensures var r := Check(Recorded(entry), wait, Recorded(now).overflowCount, Wrap(now));
            if r.0 then r.1 == 0 && r.2 == Recorded(entry)
            else r.1 + Minus(Wrap(now), Wrap(entry)) == wait && r.2 == Recorded(now)
  {
    CountsDiffer(Epoch(entry), Epoch(now));
    if Epoch(now) <= Epoch(entry) + 1 && (Epoch(now) == Epoch(entry) || Wrap(now) < Wrap(entry)) {
      Differences(entry, now);
    }
  }

  lemma CountsDiffer(a: nat, b: nat)
    requires a <= b < a + TICK_MODULUS
    ensures Wrap(a) == Wrap(b) <==> a == b
  {
  }

  /** With at most one wrap since the entry, a check reports a timeout iff the
      true elapsed time reaches the wait, and otherwise leaves the deadline
      where it was. */
  lemma CheckKeepsDeadline(entry: nat, now: nat, wait: Tick)
    requires entry <= now && wait != MAX_DELAY && Epoch(now) <= Epoch(entry) + 1
    ensures var r := Check(Recorded(entry), wait, Recorded(now).overflowCount, Wrap(now));
            && (r.0 <==> now >= entry + wait)
            && (!r.0 ==> r.2 == Recorded(now) && now + r.1 == entry + wait && r.1 != MAX_DELAY)
            && (r.0 ==> r.1 == 0)
  {
    ReportIsExactWhen(entry, now, wait);
    CountsDiffer(Epoch(entry), Epoch(now));
    if Epoch(now) == Epoch(entry) || Wrap(now) < Wrap(entry) {
      Differences(entry, now);
    }
  }

  /** 2^32 + 1 ticks after an entry at the last tick of an epoch, the count has
      wrapped twice: a wait of 2 ticks is long over, yet the check says it is
      not. */
  lemma TwoWrapsFoolTheCheck()
    ensures var entry, now, wait: Tick := MAX_DELAY, 2 * TICK_MODULUS, 2;
            && now - entry >= wait
            && !Check(Recorded(entry), wait, Recorded(now).overflowCount, Wrap(now)).0
  {
  }

  // ----- retry loops ------------------------------------------------------------------------

  /** The times of successive checks, never more than one wrap apart. */
  ghost predicate Spaced(entry: nat, times: seq<nat>)
    decreases |times|
  {
    times != [] ==> entry <= times[0] && Epoch(times[0]) <= Epoch(entry) + 1 && Spaced(times[0], times[1..])
  }

  /** How many checks of a retry loop pass before one reports a timeout. */
  ghost function ChecksPassed(e: Entry, wait: Tick, times: seq<nat>): nat
    decreases |times|
  {
    if times == [] then 0
    else
      var r := Check(e, wait, Recorded(times[0]).overflowCount, Wrap(times[0]));
      if r.0 then 0 else 1 + ChecksPassed(r.2, r.1, times[1..])
  }

  /** The first check that reports a timeout is the first at or after entry
      time + wait, however many checks went before: retries neither stretch
      nor shrink the block time. */
  lemma {:induction false} RetriesKeepDeadline(entry: nat, wait: Tick, times: seq<nat>)
    requires wait != MAX_DELAY && Spaced(entry, times)
    ensures var n := ChecksPassed(Recorded(entry), wait, times);
            && n <= |times|
            && (forall i :: 0 <= i < n ==> times[i] < entry + wait)
            && (n < |times| ==> times[n] >= entry + wait)
    decreases |times|
  {
    hide Check, Recorded;
    if times != [] {
      var now := times[0];
      CheckKeepsDeadline(entry, now, wait);
      var r := Check(Recorded(entry), wait, Recorded(now).overflowCount, Wrap(now));
      if !r.0 {
        RetriesKeepDeadline(now, r.1, times[1..]);
        assert forall i :: 0 < i < |times| ==> times[i] == times[1..][i - 1];
      }
    }
  }

  /** A wait of portMAX_DELAY never times out, and no check changes anything. */
  lemma {:induction false} ForeverNeverTimesOut(e: Entry, times: seq<nat>)
    ensures ChecksPassed(e, MAX_DELAY, times) == |times|
    ensures forall t: nat :: Check(e, MAX_DELAY, Recorded(t).overflowCount, Wrap(t)) == (false, MAX_DELAY, e)
    decreases |times|
  {
    if times != [] {
      ForeverNeverTimesOut(e, times[1..]);
    }
  }

  // ----- the object ---------------------------------------------------------------------------

  class TimeOut {
    var overflowCount: Tick      // xOverflowCount
    var timeOnEntering: Tick     // xTimeOnEntering

    function Value(): Entry
      reads this
    {
      Entry(overflowCount, timeOnEntering)
    }

    /** vTaskSetTimeOutState */
    method SetState(overflows: Tick, tick: Tick)
      modifies this
      ensures Value() == Entry(overflows, tick)
    {
      overflowCount, timeOnEntering := overflows, tick;
    }

    /** xTaskCheckForTimeOut, with the wait as a value passed in and out */
    method CheckForTimeOut(ticksToWait: Tick, overflows: Tick, tick: Tick) returns (timedOut: bool, left: Tick)
      modifies this
      ensures (timedOut, left, Value()) == Check(old(Value()), ticksToWait, overflows, tick)
    {
      left := ticksToWait;
      var elapsed := Minus(tick, timeOnEntering);
      if left == MAX_DELAY {
        timedOut := false;
      } else if overflows != overflowCount && tick >= timeOnEntering {
        timedOut, left := true, 0;
      } else if elapsed < left {
        left := left - elapsed;
        SetState(overflows, tick);
        timedOut := false;
      } else {
        timedOut, left := true, 0;
      }
    }
  }
}
