/** The timer daemon (timers.c) against a clock that never wraps. */
module Timers {
  import opened Clock
  import opened Division
  import opened Lists

  type TimerId = nat

  const LAST_TICK: nat := MAX_DELAY    // tmrMAX_TIME_BEFORE_OVERFLOW

  datatype Timer = Timer(
    period: nat,               // xTimerPeriodInTicks
    active: bool,              // tmrSTATUS_IS_ACTIVE
    autoReload: bool,          // tmrSTATUS_IS_AUTORELOAD
    value: nat)                // item value of xTimerListItem

  // ----- the expiry test ------------------------------------------------------------------

  /** When prvInsertTimerInActiveList finds that the timer has expired already. */
  function HasExpired(next: Tick, now: Tick, command: Tick, period: nat): bool {
    if next <= now then Minus(now, command) >= period
    else now < command && next >= command
  }

  /** Under wrap-around the test is exact, and a timer that has not expired goes
      to the list of its expiry's own epoch. */
  lemma ExpiryIsExact(command: nat, now: nat, period: nat)
    requires command <= now < command + TICK_MODULUS && 0 < period < TICK_MODULUS
    ensures var next := Wrap(command + period);
            && (HasExpired(next, Wrap(now), Wrap(command), period) <==> command + period <= now)
            && (command + period > now ==>
                  Epoch(command + period) == Epoch(now) + if next <= Wrap(now) then 1 else 0)
  {
    Differences(command, now);
    var m := command + period;
    assert Epoch(m) == Epoch(command) || Epoch(m) == Epoch(command) + 1;
    assert Epoch(now) == Epoch(command) || Epoch(now) == Epoch(command) + 1;
  }

  /** One switch at most is made for two samples, and it matches the epochs that
      passed exactly when less than 2^32 ticks did. Sampling once in every
      epoch is not enough. */
  lemma SwitchesMatchEpochs(a: nat, b: nat)
    requires a <= b
    ensures Epoch(b) == Epoch(a) + (if Wrap(b) < Wrap(a) then 1 else 0) <==> b < a + TICK_MODULUS
    ensures Wrap(b) < Wrap(a) ==> Epoch(b) > Epoch(a)
    ensures Epoch(b) <= Epoch(a) + 1 ==> ((Wrap(b) < Wrap(a) <==> Epoch(b) != Epoch(a)) <==> b < a + TICK_MODULUS)
  {
  }

  /** Samples at the last ticks of two epochs in a row: no switch is made. */
  lemma SampleMissesEpoch()
    ensures var a, b := TICK_MODULUS - 1, 2 * TICK_MODULUS - 1;
            Epoch(b) == Epoch(a) + 1 && Wrap(b) == Wrap(a)
  {
  }

  // ----- backlog -----------------------------------------------------------------------------

  /** How many further expiries of a timer that expired at expired lie at or
      before now. */
  ghost function Missed(expired: nat, period: nat, now: nat): nat
    requires period > 0
    decreases now - expired
  {
    if expired + period > now then 0 else 1 + Missed(expired + period, period, now)
  }

  ghost function NextExpiry(expired: nat, period: nat, now: nat): nat
    requires period > 0
    decreases now - expired
  {
    if expired + period > now then expired + period else NextExpiry(expired + period, period, now)
  }

  lemma MissedUnfolds(expired: nat, period: nat, now: nat)
    requires period > 0
    ensures Missed(expired, period, now) ==
            if expired + period > now then 0 else 1 + Missed(expired + period, period, now)
    ensures NextExpiry(expired, period, now) ==
            if expired + period > now then expired + period else NextExpiry(expired + period, period, now)
  {
  }

  /** The backlog is floor((now - expired) / period), and the next expiry keeps
      the phase and lies in (now, now + period]. */
  lemma {:induction false} BacklogIs(expired: nat, period: nat, now: nat)
    requires period > 0 && expired <= now
    ensures var k := Missed(expired, period, now);
            && k == (now - expired) / period
            && NextExpiry(expired, period, now) == expired + (k + 1) * period
            && now < NextExpiry(expired, period, now) <= now + period
    decreases now - expired
  {
    if expired + period > now {
      QuotientIs(now - expired, period, 0);
    } else {
      BacklogIs(expired + period, period, now);
      var k := Missed(expired + period, period, now);
      assert (k + 2) * period == (k + 1) * period + period;
      QuotientIs(now - expired, period, k + 1);
    }
  }

  ghost function Repeat(t: TimerId, n: nat): (r: seq<TimerId>)
    ensures |r| == n && forall i :: 0 <= i < n ==> r[i] == t
  {
    if n == 0 then [] else [t] + Repeat(t, n - 1)
  }

  // ----- the active lists ----------------------------------------------------------------------

  function Values(timers: map<TimerId, Timer>, list: seq<TimerId>): (r: seq<nat>)
    requires forall t :: t in list ==> t in timers
    ensures |r| == |list| && forall i :: 0 <= i < |list| ==> r[i] == timers[list[i]].value
  {
    seq(|list|, i requires 0 <= i < |list| => assert list[i] in list; timers[list[i]].value)
  }

  /** The list is sorted and holds timers whose true expiry lies in the epoch. */
  ghost predicate Listed(timers: map<TimerId, Timer>, list: seq<TimerId>, due: map<TimerId, nat>, epoch: nat) {
    && NoDuplicates(list)
    && (forall t :: t in list ==> t in timers && t in due && Epoch(due[t]) == epoch && timers[t].value == Wrap(due[t]))
    && Sorted(Values(timers, list))
  }

  lemma ListedFrame(timers: map<TimerId, Timer>, timers': map<TimerId, Timer>, list: seq<TimerId>,
                    due: map<TimerId, nat>, due': map<TimerId, nat>, epoch: nat)
    requires Listed(timers, list, due, epoch)
    requires forall t :: t in list ==> t in timers' && timers'[t].value == timers[t].value
    requires forall t :: t in list ==> t in due' && due'[t] == due[t]
    ensures Listed(timers', list, due', epoch)
  {
    assert Values(timers', list) == Values(timers, list);
  }

  lemma ListedInsert(timers: map<TimerId, Timer>, list: seq<TimerId>, due: map<TimerId, nat>, epoch: nat, t: TimerId)
    requires Listed(timers, list, due, epoch) && t !in list && t in timers && t in due
    requires Epoch(due[t]) == epoch && timers[t].value == Wrap(due[t])
    ensures var r := InsertAt(ListV(list, 0), InsertPosition(Values(timers, list), timers[t].value), t).items;
            Listed(timers, r, due, epoch) && forall u :: u in r <==> u == t || u in list
  {
    hide Sorted, NoDuplicates, Epoch, Wrap;
    var keys, v := Values(timers, list), timers[t].value;
    var pos := InsertPosition(keys, v);
    var r := InsertAt(ListV(list, 0), pos, t).items;
    InsertAtMembers(ListV(list, 0), pos, t);
    InsertKeepsSorted(keys, v);
    forall i | 0 <= i < |r| ensures Values(timers, r)[i] == (keys[..pos] + [v] + keys[pos..])[i] {
      SplicedAt(keys, pos, v, i);
      SplicedAt(list, pos, t, i);
    }
    assert Values(timers, r) == keys[..pos] + [v] + keys[pos..];
  }

  lemma ListedRemove(timers: map<TimerId, Timer>, list: seq<TimerId>, due: map<TimerId, nat>, epoch: nat, t: TimerId)
    requires Listed(timers, list, due, epoch) && t in list
    ensures var r := Remove(ListV(list, 0), t).items;
            Listed(timers, r, due, epoch) && |r| == |list| - 1 && forall u :: u in r <==> u != t && u in list
  {
    hide Sorted, NoDuplicates, Epoch, Wrap;
    RemoveMembers(ListV(list, 0), t);
    var i, keys := IndexOf(list, t), Values(timers, list);
    WithoutKeepsSorted(keys, i);
    assert Values(timers, Without(list, i)) == Without(keys, i);
  }

  lemma HeadIsEarliest(timers: map<TimerId, Timer>, list: seq<TimerId>, due: map<TimerId, nat>, epoch: nat, t: TimerId)
    requires Listed(timers, list, due, epoch) && t in list
    ensures list[0] in list && due[list[0]] <= due[t]
  {
    var i := IndexOf(list, t);
    assert Values(timers, list)[0] <= Values(timers, list)[i];
  }

  // ----- the daemon ------------------------------------------------------------------------------

  datatype Command =
    | Start(timer: TimerId, time: Tick)          // tmrCOMMAND_START and RESET, also from an ISR
    | Stop(timer: TimerId)
    | ChangePeriod(timer: TimerId, period: Tick)
    | Delete(timer: TimerId, static_: bool)

  /** The books of the daemon in an epoch: the current list holds this epoch's
      expiries, the overflow list the next epoch's, and a timer is active iff
      it is on one of the two; busy timers are on neither. */
  ghost predicate InOrder(timers: map<TimerId, Timer>, current: seq<TimerId>, overflow: seq<TimerId>,
                          due: map<TimerId, nat>, epoch: nat, busy: set<TimerId>) {
    && Listed(timers, current, due, epoch) && Listed(timers, overflow, due, epoch + 1)
    && (forall t :: t in current ==> t !in overflow)
    && (forall t :: t in timers ==> 0 < timers[t].period < TICK_MODULUS)
    && (forall t :: t in timers && t !in busy ==> (timers[t].active <==> t in current || t in overflow))
    && (forall t :: t in busy ==> t in timers && t !in current && t !in overflow)
  }

  lemma SetTimer(timers: map<TimerId, Timer>, current: seq<TimerId>, overflow: seq<TimerId>,
                 due: map<TimerId, nat>, epoch: nat, busy: set<TimerId>, t: TimerId, c: Timer)
    requires InOrder(timers, current, overflow, due, epoch, busy) && t in busy && 0 < c.period < TICK_MODULUS
    ensures InOrder(timers[t := c], current, overflow, due, epoch, busy)
    ensures !c.active ==> InOrder(timers[t := c], current, overflow, due, epoch, busy - {t})
  {
    ListedFrame(timers, timers[t := c], current, due, due, epoch);
    ListedFrame(timers, timers[t := c], overflow, due, due, epoch + 1);
    hide Listed;
  }

  lemma TakeOff(timers: map<TimerId, Timer>, current: seq<TimerId>, overflow: seq<TimerId>,
                due: map<TimerId, nat>, epoch: nat, busy: set<TimerId>, t: TimerId)
    requires InOrder(timers, current, overflow, due, epoch, busy) && t in timers && t !in busy
    ensures t in current ==> InOrder(timers, Remove(ListV(current, 0), t).items, overflow, due, epoch, busy + {t})
    ensures t in overflow ==> InOrder(timers, current, Remove(ListV(overflow, 0), t).items, due, epoch, busy + {t})
    ensures t !in current && t !in overflow ==> InOrder(timers, current, overflow, due, epoch, busy + {t})
  {
    if t in current {
      ListedRemove(timers, current, due, epoch, t);
    } else if t in overflow {
      ListedRemove(timers, overflow, due, epoch + 1, t);
    }
    hide Listed, Remove;
  }

  function InsertSorted(timers: map<TimerId, Timer>, list: seq<TimerId>, t: TimerId): seq<TimerId>
    requires t in timers && forall u :: u in list ==> u in timers
  {
    InsertAt(ListV(list, 0), InsertPosition(Values(timers, list), timers[t].value), t).items
  }

  lemma PutOn(timers: map<TimerId, Timer>, current: seq<TimerId>, overflow: seq<TimerId>,
              due: map<TimerId, nat>, epoch: nat, busy: set<TimerId>, t: TimerId, expiry: nat)
    requires InOrder(timers, current, overflow, due, epoch, busy) && t in busy && timers[t].active
    requires timers[t].value == Wrap(expiry) && epoch <= Epoch(expiry) <= epoch + 1
    ensures (forall u :: u in current ==> u in timers) && (forall u :: u in overflow ==> u in timers)
    ensures Epoch(expiry) == epoch ==>
              InOrder(timers, InsertSorted(timers, current, t), overflow, due[t := expiry], epoch, busy - {t})
    ensures Epoch(expiry) == epoch + 1 ==>
              InOrder(timers, current, InsertSorted(timers, overflow, t), due[t := expiry], epoch, busy - {t})
  {
    hide Wrap, Epoch, Sorted, NoDuplicates, InsertSorted;
    var due' := due[t := expiry];
    ListedFrame(timers, timers, current, due, due', epoch);
    ListedFrame(timers, timers, overflow, due, due', epoch + 1);
    if Epoch(expiry) == epoch {
      Inserted(timers, current, due', epoch, t);
    } else {
      Inserted(timers, overflow, due', epoch + 1, t);
    }
    hide Listed;
  }

  lemma Inserted(timers: map<TimerId, Timer>, list: seq<TimerId>, due: map<TimerId, nat>, epoch: nat, t: TimerId)
    requires Listed(timers, list, due, epoch) && t !in list && t in timers && t in due
    requires Epoch(due[t]) == epoch && timers[t].value == Wrap(due[t])
    ensures forall u :: u in list ==> u in timers
    ensures Listed(timers, InsertSorted(timers, list, t), due, epoch)
    ensures forall u :: u in InsertSorted(timers, list, t) <==> u == t || u in list
  {
    ListedInsert(timers, list, due, epoch, t);
  }

  /** The daemon's timers, their true expiries, its callbacks and its last sample. */
  datatype Books = Books(timers: map<TimerId, Timer>, due: map<TimerId, nat>, called: seq<TimerId>, last: nat)

  class TimerDaemon {
    var timers: map<TimerId, Timer>
    var current: seq<TimerId>            // pxCurrentTimerList
    var overflow: seq<TimerId>           // pxOverflowTimerList
    var lastTime: Tick                   // xLastTime
    var called: seq<TimerId>             // the callbacks made so far
    ghost var due: map<TimerId, nat>     // true expiries
    ghost var last: nat                  // true time of the last sample

    ghost predicate Consistent(epoch: nat, busy: set<TimerId>)
      reads this
    {
      InOrder(timers, current, overflow, due, epoch, busy)
    }

    ghost predicate Valid()
      reads this
    {
      Consistent(Epoch(last), {}) && lastTime == Wrap(last)
    }

    /** prvCheckForValidListAndQueue */
    constructor ()
      ensures Valid() && timers == map[] && last == 0
    {
      timers, current, overflow, lastTime, called, due, last := map[], [], [], 0, [], map[], 0;
    }

    /** xTimerCreate: the timer is dormant. */
    method Create(t: TimerId, period: Tick, autoReload: bool)
      requires Valid() && t !in timers && period > 0
      modifies `timers
      ensures Valid() && timers == old(timers)[t := Timer(period, false, autoReload, 0)]
    {
      NotListed(timers, current, overflow, due, Epoch(last), t);
      timers := timers[t := Timer(period, false, autoReload, 0)];
      ListedFrame(old(timers), timers, current, due, due, Epoch(last));
      ListedFrame(old(timers), timers, overflow, due, due, Epoch(last) + 1);
      hide Listed;
    }

    static lemma NotListed(timers: map<TimerId, Timer>, current: seq<TimerId>, overflow: seq<TimerId>,
                           due: map<TimerId, nat>, epoch: nat, t: TimerId)
      requires InOrder(timers, current, overflow, due, epoch, {}) && t !in timers
      ensures t !in current && t !in overflow
    {
    }

    /** Every other timer keeps its fields and its expiry. */
    twostate predicate OthersKept(t: TimerId)
      reads this
    {
      && timers.Keys == old(timers.Keys)
      && forall u :: u in timers && u != t ==>
           && timers[u] == old(timers[u])
           && (u in due <==> u in old(due)) && (u in due ==> due[u] == old(due[u]))
    }

    /** prvInsertTimerInActiveList; the true times of its arguments are ghost. */
    method InsertTimerInActiveList(t: TimerId, next: Tick, now: Tick, command: Tick,
                                   ghost busy: set<TimerId>, ghost trueNow: nat, ghost trueCommand: nat)
      returns (expired: bool)
      requires t in busy && Consistent(Epoch(trueNow), busy) && timers[t].active
      requires trueCommand <= trueNow < trueCommand + TICK_MODULUS
      requires now == Wrap(trueNow) && command == Wrap(trueCommand) && next == Wrap(trueCommand + timers[t].period)
      modifies `timers, `current, `overflow, `due
      ensures expired <==> trueCommand + old(timers[t].period) <= trueNow
      ensures timers == old(timers)[t := old(timers[t]).(value := next)] && |overflow| >= |old(overflow)|
      ensures expired ==>
                && Consistent(Epoch(trueNow), busy)
                && current == old(current) && overflow == old(overflow) && due == old(due)
      ensures !expired ==>
                && Consistent(Epoch(trueNow), busy - {t})
                && due == old(due)[t := trueCommand + old(timers[t].period)]
                && (Epoch(due[t]) > Epoch(trueNow) ==> current == old(current))
    {
      hide InOrder, Listed, Wrap, Epoch, InsertPosition;
      PeriodOf(timers, current, overflow, due, Epoch(trueNow), busy, t);
      ghost var period := timers[t].period;
      ExpiryIsExact(trueCommand, trueNow, period);
      SetTimer(timers, current, overflow, due, Epoch(trueNow), busy, t, timers[t].(value := next));
      timers := timers[t := timers[t].(value := next)];
      ghost var expiry := trueCommand + period;
      expired := false;
      if next <= now {
        if Minus(now, command) >= timers[t].period {
          expired := true;
        } else {
          PutOn(timers, current, overflow, due, Epoch(trueNow), busy, t, expiry);
          overflow := InsertSorted(timers, overflow, t);
          due := due[t := expiry];
        }
      } else if now < command && next >= command {
        expired := true;
      } else {
        PutOn(timers, current, overflow, due, Epoch(trueNow), busy, t, expiry);
        current := InsertSorted(timers, current, t);
        due := due[t := expiry];
      }
    }

    /** prvReloadTimer: one callback for each expiry that was missed. */
    method ReloadTimer(t: TimerId, expiredTime: Tick, now: Tick,
                       ghost busy: set<TimerId>, ghost trueExpired: nat, ghost trueNow: nat)
      requires t in busy && Consistent(Epoch(trueNow), busy) && timers[t].active
      requires trueExpired <= trueNow < trueExpired + TICK_MODULUS
      requires now == Wrap(trueNow) && expiredTime == Wrap(trueExpired)
      modifies `timers, `current, `overflow, `due, `called
      ensures Consistent(Epoch(trueNow), busy - {t}) && old(timers[t].period) > 0
      ensures called == old(called) + Repeat(t, Missed(trueExpired, old(timers[t].period), trueNow))
      ensures t in due && due[t] == NextExpiry(trueExpired, old(timers[t].period), trueNow)
      ensures t in timers && timers[t] == old(timers[t]).(value := timers[t].value) && OthersKept(t)
      ensures Epoch(due[t]) > Epoch(trueNow) ==> current == old(current)
      ensures |overflow| >= |old(overflow)|
    {
      hide InOrder, Listed, Wrap, Epoch, Repeat, Missed, NextExpiry, NoDuplicates;
      PeriodOf(timers, current, overflow, due, Epoch(trueNow), busy, t);
      RepeatAppend(t, 0);
      ghost var period, expired, n := timers[t].period, trueExpired, 0;
      var time := expiredTime;
      WrapAdd(expired, period);
      var again := InsertTimerInActiveList(
        t, (time + timers[t].period) % TICK_MODULUS, now, time, busy, trueNow, expired);
      while again
        invariant trueExpired <= expired <= trueNow && time == Wrap(expired)
        invariant again <==> expired + period <= trueNow
        invariant t in timers && timers[t] == old(timers[t]).(value := timers[t].value) && OthersKept(t)
        invariant |overflow| >= |old(overflow)|
        invariant again ==> Consistent(Epoch(trueNow), busy) && current == old(current)
        invariant !again ==> Consistent(Epoch(trueNow), busy - {t}) && t in due && due[t] == expired + period
        invariant !again && Epoch(due[t]) > Epoch(trueNow) ==> current == old(current)
        invariant called == old(called) + Repeat(t, n)
        invariant Missed(trueExpired, period, trueNow) == n + Missed(expired, period, trueNow)
        invariant NextExpiry(trueExpired, period, trueNow) == NextExpiry(expired, period, trueNow)
        decreases trueNow - expired
      {
        MissedUnfolds(expired, period, trueNow);
        WrapAdd(expired, period);
        time := (time + timers[t].period) % TICK_MODULUS;
        expired := expired + period;
        RepeatAppend(t, n);
        called := called + [t];
        n := n + 1;
        WrapAdd(expired, period);
        again := InsertTimerInActiveList(
          t, (time + timers[t].period) % TICK_MODULUS, now, time, busy, trueNow, expired);
      }
      MissedUnfolds(expired, period, trueNow);
    }

    static lemma PeriodOf(timers: map<TimerId, Timer>, current: seq<TimerId>, overflow: seq<TimerId>,
                          due: map<TimerId, nat>, epoch: nat, busy: set<TimerId>, t: TimerId)
      requires InOrder(timers, current, overflow, due, epoch, busy) && (t in busy || t in timers)
      ensures t in timers && 0 < timers[t].period < TICK_MODULUS
    {
    }

    static lemma WrapAdd(a: nat, b: nat)
      ensures (Wrap(a) + b) % TICK_MODULUS == Wrap(a + b)
    {
    }

    static lemma RepeatAppend(t: TimerId, n: nat)
      ensures Repeat(t, n + 1) == Repeat(t, n) + [t] && Repeat(t, 0) == []
    {
    }

    /** What the expiry of t at time expired does: the missed callbacks of an
        auto-reload timer, then the one that is due. */
    static ghost function Fired(t: TimerId, c: Timer, expired: nat, now: nat): seq<TimerId>
      requires c.period > 0
    {
      (if c.autoReload then Repeat(t, Missed(expired, c.period, now)) else []) + [t]
    }

    /** A reload timer is due next after now, in its phase; another is inactive. */
    static ghost predicate ProcessedOne(timers: map<TimerId, Timer>, due: map<TimerId, nat>,
                                        timers': map<TimerId, Timer>, due': map<TimerId, nat>, t: TimerId, now: nat) {
      && t in timers && t in timers' && t in due && timers[t].period > 0
      && if timers[t].autoReload then
           && timers'[t] == timers[t].(value := timers'[t].value)
           && t in due' && due'[t] == NextExpiry(due[t], timers[t].period, now)
         else timers'[t] == timers[t].(active := false)
    }

    /** Every timer that is not on the list keeps its fields and its expiry. */
    static ghost predicate Kept(timers: map<TimerId, Timer>, due: map<TimerId, nat>,
                                timers': map<TimerId, Timer>, due': map<TimerId, nat>, list: seq<TimerId>) {
      forall u :: u in timers && u !in list ==>
        && u in timers' && timers'[u] == timers[u]
        && (u in due <==> u in due') && (u in due ==> due'[u] == due[u])
    }

    /** The timers on the list were processed at time now, and no other changed. */
    static ghost predicate Processed(timers: map<TimerId, Timer>, due: map<TimerId, nat>,
                                     timers': map<TimerId, Timer>, due': map<TimerId, nat>,
                                     list: seq<TimerId>, now: nat) {
      && timers'.Keys == timers.Keys && Kept(timers, due, timers', due', list)
      && forall t :: t in list ==> ProcessedOne(timers, due, timers', due', t, now)
    }

    /** Their callbacks, in the order of the list. */
    static ghost function AllFired(timers: map<TimerId, Timer>, due: map<TimerId, nat>, list: seq<TimerId>,
                                   now: nat): seq<TimerId> {
      if list == [] then []
      else
        var t := list[0];
        (if t in timers && t in due && timers[t].period > 0 then Fired(t, timers[t], due[t], now) else [])
        + AllFired(timers, due, list[1..], now)
    }

    static lemma {:induction false} FiredAppend(timers: map<TimerId, Timer>, due: map<TimerId, nat>, list: seq<TimerId>,
                                                t: TimerId, now: nat)
      requires t in timers && t in due && timers[t].period > 0
      ensures AllFired(timers, due, list + [t], now)
              == AllFired(timers, due, list, now) + Fired(t, timers[t], due[t], now)
    {
      hide Fired;
      if list == [] {
        assert list + [t] == [t] && [t][1..] == [];
      } else {
        FiredAppend(timers, due, list[1..], t, now);
        assert (list + [t])[1..] == list[1..] + [t] && (list + [t])[0] == list[0];
      }
    }

    /** One more timer was processed. */
    static lemma ProcessedNext(timers: map<TimerId, Timer>, due: map<TimerId, nat>,
                               mid: map<TimerId, Timer>, dueMid: map<TimerId, nat>,
                               timers': map<TimerId, Timer>, due': map<TimerId, nat>,
                               list: seq<TimerId>, t: TimerId, now: nat)
      requires Processed(timers, due, mid, dueMid, list, now) && t in timers && t !in list
      requires timers'.Keys == mid.Keys && Kept(mid, dueMid, timers', due', [t])
      requires ProcessedOne(mid, dueMid, timers', due', t, now)
      ensures Processed(timers, due, timers', due', list + [t], now)
      ensures timers[t] == mid[t] && t in due && t in dueMid && due[t] == dueMid[t]
    {
      hide NextExpiry;
    }

    static lemma {:induction false} RepeatCount(t: TimerId, n: nat, u: TimerId)
      ensures multiset(Repeat(t, n))[u] == if u == t then n else 0
    {
      if n > 0 {
        RepeatCount(t, n - 1, u);
        assert multiset([t] + Repeat(t, n - 1)) == multiset([t]) + multiset(Repeat(t, n - 1));
      }
    }

    /** A timer that is processed at now makes one callback for each period that
        its expiry advances by, or one if it does not reload. */
    static lemma FiredCount(t: TimerId, c: Timer, expired: nat, now: nat, u: TimerId)
      requires c.period > 0 && expired <= now
      ensures u != t ==> multiset(Fired(t, c, expired, now))[u] == 0
      ensures u == t && c.autoReload ==>
                NextExpiry(expired, c.period, now) == expired + multiset(Fired(t, c, expired, now))[t] * c.period
      ensures u == t && !c.autoReload ==> multiset(Fired(t, c, expired, now))[t] == 1
    {
      hide Repeat, Missed, NextExpiry;
      BacklogIs(expired, c.period, now);
      var back := if c.autoReload then Repeat(t, Missed(expired, c.period, now)) else [];
      RepeatCount(t, Missed(expired, c.period, now), u);
      assert multiset(back + [t]) == multiset(back) + multiset([t]);
    }

    /** Of every timer on the list AllFired has exactly its own callbacks. */
    static lemma {:induction false} AllFiredCount(timers: map<TimerId, Timer>, due: map<TimerId, nat>,
                                                  list: seq<TimerId>, now: nat, u: TimerId)
      requires NoDuplicates(list)
      requires forall t :: t in list ==> t in timers && t in due && timers[t].period > 0 && due[t] <= now
      ensures multiset(AllFired(timers, due, list, now))[u] ==
              if u in list then multiset(Fired(u, timers[u], due[u], now))[u] else 0
    {
      hide Fired;
      if list != [] {
        var t, rest := list[0], AllFired(timers, due, list[1..], now);
        assert list == [t] + list[1..];
        AllFiredCount(timers, due, list[1..], now, u);
        FiredCount(t, timers[t], due[t], now, u);
        assert multiset(Fired(t, timers[t], due[t], now) + rest)
               == multiset(Fired(t, timers[t], due[t], now)) + multiset(rest);
      }
    }

    /** No callback is lost and none is made twice: what the processing of a list
        adds to a reload timer's expiry is its period times its callbacks. */
    static lemma CallbacksMatchExpiries(timers: map<TimerId, Timer>, due: map<TimerId, nat>,
                                        timers': map<TimerId, Timer>, due': map<TimerId, nat>,
                                        list: seq<TimerId>, now: nat, u: TimerId)
      requires Processed(timers, due, timers', due', list, now) && NoDuplicates(list)
      requires forall t :: t in list ==> t in due && due[t] <= now
      requires u in timers && u in due && timers[u].autoReload
      ensures u in due'
      ensures due'[u] == due[u] + multiset(AllFired(timers, due, list, now))[u] * timers[u].period
    {
      hide AllFired, Fired, NextExpiry;
      forall t | t in list ensures t in timers && timers[t].period > 0 {
        assert ProcessedOne(timers, due, timers', due', t, now);
      }
      AllFiredCount(timers, due, list, now, u);
      if u in list {
        assert ProcessedOne(timers, due, timers', due', u, now);
        FiredCount(u, timers[u], due[u], now, u);
      }
    }

    /** prvProcessExpiredTimer: the head of the current list has expired. */
    method ProcessExpiredTimer(next: Tick, now: Tick, ghost busy: set<TimerId>, ghost trueNow: nat)
      requires Consistent(Epoch(trueNow), busy) && current != [] && now == Wrap(trueNow)
      requires current[0] in timers && next == timers[current[0]].value
      requires current[0] in due && due[current[0]] <= trueNow
      modifies `timers, `current, `overflow, `due, `called
      ensures Consistent(Epoch(trueNow), busy)
      ensures var t := old(current[0]);
              && OthersKept(t) && ProcessedOne(old(timers), old(due), timers, due, t, trueNow)
              && called == old(called) + Fired(t, old(timers[current[0]]), old(due[current[0]]), trueNow)
      ensures Epoch(trueNow + 1) > Epoch(trueNow) ==>
                && current == old(current[1..])
                && (overflow == [] <==> old(overflow) == [] && !old(timers[current[0]]).autoReload)
    {
      hide InOrder, Listed, Wrap, Epoch;
      var t := current[0];
      HeadGives(timers, current, overflow, due, Epoch(trueNow), busy);
      ghost var expired, c := due[t], timers[t];
      SameEpoch(expired, trueNow);
      TakeOff(timers, current, overflow, due, Epoch(trueNow), busy, t);
      current := Remove(ListV(current, 0), t).items;
      if timers[t].autoReload {
        ReloadTimer(t, next, now, busy + {t}, expired, trueNow);
        BacklogIs(expired, c.period, trueNow);
        NoLaterEpoch(trueNow, due[t]);
        NextIsListed(timers, current, overflow, due, Epoch(trueNow), busy + {t} - {t}, t);
      } else {
        SetTimer(timers, current, overflow, due, Epoch(trueNow), busy + {t}, t, timers[t].(active := false));
        timers := timers[t := timers[t].(active := false)];
      }
      assert busy + {t} - {t} == busy;
      called := called + [t];
    }

    static lemma HeadGives(timers: map<TimerId, Timer>, current: seq<TimerId>, overflow: seq<TimerId>,
                           due: map<TimerId, nat>, epoch: nat, busy: set<TimerId>)
      requires InOrder(timers, current, overflow, due, epoch, busy) && current != []
      ensures var t := current[0];
              && t in timers && t in due && t !in busy && timers[t].value == Wrap(due[t]) && Epoch(due[t]) == epoch
              && timers[t].active && 0 < timers[t].period < TICK_MODULUS
              && t in current && Remove(ListV(current, 0), t).items == current[1..] && t !in current[1..]
    {
      var t := current[0];
      assert t in current && IndexOf(current, t) == 0;
    }

    /** An active timer that is due in a later epoch is on the overflow list. */
    static lemma NextIsListed(timers: map<TimerId, Timer>, current: seq<TimerId>, overflow: seq<TimerId>,
                              due: map<TimerId, nat>, epoch: nat, busy: set<TimerId>, t: TimerId)
      requires InOrder(timers, current, overflow, due, epoch, busy) && t in timers && timers[t].active
      requires t !in busy && t in due
      ensures Epoch(due[t]) > epoch ==> t in overflow
    {
    }

    static lemma SameEpoch(a: nat, b: nat)
      requires a <= b && Epoch(a) == Epoch(b)
      ensures b < a + TICK_MODULUS
    {
    }

    static lemma NoLaterEpoch(now: nat, later: nat)
      requires now < later
      ensures Epoch(now + 1) > Epoch(now) ==> Epoch(later) > Epoch(now)
    {
    }

    /** No timer on the list, except those set apart, is an auto-reload one. */
    static ghost predicate AllOnce(timers: map<TimerId, Timer>, list: seq<TimerId>, apart: set<TimerId>) {
      forall t :: t in list && t !in apart ==> t in timers && !timers[t].autoReload
    }

    static lemma HeadOnce(timers: map<TimerId, Timer>, timers': map<TimerId, Timer>, list: seq<TimerId>)
      requires list != [] && list[0] in timers && list[0] !in list[1..] && timers'.Keys == timers.Keys
      requires forall u :: u in timers && u != list[0] ==> timers'[u] == timers[u]
      ensures AllOnce(timers, list, {}) <==> !timers[list[0]].autoReload && AllOnce(timers', list[1..], {})
    {
      assert list == [list[0]] + list[1..];
    }

    static lemma NoneLeft(timers: map<TimerId, Timer>)
      ensures AllOnce(timers, [], {})
    {
    }

    /** prvSwitchTimerLists, at the end of an epoch: every timer left on the
        current list is processed, as if at the last tick of the epoch, and no
        reload puts one back on it, so the loop ends. */
    method SwitchTimerLists(ghost busy: set<TimerId>, ghost epoch: nat)
      requires Consistent(epoch, busy)
      modifies `timers, `current, `overflow, `due, `called
      ensures Consistent(epoch + 1, busy) && overflow == [] && timers.Keys == old(timers.Keys)
      ensures Processed(old(timers), old(due), timers, due, old(current), LastTickOf(epoch))
      ensures called == old(called) + AllFired(old(timers), old(due), old(current), LastTickOf(epoch))
      ensures current == [] <==> old(overflow) == [] && old(AllOnce(timers, current, {}))
      ensures forall t :: t in busy ==> t in timers && timers[t] == old(timers[t])
    {
      hide InOrder, Listed, Wrap, Epoch, AllOnce, AllFired, Fired, ProcessedOne, Processed, Kept;
      ghost var end := LastTickOf(epoch);
      NoneProcessed(timers, due, end);
      NoneTwice(timers, current, overflow, due, epoch, busy);
      EndOfEpoch(epoch);
      BusyKept(timers, current, overflow, due, epoch, busy);
      ghost var n := 0;
      while current != []
        invariant Consistent(epoch, busy) && timers.Keys == old(timers.Keys)
        invariant n <= |old(current)| && current == old(current)[n..]
        invariant Processed(old(timers), old(due), timers, due, old(current)[..n], end)
        invariant called == old(called) + AllFired(old(timers), old(due), old(current)[..n], end)
        invariant overflow == [] && AllOnce(timers, current, {}) <==>
                    old(overflow) == [] && old(AllOnce(timers, current, {}))
        invariant forall t :: t in busy ==> t in timers && timers[t] == old(timers[t])
        decreases |current|
      {
        ghost var timersBefore, dueBefore, list := timers, due, current;
        HeadGives(timers, current, overflow, due, epoch, busy);
        BeforeEnd(due[current[0]], epoch);
        var next := timers[current[0]].value;
        BusyKept(timers, current, overflow, due, epoch, busy);
        ProcessExpiredTimer(next, LAST_TICK, busy, end);
        HeadOnce(timersBefore, timers, list);
        NotBefore(old(current), n);
        OneKept(timersBefore, dueBefore, timers, due, list[0]);
        ProcessedNext(old(timers), old(due), timersBefore, dueBefore, timers, due, old(current)[..n], list[0], end);
        ProcessedGives(timersBefore, dueBefore, timers, due, list[0], end);
        FiredAppend(old(timers), old(due), old(current)[..n], list[0], end);
        assert old(current)[..n + 1] == old(current)[..n] + [list[0]];
        n := n + 1;
      }
      assert old(current)[..n] == old(current);
      NextEpoch(timers, current, overflow, due, epoch, busy);
      NoneLeft(timers);
      current, overflow := overflow, current;
    }

    static lemma BusyKept(timers: map<TimerId, Timer>, current: seq<TimerId>, overflow: seq<TimerId>,
                          due: map<TimerId, nat>, epoch: nat, busy: set<TimerId>)
      requires InOrder(timers, current, overflow, due, epoch, busy)
      ensures forall t :: t in busy ==> t in timers && t !in current
    {
    }

    static lemma NoneTwice(timers: map<TimerId, Timer>, current: seq<TimerId>, overflow: seq<TimerId>,
                           due: map<TimerId, nat>, epoch: nat, busy: set<TimerId>)
      requires InOrder(timers, current, overflow, due, epoch, busy)
      ensures NoDuplicates(current)
    {
    }

    static lemma NotBefore(list: seq<TimerId>, n: nat)
      requires NoDuplicates(list) && n < |list|
      ensures list[n..][0] == list[n] && list[n] !in list[..n]
    {
    }

    static ghost function LastTickOf(epoch: nat): nat {
      epoch * TICK_MODULUS + TICK_MODULUS - 1
    }

    static lemma NoneProcessed(timers: map<TimerId, Timer>, due: map<TimerId, nat>, now: nat)
      ensures Processed(timers, due, timers, due, [], now) && AllFired(timers, due, [], now) == []
    {
    }

    static lemma OneKept(timers: map<TimerId, Timer>, due: map<TimerId, nat>,
                         timers': map<TimerId, Timer>, due': map<TimerId, nat>, t: TimerId)
      requires timers'.Keys == timers.Keys
      requires forall u :: u in timers' && u != t ==>
                 && u in timers && timers'[u] == timers[u]
                 && (u in due' <==> u in due) && (u in due' ==> due'[u] == due[u])
      ensures Kept(timers, due, timers', due', [t])
    {
      assert forall u :: u in timers ==> u in timers'.Keys;
    }

    static lemma ProcessedGives(timers: map<TimerId, Timer>, due: map<TimerId, nat>,
                                timers': map<TimerId, Timer>, due': map<TimerId, nat>, t: TimerId, now: nat)
      requires ProcessedOne(timers, due, timers', due', t, now)
      ensures t in timers && t in due && timers[t].period > 0
    {
    }

    static lemma EndOfEpoch(epoch: nat)
      ensures var end := LastTickOf(epoch);
              Epoch(end) == epoch && Epoch(end + 1) == epoch + 1 && Wrap(end) == LAST_TICK
    {
    }

    static lemma BeforeEnd(t: nat, epoch: nat)
      requires Epoch(t) == epoch
      ensures t <= LastTickOf(epoch)
    {
    }

    static lemma NextEpoch(timers: map<TimerId, Timer>, current: seq<TimerId>, overflow: seq<TimerId>,
                           due: map<TimerId, nat>, epoch: nat, busy: set<TimerId>)
      requires InOrder(timers, current, overflow, due, epoch, busy) && current == []
      ensures InOrder(timers, overflow, current, due, epoch + 1, busy)
    {
    }

    /** When a sample at trueNow brings the lists up to date: less than 2^32 ticks
        after the last one, or if it finds or leaves both lists empty. */
    ghost predicate InTime(trueNow: nat, apart: set<TimerId>)
      reads this
    {
      Reaches(timers, current, overflow, last, trueNow, apart)
    }

    static ghost predicate Reaches(timers: map<TimerId, Timer>, current: seq<TimerId>, overflow: seq<TimerId>,
                                   last: nat, trueNow: nat, apart: set<TimerId>) {
      last <= trueNow &&
        (|| trueNow < last + TICK_MODULUS
         || (&& (forall t :: t in overflow ==> t in apart)
             && ((forall t :: t in current ==> t in apart) ||
                 (Wrap(trueNow) < Wrap(last) && AllOnce(timers, current, apart)))))
    }

    /** prvSampleTimeNow: the lists are switched when the tick count went back.
        They are then those of the new epoch exactly when the sample is in time. */
    method SampleTimeNow(tick: Tick, ghost busy: set<TimerId>, ghost trueNow: nat) returns (switched: bool)
      requires Consistent(Epoch(last), busy) && lastTime == Wrap(last)
      requires last <= trueNow && tick == Wrap(trueNow)
      modifies this
      ensures lastTime == Wrap(last) && last == trueNow
      ensures Consistent(Epoch(trueNow), busy) <==> old(InTime(trueNow, {}))
      ensures (switched <==> tick < old(lastTime)) && (switched ==> Epoch(trueNow) > Epoch(old(last)))
      ensures (switched <==> Epoch(trueNow) != Epoch(old(last))) && Epoch(trueNow) <= Epoch(old(last)) + 1 <==>
              trueNow < old(last) + TICK_MODULUS
      ensures !switched ==>
                && timers == old(timers) && current == old(current) && overflow == old(overflow)
                && called == old(called) && due == old(due)
      ensures timers.Keys == old(timers.Keys) && old(called) <= called
      ensures switched ==>
                && Processed(old(timers), old(due), timers, due, old(current), LastTickOf(Epoch(old(last))))
                && called == old(called) + AllFired(old(timers), old(due), old(current), LastTickOf(Epoch(old(last))))
      ensures forall t :: t in busy ==> t in timers && timers[t] == old(timers[t])
    {
      hide InOrder, Listed, Wrap, Epoch, Processed, AllFired;
      BusyKept(timers, current, overflow, due, Epoch(last), busy);
      SwitchesMatchEpochs(last, trueNow);
      ghost var epoch := Epoch(last) + if tick < lastTime then 1 else 0;
      NobodyOn(current);
      NobodyOn(overflow);
      switched := tick < lastTime;
      if switched {
        SwitchTimerLists(busy, Epoch(last));
      }
      lastTime, last := tick, trueNow;
      EpochIsFixed(timers, current, overflow, due, epoch, Epoch(trueNow), busy);
    }

    static lemma NobodyOn(list: seq<TimerId>)
      ensures (forall t :: t in list ==> t in {}) <==> list == []
    {
      if list != [] {
        assert list[0] in list;
      }
    }

    /** Lists that are not both empty are in order at one epoch only. */
    static lemma EpochIsFixed(timers: map<TimerId, Timer>, current: seq<TimerId>, overflow: seq<TimerId>,
                              due: map<TimerId, nat>, epoch: nat, epoch': nat, busy: set<TimerId>)
      requires InOrder(timers, current, overflow, due, epoch, busy)
      ensures InOrder(timers, current, overflow, due, epoch', busy) <==>
              epoch' == epoch || (current == [] && overflow == [])
    {
      hide Wrap, Epoch, Sorted, NoDuplicates;
      if current != [] {
        assert current[0] in current;
      } else if overflow != [] {
        assert overflow[0] in overflow;
      }
    }

    /** prvGetNextExpireTime */
    method GetNextExpireTime() returns (next: Tick, empty: bool)
      requires Valid()
      ensures empty == (current == [])
      ensures next == if empty then 0 else (assert current[0] in current; timers[current[0]].value)
    {
      hide Sorted, NoDuplicates;
      empty := current == [];
      next := 0;
      if !empty {
        assert current[0] in current;
        next := timers[current[0]].value;
      }
    }

    /** prvProcessTimerOrBlockTask, from the query of the lists on: it blocks only
        when nothing has expired, and then exactly until the next expiry or, if
        the current list is empty, until the tick count wraps. */
    method ProcessTimerOrBlock(tick: Tick, ghost trueNow: nat) returns (blocked: bool, wait: Tick, forever: bool)
      requires Valid() && InTime(trueNow, {}) && tick == Wrap(trueNow)
      modifies this
      ensures Valid() && last == trueNow && old(called) <= called
      ensures blocked ==>
                && called == old(called) && (forall t :: t in current ==> t in due && trueNow < due[t])
                && (forever <==> current == [] && overflow == [])
                && (current != [] ==> current[0] in due && trueNow + wait == due[current[0]])
                && (current == [] && Wrap(trueNow) > 0 ==>
                      Epoch(trueNow + wait) == Epoch(trueNow) + 1 && Wrap(trueNow + wait) == 0)
                && (current == [] && Wrap(trueNow) == 0 ==> wait == 0)
      ensures if tick < old(lastTime) then
                && !blocked && Processed(old(timers), old(due), timers, due, old(current), LastTickOf(Epoch(old(last))))
                && called == old(called) + AllFired(old(timers), old(due), old(current), LastTickOf(Epoch(old(last))))
              else if old(current) != [] && old(current)[0] in old(due) && old(due)[old(current)[0]] <= trueNow then
                && !blocked && Processed(old(timers), old(due), timers, due, [old(current)[0]], trueNow)
                && called == old(called) + AllFired(old(timers), old(due), [old(current)[0]], trueNow)
              else blocked && timers == old(timers) && due == old(due)
    {
      hide InOrder, Listed, Wrap, Epoch, Minus, Processed, Fired;
      var next, empty := GetNextExpireTime();
      var switched := SampleTimeNow(tick, {}, trueNow);
      blocked, wait, forever := false, 0, false;
      if !switched {
        if !empty {
          HeadGives(timers, current, overflow, due, Epoch(trueNow), {});
          InEpoch(due[current[0]], trueNow);
        }
        if !empty && next <= tick {
          ghost var timersBefore, dueBefore, t := timers, due, current[0];
          ProcessExpiredTimer(next, tick, {}, trueNow);
          OneProcessed(timersBefore, dueBefore, timers, due, t, trueNow);
        } else {
          blocked := true;
          if empty {
            forever := overflow == [];
          } else {
            NoneExpired(timers, current, overflow, due, Epoch(trueNow), {}, trueNow);
          }
          wait := Minus(next, tick);
          UntilWrap(trueNow);
        }
      }
    }

    static lemma OneProcessed(timers: map<TimerId, Timer>, due: map<TimerId, nat>,
                              timers': map<TimerId, Timer>, due': map<TimerId, nat>, t: TimerId, now: nat)
      requires timers'.Keys == timers.Keys && ProcessedOne(timers, due, timers', due', t, now)
      requires forall u :: u in timers' && u != t ==>
                 && u in timers && timers'[u] == timers[u]
                 && (u in due' <==> u in due) && (u in due' ==> due'[u] == due[u])
      ensures Processed(timers, due, timers', due', [t], now)
      ensures AllFired(timers, due, [t], now) == Fired(t, timers[t], due[t], now)
    {
      hide NextExpiry, Fired;
      OneKept(timers, due, timers', due', t);
      assert [t][1..] == [];
    }

    static lemma InEpoch(a: nat, now: nat)
      requires Epoch(a) == Epoch(now)
      ensures Wrap(a) <= Wrap(now) <==> a <= now
      ensures Wrap(a) > Wrap(now) ==> now + Minus(Wrap(a), Wrap(now)) == a
    {
    }

    static lemma UntilWrap(now: nat)
      ensures Wrap(now) > 0 ==>
                Epoch(now + Minus(0, Wrap(now))) == Epoch(now) + 1 && Wrap(now + Minus(0, Wrap(now))) == 0
      ensures Wrap(now) == 0 ==> Minus(0, Wrap(now)) == 0
    {
    }

    static lemma NoneExpired(timers: map<TimerId, Timer>, current: seq<TimerId>, overflow: seq<TimerId>,
                             due: map<TimerId, nat>, epoch: nat, busy: set<TimerId>, now: nat)
      requires InOrder(timers, current, overflow, due, epoch, busy) && current != []
      requires current[0] in due && now < due[current[0]]
      ensures forall t :: t in current ==> t in due && now < due[t]
    {
      forall t | t in current ensures t in due && now < due[t] {
        HeadIsEarliest(timers, current, due, epoch, t);
      }
    }

    /** What a command does to its timer, which was as given, with the callbacks that
        it makes: a start counts from the time it was sent, a change of the
        period from now, and a stopped timer stays. */
    static ghost predicate Effect(command: Command, was: Timer, timers: map<TimerId, Timer>, due: map<TimerId, nat>,
                                  made: seq<TimerId>, trueNow: nat, trueTime: nat) {
      var t := command.timer;
      match command
      case Start(_, _) =>
        var expiry := trueTime + was.period;
        && t in timers && was.period > 0
        && (expiry > trueNow ==>
              made == [] && timers[t] == was.(active := true, value := timers[t].value) && t in due && due[t] == expiry)
        && (expiry <= trueNow ==>
              && made == Fired(t, was, expiry, trueNow)
              && timers[t] == was.(active := was.autoReload, value := timers[t].value)
              && (was.autoReload ==> t in due && due[t] == NextExpiry(expiry, was.period, trueNow)))
      case Stop(_) => made == [] && t in timers && timers[t] == was.(active := false)
      case ChangePeriod(_, period) =>
        && made == [] && t in timers && timers[t] == was.(active := true, period := period, value := timers[t].value)
        && t in due && due[t] == trueNow + period
      case Delete(_, static_) =>
        made == [] && if static_ then t in timers && timers[t] == was.(active := false) else t !in timers
    }

    /** The active timers, but for t, that expire in the epoch of the last sample,
        in the order of their expiry. */
    static ghost predicate EndingList(a: Books, list: seq<TimerId>, t: TimerId) {
      && NoDuplicates(list)
      && (forall u :: u in list <==>
            u in a.timers && u != t && a.timers[u].active && u in a.due && Epoch(a.due[u]) == Epoch(a.last))
      && forall i, j :: 0 <= i < j < |list| && list[i] in a.due && list[j] in a.due ==> a.due[list[i]] <= a.due[list[j]]
    }

    static lemma CurrentEnds(timers: map<TimerId, Timer>, current: seq<TimerId>, overflow: seq<TimerId>,
                             due: map<TimerId, nat>, last: nat, called: seq<TimerId>, t: TimerId)
      requires InOrder(timers, current, overflow, due, Epoch(last), {t})
      ensures EndingList(Books(timers, due, called, last), current, t)
    {
      forall i, j | 0 <= i < j < |current| ensures due[current[i]] <= due[current[j]] {
        assert current[i] in current && current[j] in current;
        assert Values(timers, current)[i] <= Values(timers, current)[j];
      }
      forall u | u in timers && u != t && timers[u].active && u in due && Epoch(due[u]) == Epoch(last)
        ensures u in current
      {
        assert u !in overflow;
      }
    }

    /** A sample of the time processes the list at the end of its epoch if the tick
        count went back, and otherwise changes nothing. */
    static ghost predicate Sampled(a: Books, list: seq<TimerId>, b: Books, trueNow: nat) {
      && b.last == trueNow
      && if Wrap(trueNow) >= Wrap(a.last) then b.timers == a.timers && b.due == a.due && b.called == a.called
         else
           && Processed(a.timers, a.due, b.timers, b.due, list, LastTickOf(Epoch(a.last)))
           && b.called == a.called + AllFired(a.timers, a.due, list, LastTickOf(Epoch(a.last)))
    }

    static ghost function Freed(command: Command): set<TimerId> {
      if command.Delete? && !command.static_ then {command.timer} else {}
    }

    /** From one moment of the daemon to another: a sample of the time with its
        callbacks, then the effect of the command on its timer and on no other. */
    static ghost predicate Handled(command: Command, a: Books, b: Books, trueNow: nat, trueTime: nat) {
      && command.timer in a.timers && b.last == trueNow && b.timers.Keys == a.timers.Keys - Freed(command)
      && exists list, mid: Books ::
           && EndingList(a, list, command.timer) && Sampled(a, list, mid, trueNow)
           && mid.called <= b.called && Kept(mid.timers, mid.due, b.timers, b.due, [command.timer])
           && Effect(command, a.timers[command.timer], b.timers, b.due, b.called[|mid.called|..], trueNow, trueTime)
    }

    static ghost predicate HandledAt(messages: seq<Command>, trace: seq<Books>, trueNows: seq<nat>, trueTimes: seq<nat>,
                                     i: nat) {
      && i < |messages| && i + 1 < |trace| && i < |trueNows| && i < |trueTimes|
      && Handled(messages[i], trace[i], trace[i + 1], trueNows[i], trueTimes[i])
    }

    static lemma HandledSoFar(messages: seq<Command>, before: seq<Books>, trace: seq<Books>, trueNows: seq<nat>,
                              trueTimes: seq<nat>, i: nat)
      requires |before| == i + 1 && |trace| == i + 2 && trace == before + [trace[i + 1]]
      requires forall j :: 0 <= j < i ==> HandledAt(messages, before, trueNows, trueTimes, j)
      requires i < |messages| == |trueNows| == |trueTimes|
      requires Handled(messages[i], trace[i], trace[i + 1], trueNows[i], trueTimes[i])
      ensures forall j :: 0 <= j <= i ==> HandledAt(messages, trace, trueNows, trueTimes, j)
    {
      hide Handled;
      forall j | 0 <= j < i ensures HandledAt(messages, trace, trueNows, trueTimes, j) {
        assert HandledAt(messages, before, trueNows, trueTimes, j);
        assert trace[j] == before[j] && trace[j + 1] == before[j + 1];
      }
    }

    ghost function Now(): Books
      reads this
    {
      Books(timers, due, called, last)
    }

    /** The timer starts at its command time; if it has expired since, it is
        processed as expired. */
    method StartTimer(t: TimerId, time: Tick, now: Tick, ghost trueNow: nat, ghost trueTime: nat)
      requires t in timers && Consistent(Epoch(trueNow), {t}) && now == Wrap(trueNow)
      requires trueTime <= trueNow < trueTime + TICK_MODULUS && time == Wrap(trueTime)
      modifies `timers, `current, `overflow, `due, `called
      ensures Consistent(Epoch(trueNow), {})
      ensures old(called) <= called && OthersKept(t)
      ensures Effect(Start(t, time), old(timers[t]), timers, due, called[|old(called)|..], trueNow, trueTime)
    {
      hide InOrder, Listed, Wrap, Epoch, Repeat, Missed, NextExpiry, NoDuplicates;
      PeriodOf(timers, current, overflow, due, Epoch(trueNow), {t}, t);
      assert {t} - {t} == {};
      Activate(t, timers[t].period, Epoch(trueNow));
      timers := timers[t := timers[t].(active := true)];
      WrapAdd(trueTime, timers[t].period);
      ghost var expiry := trueTime + timers[t].period;
      var expired := InsertTimerInActiveList(
        t, (time + timers[t].period) % TICK_MODULUS, now, time, {t}, trueNow, trueTime);
      if expired {
        if timers[t].autoReload {
          ReloadTimer(t, (time + timers[t].period) % TICK_MODULUS, now, {t}, expiry, trueNow);
        } else {
          SetTimer(timers, current, overflow, due, Epoch(trueNow), {t}, t, timers[t].(active := false));
          timers := timers[t := timers[t].(active := false)];
        }
        called := called + [t];
      }
    }

    /** The switch of prvProcessReceivedCommands, with the timer off its list
        and the time sampled. */
    method HandleCommand(command: Command, now: Tick, ghost trueNow: nat, ghost trueTime: nat)
      requires command.timer in timers && Consistent(Epoch(trueNow), {command.timer}) && now == Wrap(trueNow)
      requires command.Start? ==> trueTime <= trueNow < trueTime + TICK_MODULUS && command.time == Wrap(trueTime)
      requires command.ChangePeriod? ==> command.period > 0
      modifies `timers, `current, `overflow, `due, `called
      ensures Consistent(Epoch(trueNow), {})
      ensures timers.Keys == old(timers.Keys) - Freed(command)
      ensures old(called) <= called && Kept(old(timers), old(due), timers, due, [command.timer])
      ensures Effect(command, old(timers[command.timer]), timers, due, called[|old(called)|..], trueNow, trueTime)
    {
      hide InOrder, Listed, Wrap, Epoch, Repeat, Missed, NextExpiry, Kept, NoDuplicates;
      var t := command.timer;
      PeriodOf(timers, current, overflow, due, Epoch(trueNow), {t}, t);
      assert {t} - {t} == {};
      match command {
        case Start(_, time) => StartTimer(t, time, now, trueNow, trueTime);
        case Stop(_) =>
          SetTimer(timers, current, overflow, due, Epoch(trueNow), {t}, t, timers[t].(active := false));
          timers := timers[t := timers[t].(active := false)];
        case ChangePeriod(_, period) =>
          Activate(t, period, Epoch(trueNow));
          timers := timers[t := timers[t].(active := true, period := period)];
          WrapAdd(trueNow, period);
          var expired := InsertTimerInActiveList(
            t, (now + timers[t].period) % TICK_MODULUS, now, now, {t}, trueNow, trueNow);
          assert !expired;
        case Delete(_, static_) =>
          if static_ {
            SetTimer(timers, current, overflow, due, Epoch(trueNow), {t}, t, timers[t].(active := false));
            timers := timers[t := timers[t].(active := false)];
          } else {
            WithoutFreed(timers, current, overflow, due, Epoch(trueNow), t);
            timers := timers - {t};
          }
      }
      OthersAreKept(old(timers), old(due), timers, due, t);
    }

    static lemma OthersAreKept(timers: map<TimerId, Timer>, due: map<TimerId, nat>,
                               timers': map<TimerId, Timer>, due': map<TimerId, nat>, t: TimerId)
      requires forall u :: u in timers && u != t ==> u in timers' && timers'[u] == timers[u]
      requires forall u :: u in timers && u != t ==> (u in due' <==> u in due) && (u in due' ==> due'[u] == due[u])
      ensures Kept(timers, due, timers', due', [t])
    {
    }

    lemma Activate(t: TimerId, period: nat, epoch: nat)
      requires Consistent(epoch, {t}) && t in timers && 0 < period < TICK_MODULUS
      ensures InOrder(timers[t := timers[t].(active := true, period := period)], current, overflow, due, epoch, {t})
      ensures period == timers[t].period ==>
                InOrder(timers[t := timers[t].(active := true)], current, overflow, due, epoch, {t})
    {
      SetTimer(timers, current, overflow, due, epoch, {t}, t, timers[t].(active := true, period := period));
      SetTimer(timers, current, overflow, due, epoch, {t}, t, timers[t].(active := true, period := timers[t].period));
    }

    static lemma WithoutFreed(timers: map<TimerId, Timer>, current: seq<TimerId>, overflow: seq<TimerId>,
                       due: map<TimerId, nat>, epoch: nat, t: TimerId)
      requires InOrder(timers, current, overflow, due, epoch, {t})
      ensures InOrder(timers - {t}, current, overflow, due, epoch, {})
    {
      ListedFrame(timers, timers - {t}, current, due, due, epoch);
      ListedFrame(timers, timers - {t}, overflow, due, due, epoch + 1);
      hide Listed;
    }

    /** The wrapped command takes effect at its true time. */
    method ProcessCommand(command: Command, tick: Tick, ghost trueNow: nat, ghost trueTime: nat)
      requires Valid() && command.timer in timers
      requires InTime(trueNow, {command.timer}) && tick == Wrap(trueNow)
      requires command.Start? ==> trueTime <= trueNow < trueTime + TICK_MODULUS && command.time == Wrap(trueTime)
      requires command.ChangePeriod? ==> command.period > 0
      modifies this
      ensures Valid() && last == trueNow
      ensures timers.Keys == old(timers.Keys) - Freed(command)
      ensures Handled(command, old(Now()), Now(), trueNow, trueTime)
    {
      hide InOrder, Listed, Wrap, Epoch, Effect, EndingList, Processed, AllFired, Kept;
      var t := command.timer;
      ghost var a := Now();
      TakeOff(timers, current, overflow, due, Epoch(last), {}, t);
      assert {} + {t} == {t};
      if t in current {
        current := Remove(ListV(current, 0), t).items;
      } else if t in overflow {
        overflow := Remove(ListV(overflow, 0), t).items;
      }
      StillInTime(timers, old(current), old(overflow), due, Epoch(last), t);
      CurrentEnds(timers, current, overflow, due, last, called, t);
      ghost var list := current;
      var _ := SampleTimeNow(tick, {t}, trueNow);
      ghost var mid := Now();
      assert EndingList(a, list, t) && Sampled(a, list, mid, trueNow);
      HandleCommand(command, tick, trueNow, trueTime);
    }

    /** A timer that is taken off its list leaves the others where they are. */
    static lemma StillInTime(timers: map<TimerId, Timer>, current: seq<TimerId>, overflow: seq<TimerId>,
                             due: map<TimerId, nat>, epoch: nat, t: TimerId)
      requires InOrder(timers, current, overflow, due, epoch, {})
      ensures t in current ==> forall u :: u in Remove(ListV(current, 0), t).items <==> u in current && u != t
      ensures t in overflow ==> forall u :: u in Remove(ListV(overflow, 0), t).items <==> u in overflow && u != t
      ensures t in current ==> t !in overflow
    {
      if t in current {
        RemoveMembers(ListV(current, 0), t);
      } else if t in overflow {
        RemoveMembers(ListV(overflow, 0), t);
      }
    }

    /** A command is not older than 2^32 ticks. */
    static ghost predicate Timely(command: Command, tick: Tick, trueNow: nat, trueTime: nat) {
      && tick == Wrap(trueNow)
      && (command.Start? ==> trueTime <= trueNow < trueTime + TICK_MODULUS && command.time == Wrap(trueTime))
      && (command.ChangePeriod? ==> command.period > 0)
    }

    static ghost predicate InTimeAfter(trueNows: seq<nat>, i: nat)
      requires i < |trueNows|
    {
      i > 0 ==> trueNows[i - 1] <= trueNows[i] < trueNows[i - 1] + TICK_MODULUS
    }

    static lemma NoneGone(messages: seq<Command>)
      ensures Gone(messages, 0) == {}
    {
    }

    static lemma GoneNext(messages: seq<Command>, n: nat)
      requires n < |messages|
      ensures Gone(messages, n + 1) == Gone(messages, n) + Freed(messages[n])
    {
    }

    /** The timers that a prefix of the messages frees. */
    static ghost function Gone(messages: seq<Command>, n: nat): set<TimerId>
      requires n <= |messages|
    {
      set j | 0 <= j < n && messages[j].Delete? && !messages[j].static_ :: messages[j].timer
    }

    /** prvProcessReceivedCommands: each command takes effect in turn, between the
        moments of the trace. Nobody sends a command for a timer that was freed. */
    method ProcessReceivedCommands(messages: seq<Command>, ticks: seq<Tick>,
                                   ghost trueNows: seq<nat>, ghost trueTimes: seq<nat>)
      returns (ghost trace: seq<Books>)
      requires Valid() && |messages| == |ticks| == |trueNows| == |trueTimes|
      requires messages != [] ==> InTime(trueNows[0], {messages[0].timer})
      requires forall i :: 0 <= i < |messages| ==>
                 && Timely(messages[i], ticks[i], trueNows[i], trueTimes[i])
                 && InTimeAfter(trueNows, i)
                 && messages[i].timer in timers && messages[i].timer !in Gone(messages, i)
      modifies this
      ensures timers.Keys == old(timers.Keys) - Gone(messages, |messages|)
      ensures Valid() && (messages != [] ==> last == trueNows[|messages| - 1])
      ensures |trace| == |messages| + 1 && trace[0] == old(Now()) && trace[|messages|] == Now()
      ensures forall i :: 0 <= i < |messages| ==> HandledAt(messages, trace, trueNows, trueTimes, i)
    {
      hide InOrder, Listed, Wrap, Epoch, Gone, Handled;
      trace := [Now()];
      var i := 0;
      NoneGone(messages);
      while i < |messages|
        invariant i <= |messages| && Valid()
        invariant timers.Keys == old(timers.Keys) - Gone(messages, i)
        invariant i > 0 ==> last == trueNows[i - 1]
        invariant |trace| == i + 1 && trace[0] == old(Now()) && trace[i] == Now()
        invariant forall j :: 0 <= j < i ==> HandledAt(messages, trace, trueNows, trueTimes, j)
        invariant i == 0 ==>
                    current == old(current) && overflow == old(overflow) && timers == old(timers) && last == old(last)
      {
        assert Timely(messages[i], ticks[i], trueNows[i], trueTimes[i]) && InTimeAfter(trueNows, i);
        assert messages[i].timer in old(timers.Keys) - Gone(messages, i);
        GoneNext(messages, i);
        ProcessCommand(messages[i], ticks[i], trueNows[i], trueTimes[i]);
        ghost var before := trace;
        trace := trace + [Now()];
        HandledSoFar(messages, before, trace, trueNows, trueTimes, i);
        i := i + 1;
      }
    }
  }
}
