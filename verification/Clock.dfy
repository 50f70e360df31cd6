/** A clock that never wraps, and what the 32-bit tick count shows of it. */
module Clock {
  import opened Lists

  function Wrap(t: nat): Tick {
    t % TICK_MODULUS
  }

  function Epoch(t: nat): nat {
    t / TICK_MODULUS
  }

  /** The wrapping subtraction of two tick counts. */
  function Minus(a: Tick, b: Tick): Tick {
    (a + TICK_MODULUS - b) % TICK_MODULUS
  }

  /** Less than 2^32 ticks apart, the difference of the counts is the true one. */
  lemma Differences(command: nat, now: nat)
    requires command <= now < command + TICK_MODULUS
    ensures Minus(Wrap(now), Wrap(command)) == now - command
  {
  }
}
