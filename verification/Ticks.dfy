/** The 32-bit millisecond clock (`GetTickCount`), its wrap-around, and deadline comparison. */
module Ticks {

  const TICK_MODULUS: int := 0x1_0000_0000

  const HALF_RANGE: int := 0x8000_0000

  /** A `DWORD` tick value. */
  type Tick = t: int | 0 <= t < TICK_MODULUS

  /** What `GetTickCount` reports when `ms` milliseconds have really passed. */
  function TickOf(ms: int): Tick {
    ms % TICK_MODULUS
  }

  /** `DWORD` addition. */
  function AddTicks(t: Tick, delta: nat): Tick {
    (t + delta) % TICK_MODULUS
  }

  /** `DWORD` subtraction. */
  function TicksSince(now: Tick, earlier: Tick): Tick {
    (now - earlier) % TICK_MODULUS
  }

  /** The code stores a tick as 1 where 0 would read as "never". */
  function NonZeroTick(t: Tick): Tick {
    if t == 0 then 1 else t
  }

  /** `static_cast<LONG>(now - deadline) >= 0` on 32-bit values. */
  predicate TickPassed(now: Tick, deadline: Tick) {
    TicksSince(now, deadline) < HALF_RANGE
  }

  /** Wrapped deadline arithmetic commutes with real time. */
  lemma AddTicksIsReal(ms: int, delta: nat)
    ensures AddTicks(TickOf(ms), delta) == TickOf(ms + delta)
  {
  }

  /** The wrapped comparison is the true one exactly while the gap fits in 31 bits. */
  lemma TickPassedIsExact(now: int, deadline: int)
    ensures -HALF_RANGE <= now - deadline < HALF_RANGE ==>
              (TickPassed(TickOf(now), TickOf(deadline)) <==> now >= deadline)
    ensures TickPassed(TickOf(now), TickOf(deadline)) <==> (now - deadline) % TICK_MODULUS < HALF_RANGE
  {
  }

  lemma ZeroIsStoredAsOne(ms: int)
    requires TickOf(ms) == 0
    ensures NonZeroTick(TickOf(ms)) == TickOf(ms + 1)
  {
  }

  /** A wait of `delta` that began at `since` is never cut short, however long ago it began. */
  lemma NeverPassedEarly(since: int, delta: nat, now: int)
    requires since <= now && delta <= HALF_RANGE
    requires TickPassed(TickOf(now), AddTicks(TickOf(since), delta))
    ensures now >= since + delta
  {
    AddTicksIsReal(since, delta);
    TickPassedIsExact(now, since + delta);
  }

  /** The same for a start tick that was stored through `NonZeroTick`. */
  lemma NeverPassedEarlyNonZero(since: int, delta: nat, now: int)
    requires since <= now && delta < HALF_RANGE
    requires TickPassed(TickOf(now), AddTicks(NonZeroTick(TickOf(since)), delta))
    ensures now >= since + delta
  {
    if TickOf(since) == 0 {
      ZeroIsStoredAsOne(since);
      AddTicksIsReal(since + 1, delta);
      TickPassedIsExact(now, since + 1 + delta);
    } else {
      NeverPassedEarly(since, delta, now);
    }
  }

  /** The wait of `delta` that began at `since` reads as not over exactly when the true difference, modulo
      2^32, lies in the upper half: before the deadline, and again for as long as half the range once it was
      missed by half the range, and so on in every round of the clock. */
  lemma NotPassedMeans(since: int, delta: nat, now: int)
    ensures var late := now - (since + delta);
            && (!TickPassed(TickOf(now), AddTicks(TickOf(since), delta)) <==> late % TICK_MODULUS >= HALF_RANGE)
            && (-HALF_RANGE <= late < TICK_MODULUS ==>
                  (!TickPassed(TickOf(now), AddTicks(TickOf(since), delta)) <==> late < 0 || late >= HALF_RANGE))
  {
    AddTicksIsReal(since, delta);
    TickPassedIsExact(now, since + delta);
  }

  /** Where a deadline lies that was computed from a start tick stored through `NonZeroTick`. */
  function StoredDeadline(since: int, delta: nat): int {
    since + delta + if TickOf(since) == 0 then 1 else 0
  }

  /** The same for such a deadline. */
  lemma NotPassedMeansNonZero(since: int, delta: nat, now: int)
    ensures var late := now - StoredDeadline(since, delta);
            var waits := !TickPassed(TickOf(now), AddTicks(NonZeroTick(TickOf(since)), delta));
            && (waits <==> late % TICK_MODULUS >= HALF_RANGE)
            && (-HALF_RANGE <= late < TICK_MODULUS ==> (waits <==> late < 0 || late >= HALF_RANGE))
  {
    if TickOf(since) == 0 {
      ZeroIsStoredAsOne(since);
      NotPassedMeans(since + 1, delta, now);
    } else {
      NotPassedMeans(since, delta, now);
    }
  }
}
