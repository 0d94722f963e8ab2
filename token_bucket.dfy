/**
 * The smooth-bursty token bucket of the rate limiter: a stock of stored permits
 * (burst credit) and a virtual timeline `nextPermitMicros` at which the next
 * permit becomes free. Java `long` values are integers kept in the 64-bit range,
 * with Java's wrap-around written out where the source relies on it; `double`
 * fields are reals. The clock is not read here: every reading of "now" is a
 * parameter, and the sleep the caller would perform is returned as a number.
 */
module TokenBucket {

  const LONG_MIN: int := -0x8000_0000_0000_0000
  const LONG_MAX: int := 0x7FFF_FFFF_FFFF_FFFF
  const TWO_64: int := 0x1_0000_0000_0000_0000
  const INT_MAX: int := 0x7FFF_FFFF

  /** Integer.MIN_VALUE, the sentinel wait time that signals a timeout. */
  const TIMEOUT: int := -0x8000_0000

  /** Microseconds in one second. */
  const MICROSECOND_OF_ONE_SECOND: int := 1_000_000

  predicate IsLong(x: int) {
    LONG_MIN <= x <= LONG_MAX
  }

  /** Java's `long` addition result: the exact value reduced into the 64-bit two's-complement range. */
  function Wrap(x: int): (r: int)
    ensures IsLong(r)
    ensures IsLong(x) ==> r == x
    ensures LONG_MAX < x <= LONG_MAX + TWO_64 ==> r == x - TWO_64
    ensures LONG_MIN - TWO_64 <= x < LONG_MIN ==> r == x + TWO_64
  {
    (x - LONG_MIN) % TWO_64 + LONG_MIN
  }

  /** The exact value clamped into the 64-bit range: the reference for saturating addition. */
  function ClampLong(x: int): int {
    if x > LONG_MAX then LONG_MAX else if x < LONG_MIN then LONG_MIN else x
  }

  function MaxInt(a: int, b: int): int {
    if a >= b then a else b
  }

  function MinReal(a: real, b: real): real {
    if a <= b then a else b
  }

  /**
   * saturatedAdd as the source computes it: the wrapping sum is returned when
   * the operands' sign bits differ or the sum keeps the sign of `a`; otherwise
   * `Long.MAX_VALUE + ((naiveSum >>> 63) ^ 1)` (the shift isolates the sign bit,
   * and `^ 1` flips a single bit, i.e. `1 - bit`).
   * The contract is the independent reference: the exact sum, clamped.
   */
  function SaturatedAdd(a: int, b: int): (r: int)
    requires IsLong(a) && IsLong(b)
    ensures r == ClampLong(a + b)
    ensures IsLong(r)
  {
    var naiveSum := Wrap(a + b);
    if (a < 0) != (b < 0) || (a < 0) == (naiveSum < 0) then
      naiveSum
    else
      var signBit := if naiveSum < 0 then 1 else 0;
      Wrap(LONG_MAX + (1 - signBit))
  }

  /** Java's `(long)` cast of a non-negative double: truncation, saturating at Long.MAX_VALUE. */
  function ToLong(x: real): (r: int)
    requires x >= 0.0
    ensures 0 <= r <= LONG_MAX
    ensures r as real <= x
    ensures r < LONG_MAX ==> x < (r + 1) as real
  {
    if x >= (LONG_MAX + 1) as real then LONG_MAX else x.Floor
  }

  datatype TimeUnit = NANOSECONDS | MICROSECONDS | MILLISECONDS | SECONDS | MINUTES | HOURS | DAYS

  /** Microseconds per unit, for the units at least as coarse as a microsecond. */
  function MicrosPerUnit(unit: TimeUnit): nat
    requires unit != NANOSECONDS
  {
    match unit
    case MICROSECONDS => 1
    case MILLISECONDS => 1_000
    case SECONDS => 1_000_000
    case MINUTES => 60_000_000
    case HOURS => 3_600_000_000
    case DAYS => 86_400_000_000
  }

  /**
   * TimeUnit.toMicros of a positive duration, as the JDK defines it: nanoseconds
   * are divided by 1000; coarser units are multiplied, returning Long.MAX_VALUE
   * when the product would exceed `Long.MAX_VALUE / factor`.
   */
  function ToMicros(d: int, unit: TimeUnit): (r: int)
    requires 0 < d <= LONG_MAX
    ensures 0 <= r <= LONG_MAX
    ensures unit == NANOSECONDS ==> r * 1000 <= d < (r + 1) * 1000
    ensures unit != NANOSECONDS ==> r == ClampLong(d * MicrosPerUnit(unit))
  {
    if unit == NANOSECONDS then d / 1000
    else
      var m := MicrosPerUnit(unit);
      if d > LONG_MAX / m then LONG_MAX else d * m
  }

  /** The timeout of `doAcquire(permits, timeout, unit)` in microseconds: a non-positive timeout counts as 0. */
  function TimeoutMicros(timeout: int, unit: TimeUnit): (r: int)
    requires IsLong(timeout)
    ensures 0 <= r <= LONG_MAX
    ensures timeout <= 0 ==> r == 0
    ensures timeout > 0 && unit != NANOSECONDS ==> r == ClampLong(timeout * MicrosPerUnit(unit))
    ensures timeout > 0 && unit == NANOSECONDS ==> r == timeout / 1000
  {
    if timeout <= 0 then 0 else ToMicros(timeout, unit)
  }

  /**
   * isTimeout exactly as written: `nextPermitMicros > nowMicros + timeoutMicros`
   * with the addition in wrapping `long` arithmetic. See IsTimeoutWrapsOnLargeTimeout.
   */
  function IsTimeoutAsWritten(nextPermitMicros: int, nowMicros: int, timeoutMicros: int): bool
    requires IsLong(nowMicros) && IsLong(timeoutMicros)
  {
    nextPermitMicros > Wrap(nowMicros + timeoutMicros)
  }

  /**
   * With the next permit already due (`next <= now`) and the largest timeout,
   * the wrapped sum turns negative and the source reports a timeout.
   */
  lemma IsTimeoutWrapsOnLargeTimeout()
    ensures var next, now, timeout := 1, 1, LONG_MAX;
            next <= now && IsTimeoutAsWritten(next, now, timeout)
  {
    assert Wrap(1 + LONG_MAX) == LONG_MIN;
  }

  /**
   * isTimeout as intended: the next free permit lies beyond the deadline
   * `now + timeout`. Written without the overflowing sum, as
   * `nextPermitMicros - timeoutMicros > nowMicros` (both operands are
   * non-negative longs, so the difference cannot overflow).
   */
  function IsTimeout(nextPermitMicros: int, nowMicros: int, timeoutMicros: int): (r: bool)
    requires 0 <= nextPermitMicros <= LONG_MAX && 0 <= timeoutMicros <= LONG_MAX
    ensures r <==> nextPermitMicros > nowMicros + timeoutMicros
    ensures nextPermitMicros <= nowMicros ==> !r
  {
    nextPermitMicros - timeoutMicros > nowMicros
  }

  /** The corrected test agrees with the source whenever the source's sum does not overflow. */
  lemma IsTimeoutAgreesWithoutOverflow(nextPermitMicros: int, nowMicros: int, timeoutMicros: int)
    requires 0 <= nextPermitMicros <= LONG_MAX && 0 <= timeoutMicros <= LONG_MAX
    requires IsLong(nowMicros) && IsLong(nowMicros + timeoutMicros)
    ensures IsTimeout(nextPermitMicros, nowMicros, timeoutMicros)
         == IsTimeoutAsWritten(nextPermitMicros, nowMicros, timeoutMicros)
  {
  }

  /**
   * adjustRequiredPermitsWaitTime: the caller waits only for the time reserved
   * before it, `max(nextPermitMicros - startTime, 0)`; the timeout and the
   * freshly computed wait time are not used.
   */
  function AdjustRequiredPermitsWaitTime(nextPermitMicros: int, startTime: int, timeoutMicros: int,
                                         nowMicros: int, waitTime: int): (r: int)
    ensures r >= 0 && r != TIMEOUT
    ensures nextPermitMicros > startTime ==> r == nextPermitMicros - startTime
    ensures nextPermitMicros <= startTime ==> r == 0
  {
    MaxInt(nextPermitMicros - startTime, 0)
  }

  /** getPermits: the permits that `seconds` of steady-state pacing produce. */
  function GetPermits(seconds: int, permitIntervalMicros: real): (r: real)
    requires permitIntervalMicros > 0.0
    ensures r * permitIntervalMicros == (seconds * MICROSECOND_OF_ONE_SECOND) as real
  {
    (seconds * MICROSECOND_OF_ONE_SECOND) as real / permitIntervalMicros
  }

  /** The two mutable fields of a limiter, as a value. */
  datatype Permits = Permits(stored: real, next: int)

  /** The field invariant: a valid timeline and a permit stock within its cap (when it has one). */
  predicate WellFormed(s: Permits, maxStoredPermits: real) {
    && 0 <= s.next <= LONG_MAX
    && s.stored >= 0.0
    && (maxStoredPermits > 0.0 ==> s.stored <= maxStoredPermits)
  }

  lemma DivNonNegative(x: real, y: real)
    requires x >= 0.0 && y > 0.0
    ensures x / y >= 0.0
  {
    var q := x / y;
    assert q * y == x;
  }

  /**
   * refresh(now): when `now` is past `nextPermitMicros`, the elapsed time is
   * converted into permits at one per interval and added to the stock (capped at
   * `maxStoredPermits` when that is positive), and the timeline jumps to `now`.
   */
  function Refreshed(s: Permits, nowMicros: int, maxStoredPermits: real, permitIntervalMicros: real): (r: Permits)
    requires permitIntervalMicros > 0.0
    ensures nowMicros <= s.next ==> r == s
    ensures r.next == MaxInt(s.next, nowMicros)
    ensures nowMicros > s.next && maxStoredPermits <= 0.0 ==>
              r.stored == s.stored + (nowMicros - s.next) as real / permitIntervalMicros
    ensures nowMicros > s.next && maxStoredPermits > 0.0 ==>
              r.stored == MinReal(maxStoredPermits, s.stored + (nowMicros - s.next) as real / permitIntervalMicros)
    ensures WellFormed(s, maxStoredPermits) && nowMicros <= LONG_MAX ==> WellFormed(r, maxStoredPermits)
    ensures WellFormed(s, maxStoredPermits) ==> r.stored >= s.stored
  {
    if nowMicros > s.next then
      var elapsed := (nowMicros - s.next) as real / permitIntervalMicros;
      DivNonNegative((nowMicros - s.next) as real, permitIntervalMicros);
      var permits := s.stored + elapsed;
      Permits(if maxStoredPermits <= 0.0 then permits else MinReal(maxStoredPermits, permits), nowMicros)
    else
      s
  }

  /** After `seconds` of idleness an uncapped limiter has gained exactly getPermits(seconds). */
  lemma IdleSecondsRefill(s: Permits, seconds: int, maxStoredPermits: real, permitIntervalMicros: real)
    requires permitIntervalMicros > 0.0 && maxStoredPermits <= 0.0 && seconds > 0
    ensures Refreshed(s, s.next + seconds * MICROSECOND_OF_ONE_SECOND, maxStoredPermits, permitIntervalMicros).stored
         == s.stored + GetPermits(seconds, permitIntervalMicros)
  {
    var now := s.next + seconds * MICROSECOND_OF_ONE_SECOND;
    assert now - s.next == seconds * MICROSECOND_OF_ONE_SECOND;
  }

  /** What one reservation leaves behind and how long its caller sleeps. */
  datatype Reservation = Reservation(after: Permits, wait: int)

  /**
   * The pacing cost of the permits the stock does not cover, `(long) (lack *
   * interval)` with `lack = permits - min(permits, stored)`.
   */
  function PacingMicros(permits: int, stored: real, permitIntervalMicros: real): (r: int)
    requires permitIntervalMicros > 0.0 && permits >= 0
    ensures 0 <= r <= LONG_MAX
    ensures permits as real <= stored ==> r == 0
    ensures permits as real > stored ==>
              var cost := (permits as real - stored) * permitIntervalMicros;
              r as real <= cost && (r < LONG_MAX ==> cost < (r + 1) as real)
  {
    var lack := permits as real - MinReal(permits as real, stored);
    assert lack >= 0.0;
    ToLong(lack * permitIntervalMicros)
  }

  /**
   * estimateRequiredPermitsWaitTime on values: refresh at `nowMicros`, take
   * `min(permits, stored)` from the stock, pace the lacking permits at one
   * interval each (the base store wait is 0), let the caller wait only for the
   * time reserved before it, and push the timeline forward by the pacing cost
   * with saturating addition.
   */
  function Reserve(s: Permits, permits: int, startTime: int, nowMicros: int,
                   maxStoredPermits: real, permitIntervalMicros: real): (r: Reservation)
    requires permitIntervalMicros > 0.0 && permits >= 0
    requires WellFormed(s, maxStoredPermits) && IsLong(nowMicros)
    ensures var f := Refreshed(s, nowMicros, maxStoredPermits, permitIntervalMicros);
            && r.after.stored == (if f.stored >= permits as real then f.stored - permits as real else 0.0)
            && r.after.next == ClampLong(f.next + PacingMicros(permits, f.stored, permitIntervalMicros))
            && (permits as real <= f.stored ==> r.after.next == f.next)
            && r.wait == MaxInt(f.next - startTime, 0)
    ensures r.wait >= 0 && r.wait != TIMEOUT
    ensures WellFormed(r.after, maxStoredPermits)
    ensures r.after.next >= s.next
  {
    var f := Refreshed(s, nowMicros, maxStoredPermits, permitIntervalMicros);
    var available := MinReal(permits as real, f.stored);
    var waitTime := 0 + PacingMicros(permits, f.stored, permitIntervalMicros);
    var result := AdjustRequiredPermitsWaitTime(f.next, startTime, 0, nowMicros, waitTime);
    Reservation(Permits(f.stored - available, SaturatedAdd(f.next, waitTime)), result)
  }

  /**
   * A bucket of 10 permits per second (one per 100 000 us) with a burst of 5,
   * idle for ten seconds: five permits are granted at once, the next caller
   * also proceeds at once but reserves the following interval, and the caller
   * after it waits that full interval.
   */
  lemma BurstThenPacing()
    ensures var interval, burst, now := 100_000.0, 5.0, 10_000_000;
            var r1 := Reserve(Permits(0.0, 0), 5, now, now, burst, interval);
            var r2 := Reserve(r1.after, 1, now, now, burst, interval);
            var r3 := Reserve(r2.after, 1, now, now, burst, interval);
            && r1.wait == 0 && r1.after == Permits(0.0, now)
            && r2.wait == 0 && r2.after == Permits(0.0, now + 100_000)
            && r3.wait == 100_000
  {
    var interval, burst, now := 100_000.0, 5.0, 10_000_000;
    var f1 := Refreshed(Permits(0.0, 0), now, burst, interval);
    assert (now - 0) as real / interval == 100.0;
    assert f1 == Permits(5.0, now);
    var r1 := Reserve(Permits(0.0, 0), 5, now, now, burst, interval);
    assert r1.after == Permits(0.0, now);
    var r2 := Reserve(r1.after, 1, now, now, burst, interval);
    assert PacingMicros(1, 0.0, interval) == 100_000;
    assert r2.after == Permits(0.0, now + 100_000);
  }

  /**
   * One limiter instance. `maxStoredPermits` and `permitIntervalMicros` are fixed
   * at construction (their sources, the policy and the sliding window, are inputs).
   */
  class TokenBucketLimiter {
    const maxStoredPermits: real
    const permitIntervalMicros: real
    var storedPermits: real
    var nextPermitMicros: int

    ghost predicate Valid()
      reads this
    {
      permitIntervalMicros > 0.0 && WellFormed(State(), maxStoredPermits)
    }

    function State(): Permits
      reads this
    {
      Permits(storedPermits, nextPermitMicros)
    }

    /** A fresh limiter starts from the Java defaults (no permits, timeline 0) and refreshes at `nowMicros`. */
    constructor (maxStoredPermits: real, permitIntervalMicros: real, nowMicros: int)
      requires permitIntervalMicros > 0.0 && IsLong(nowMicros)
      ensures Valid()
      ensures this.maxStoredPermits == maxStoredPermits && this.permitIntervalMicros == permitIntervalMicros
      ensures State() == Refreshed(Permits(0.0, 0), nowMicros, maxStoredPermits, permitIntervalMicros)
    {
      this.maxStoredPermits := maxStoredPermits;
      this.permitIntervalMicros := permitIntervalMicros;
      storedPermits := 0.0;
      nextPermitMicros := 0;
      new;
      Refresh(nowMicros);
    }

    /** refresh(nowMicros), in place. */
    method Refresh(nowMicros: int)
      requires Valid() && IsLong(nowMicros)
      modifies this
      ensures Valid()
      ensures State() == Refreshed(old(State()), nowMicros, maxStoredPermits, permitIntervalMicros)
    {
      if nowMicros > nextPermitMicros {
        // coolDownIntervalMicros() is the permit interval
        DivNonNegative((nowMicros - nextPermitMicros) as real, permitIntervalMicros);
        var permits := (nowMicros - nextPermitMicros) as real / permitIntervalMicros;
        permits := storedPermits + permits;
        storedPermits := if maxStoredPermits <= 0.0 then permits else MinReal(maxStoredPermits, permits);
        nextPermitMicros := nowMicros;
      }
    }

    /**
     * estimateRequiredPermitsWaitTime(permits, startTime, timeoutMicros), with the
     * clock reading it takes first passed as `nowMicros`. The TIMEOUT sentinel
     * test is kept; the base adjustment never produces it.
     */
    method EstimateRequiredPermitsWaitTime(permits: int, startTime: int, timeoutMicros: int, nowMicros: int)
      returns (result: int)
      requires Valid() && 0 <= permits <= INT_MAX && IsLong(nowMicros)
      modifies this
      ensures Valid()
      ensures var r := Reserve(old(State()), permits, startTime, nowMicros, maxStoredPermits, permitIntervalMicros);
              State() == r.after && result == r.wait
    {
      Refresh(nowMicros);
      var available := MinReal(permits as real, storedPermits);
      // estimateStorePermitsWaitTime is 0 in the base limiter
      var waitTime := 0 + PacingMicros(permits, storedPermits, permitIntervalMicros);
      result := AdjustRequiredPermitsWaitTime(nextPermitMicros, startTime, timeoutMicros, nowMicros, waitTime);
      if result == TIMEOUT {
        return TIMEOUT;
      }
      nextPermitMicros := SaturatedAdd(nextPermitMicros, waitTime);
      storedPermits := storedPermits - available;
    }

    /**
     * doAcquire(permits, nowMicros, timeoutMicros): inside the critical section,
     * refuse when the next permit lies beyond the deadline, otherwise reserve.
     * `acquired` is the boolean result and `sleepMicros` the time the caller
     * then sleeps (0 when refused). `refreshMicros` is the clock reading taken
     * inside the reservation.
     */
    method DoAcquireAt(permits: int, nowMicros: int, timeoutMicros: int, refreshMicros: int)
      returns (acquired: bool, sleepMicros: int)
      requires Valid() && 0 <= permits <= INT_MAX && IsLong(nowMicros) && IsLong(refreshMicros)
      requires 0 <= timeoutMicros <= LONG_MAX
      modifies this
      ensures Valid()
      ensures acquired <==> !IsTimeout(old(nextPermitMicros), nowMicros, timeoutMicros)
      ensures IsLong(nowMicros + timeoutMicros) ==>
                (acquired <==> !IsTimeoutAsWritten(old(nextPermitMicros), nowMicros, timeoutMicros))
      ensures !acquired ==> State() == old(State()) && sleepMicros == 0
      ensures acquired ==>
                var r := Reserve(old(State()), permits, nowMicros, refreshMicros, maxStoredPermits, permitIntervalMicros);
                State() == r.after && sleepMicros == r.wait
      ensures sleepMicros >= 0
    {
      if IsTimeout(nextPermitMicros, nowMicros, timeoutMicros) {
        return false, 0;
      }
      var microsToWait := EstimateRequiredPermitsWaitTime(permits, nowMicros, timeoutMicros, refreshMicros);
      if microsToWait == TIMEOUT {
        return false, 0;
      }
      acquired, sleepMicros := true, microsToWait;
    }

    /** isFull(): the base limiter is never full. */
    function IsFull(): (r: bool)
      ensures !r
    {
      false
    }

    /**
     * doAcquire(permits, timeout, unit): convert the timeout (non-positive means
     * 0), read the clock (`nowMicros`), take the lock-free early exit when timed
     * out and full (never, since the base limiter is never full), then acquire.
     */
    method DoAcquire(permits: int, timeout: int, unit: TimeUnit, nowMicros: int, refreshMicros: int)
      returns (acquired: bool, sleepMicros: int)
      requires Valid() && 0 <= permits <= INT_MAX && IsLong(timeout)
      requires IsLong(nowMicros) && IsLong(refreshMicros)
      modifies this
      ensures Valid()
      ensures var t := TimeoutMicros(timeout, unit);
              && (acquired <==> !IsTimeout(old(nextPermitMicros), nowMicros, t))
              && (IsLong(nowMicros + t) ==> (acquired <==> !IsTimeoutAsWritten(old(nextPermitMicros), nowMicros, t)))
              && (!acquired ==> State() == old(State()) && sleepMicros == 0)
              && (acquired ==>
                    var r := Reserve(old(State()), permits, nowMicros, refreshMicros, maxStoredPermits, permitIntervalMicros);
                    State() == r.after && sleepMicros == r.wait)
    {
      var timeoutMicros := TimeoutMicros(timeout, unit);
      var full := IsFull();
      if IsTimeout(nextPermitMicros, nowMicros, timeoutMicros) && full {
        return false, 0;
      }
      acquired, sleepMicros := DoAcquireAt(permits, nowMicros, timeoutMicros, refreshMicros);
    }
  }
}
