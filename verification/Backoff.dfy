/** The publish retry delay, computed as Go does: a shift of a signed 64-bit number of
    nanoseconds, then a cap. */
module Backoff {

  const TWO63: int := 0x8000_0000_0000_0000
  const TWO64: int := 0x1_0000_0000_0000_0000

  /** Signed 64-bit wrap-around. */
  function Wrap64(x: int): int {
    var m := x % TWO64;
    if m < TWO63 then m else m - TWO64
  }

  function Pow2(n: nat): nat
    ensures Pow2(n) >= 1
  {
    if n == 0 then 1 else 2 * Pow2(n - 1)
  }

  function ShiftLeft64(x: int, count: nat): int {
    Wrap64(x * Pow2(count))
  }

  /** CommandRetryInitial << (attempts-1), capped at CommandRetryMax. */
  function Delay(initial: int, max: int, attempts: nat): int
    requires attempts >= 1
  {
    var delay := ShiftLeft64(initial, attempts - 1);
    if delay > max then max else delay
  }

  /** What the delay is meant to be. */
  function IdealDelay(initial: int, max: int, attempts: nat): int
    requires attempts >= 1
  {
    var ideal := initial * Pow2(attempts - 1);
    if ideal > max then max else ideal
  }

  predicate ValidConfig(initial: int, max: int) {
    0 < initial < TWO63 && 0 < max < TWO63
  }

  lemma {:induction false} Pow2Monotone(initial: int, m: nat, n: nat)
    requires m <= n && initial > 0
    ensures Pow2(m) <= Pow2(n)
    ensures initial * Pow2(m) <= initial * Pow2(n)
  {
    if m < n {
      Pow2Monotone(initial, m, n - 1);
      assert initial * Pow2(n) == 2 * (initial * Pow2(n - 1));
    }
  }

  lemma {:induction false} Pow2Sum(m: nat, n: nat)
    ensures Pow2(m + n) == Pow2(m) * Pow2(n)
  {
    if n > 0 {
      Pow2Sum(m, n - 1);
    }
  }

  /** One delay is right exactly when the shift did not overflow or the overflowed value
      still exceeds the cap. */
  lemma DelayExact(initial: int, max: int, attempts: nat)
    requires ValidConfig(initial, max) && attempts >= 1
    ensures Delay(initial, max, attempts) == IdealDelay(initial, max, attempts) <==>
              initial * Pow2(attempts - 1) < TWO63 || max <= ShiftLeft64(initial, attempts - 1)
  {
    var ideal := initial * Pow2(attempts - 1);
    assert ideal > 0;
    if ideal < TWO63 {
      assert ideal % TWO64 == ideal;
    }
  }

  /** The first attempt whose shift overflows is scheduled in the past. */
  lemma FirstOverflowIsNegative(initial: int, max: int, attempts: nat)
    requires ValidConfig(initial, max) && attempts >= 2
    requires initial * Pow2(attempts - 2) < TWO63 <= initial * Pow2(attempts - 1)
    ensures Delay(initial, max, attempts) < 0
  {
    var ideal := initial * Pow2(attempts - 1);
    assert ideal == 2 * (initial * Pow2(attempts - 2));
    assert ideal % TWO64 == ideal;
  }

  /** All delays up to attempt n are the intended ones exactly when the shift for n itself
      fits in 63 bits. */
  lemma {:induction false} BackoffExact(initial: int, max: int, n: nat)
    requires ValidConfig(initial, max) && n >= 1
    ensures (forall k :: 1 <= k <= n ==> Delay(initial, max, k) == IdealDelay(initial, max, k)) <==>
              initial * Pow2(n - 1) < TWO63
  {
    if initial * Pow2(n - 1) < TWO63 {
      forall k | 1 <= k <= n ensures Delay(initial, max, k) == IdealDelay(initial, max, k) {
        Pow2Monotone(initial, k - 1, n - 1);
        DelayExact(initial, max, k);
      }
    } else {
      assert n > 1;
      if initial * Pow2(n - 2) < TWO63 {
        FirstOverflowIsNegative(initial, max, n);
        assert initial * Pow2(n - 1) > 0;
      } else {
        BackoffExact(initial, max, n - 1);
      }
    }
  }

  /** Within that range the delays are positive and never shrink. */
  lemma BackoffMonotone(initial: int, max: int, m: nat, n: nat)
    requires ValidConfig(initial, max) && 1 <= m <= n && initial * Pow2(n - 1) < TWO63
    ensures 0 < Delay(initial, max, m) <= Delay(initial, max, n) <= max
  {
    BackoffExact(initial, max, n);
    Pow2Monotone(initial, m - 1, n - 1);
    assert initial * Pow2(m - 1) > 0;
  }

  /** The waits scheduled before attempt n+1. */
  function TotalWait(initial: int, max: int, n: nat): int {
    if n == 0 then 0 else TotalWait(initial, max, n - 1) + Delay(initial, max, n)
  }

  /** Whatever overflows, the scheduled waits before exhaustion never add up to more than
      (maxAttempts-1) * max. */
  lemma {:induction false} TotalWaitBounded(initial: int, max: int, n: nat)
    requires ValidConfig(initial, max)
    ensures TotalWait(initial, max, n) <= n * max
  {
    if n > 0 {
      TotalWaitBounded(initial, max, n - 1);
    }
  }

  const DEFAULT_INITIAL: int := 500_000_000
  const DEFAULT_MAX: int := 5_000_000_000

  /** With the default 500 ms, 35 is the last attempt up to which the schedule is right;
      the 36th would be retried at once. */
  lemma DefaultBackoffLimit()
    ensures DEFAULT_INITIAL * Pow2(34) < TWO63 <= DEFAULT_INITIAL * Pow2(35)
    ensures Delay(DEFAULT_INITIAL, DEFAULT_MAX, 36) < 0
  {
    assert Pow2(2) == 4;
    Pow2Sum(2, 2);
    Pow2Sum(4, 4);
    Pow2Sum(8, 8);
    assert Pow2(16) == 0x1_0000;
    assert Pow2(17) == 0x2_0000;
    Pow2Sum(17, 17);
    assert Pow2(35) == 2 * Pow2(34);
    FirstOverflowIsNegative(DEFAULT_INITIAL, DEFAULT_MAX, 36);
  }
}
