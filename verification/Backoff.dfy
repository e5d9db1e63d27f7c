/**
 The restart delay of the frpc supervisor: doubling in 64-bit arithmetic with a cap,
 and the closed form it is meant to follow.
 */
module Backoff {

  const POW62: int := 0x4000_0000_0000_0000
  const POW63: int := 0x8000_0000_0000_0000
  const POW64: int := 0x1_0000_0000_0000_0000
  const SECOND: int := 1_000_000_000

  /** time.Duration: a signed 64-bit number of nanoseconds. */
  type Duration = x: int | -POW63 <= x < POW63

  /** Doubling in two's complement: a bit moves out at the top. */
  function Twice(d: Duration): (t: Duration)
    ensures t == 2 * d || t == 2 * d - POW64 || t == 2 * d + POW64
  {
    if 2 * d >= POW63 then 2 * d - POW64
    else if 2 * d < -POW63 then 2 * d + POW64
    else 2 * d
  }

  function Min(a: int, b: int): int {
    if a <= b then a else b
  }

  function Max(a: int, b: int): int {
    if a >= b then a else b
  }

  function Pow2(n: nat): (p: nat)
    ensures p >= 1
  {
    if n == 0 then 1 else 2 * Pow2(n - 1)
  }

  /** One backoff step: double, then cap. */
  function Doubled(delay: Duration, cap: Duration): Duration {
    var d := Twice(delay);
    if d > cap then cap else d
  }

  /** The delay after `failures` backoff steps from the initial delay. */
  function DelayAfter(initial: Duration, cap: Duration, failures: nat): Duration {
    if failures == 0 then initial else Doubled(DelayAfter(initial, cap, failures - 1), cap)
  }

  /** initial * 2^n in unbounded integers. */
  function Scaled(initial: int, n: nat): int {
    if n == 0 then initial else 2 * Scaled(initial, n - 1)
  }

  /** What exponential backoff with a cap is documented to be: min(initial * 2^failures, cap). */
  function ClosedForm(initial: int, cap: int, failures: nat): int {
    if failures == 0 then initial else Min(Scaled(initial, failures), cap)
  }

  /** Both durations are small enough that doubling stays within 64 bits. */
  predicate Narrow(initial: Duration, cap: Duration) {
    initial < POW62 && cap < POW62
  }

  lemma {:induction false} ScaledIsProduct(initial: int, n: nat)
    ensures Scaled(initial, n) == initial * Pow2(n)
  {
    if n > 0 {
      ScaledIsProduct(initial, n - 1);
      assert initial * (2 * Pow2(n - 1)) == 2 * (initial * Pow2(n - 1));
    }
  }

  lemma {:induction false} ScaledGrows(initial: int, m: nat, n: nat)
    requires 0 <= initial && m <= n
    ensures 0 <= Scaled(initial, m) <= Scaled(initial, n)
  {
    if m < n {
      ScaledGrows(initial, m, n - 1);
    } else if n > 0 {
      ScaledGrows(initial, n - 1, n - 1);
    }
  }

  /** No delay is above both settings, even where doubling wraps. */
  lemma DelayAtMost(initial: Duration, cap: Duration, failures: nat)
    ensures DelayAfter(initial, cap, failures) <= Max(initial, cap)
    ensures failures > 0 ==> DelayAfter(initial, cap, failures) <= cap
  {
  }

  /** Nothing doubled on the way to fewer than `limit` failures leaves the 64 bits. */
  predicate NarrowUpTo(initial: Duration, cap: Duration, limit: nat) {
    limit <= 1 || (initial < POW62 && (cap < POW62 || Scaled(initial, limit - 2) < POW62))
  }

  lemma {:induction false} DelayScaled(initial: Duration, cap: Duration, failures: nat)
    requires 0 <= initial && 0 <= cap && NarrowUpTo(initial, cap, failures + 1)
    ensures DelayAfter(initial, cap, failures) == ClosedForm(initial, cap, failures)
  {
    if failures > 0 {
      ScaledGrows(initial, if failures == 1 then 0 else failures - 2, failures - 1);
      DelayScaled(initial, cap, failures - 1);
    }
  }

  /** The delay is then min(initial * 2^failures, cap). */
  lemma DelayIsClosedForm(initial: Duration, cap: Duration, limit: nat, failures: nat)
    requires 0 <= initial && 0 <= cap && NarrowUpTo(initial, cap, limit) && failures < limit
    ensures DelayAfter(initial, cap, failures) == ClosedForm(initial, cap, failures)
    ensures 0 <= DelayAfter(initial, cap, failures) <= Max(initial, cap)
  {
    if failures > 0 {
      ScaledGrows(initial, failures - 1, limit - 2);
    }
    DelayScaled(initial, cap, failures);
    ScaledGrows(initial, 0, failures);
    DelayAtMost(initial, cap, failures);
  }

  /** Below 2^62 it is so whatever the limit. */
  lemma NarrowDelay(initial: Duration, cap: Duration, failures: nat)
    requires 0 <= initial && 0 <= cap && Narrow(initial, cap)
    ensures DelayAfter(initial, cap, failures) == ClosedForm(initial, cap, failures)
         == if failures == 0 then initial else Min(initial * Pow2(failures), cap)
    ensures 0 <= DelayAfter(initial, cap, failures) <= Max(initial, cap)
  {
    DelayIsClosedForm(initial, cap, failures + 1, failures);
    ScaledIsProduct(initial, failures);
  }

  /** A delay of 2^62 or more is doubled into the sign bit. */
  lemma WideDelayFails(initial: Duration, cap: Duration, failures: nat)
    requires 0 <= initial && 0 <= cap && POW62 <= DelayAfter(initial, cap, failures)
    ensures DelayAfter(initial, cap, failures + 1) != ClosedForm(initial, cap, failures + 1)
  {
    assert Doubled(DelayAfter(initial, cap, failures), cap) < 0;
    ScaledGrows(initial, 0, failures + 1);
  }

  /**
   A loop that gives up at `limit` failures is at its head with fewer only. Its delays follow
   the closed form exactly when nothing doubled on the way is 2^62 nanoseconds or more.
   */
  lemma ClosedFormExactlyUpTo(initial: Duration, cap: Duration, limit: nat)
    requires 0 <= initial && 0 <= cap
    ensures (forall f: nat :: f < limit ==> DelayAfter(initial, cap, f) == ClosedForm(initial, cap, f))
       <==> NarrowUpTo(initial, cap, limit)
  {
    if NarrowUpTo(initial, cap, limit) {
      forall f: nat | f < limit ensures DelayAfter(initial, cap, f) == ClosedForm(initial, cap, f) {
        DelayIsClosedForm(initial, cap, limit, f);
      }
    } else {
      var f := if initial >= POW62 then 0 else limit - 2;
      if DelayAfter(initial, cap, f) == ClosedForm(initial, cap, f) {
        WideDelayFails(initial, cap, f);
      }
    }
  }

  lemma {:induction false} ScaledExceeds(initial: int, n: nat)
    requires 0 < initial
    ensures Scaled(initial, n) > n
  {
    if n > 0 {
      ScaledExceeds(initial, n - 1);
    }
  }

  /** Without a limit, both configured durations must be below 2^62 nanoseconds. */
  lemma ClosedFormExactlyWhenNarrow(initial: Duration, cap: Duration)
    requires 0 < initial && 0 <= cap
    ensures (forall f: nat :: DelayAfter(initial, cap, f) == ClosedForm(initial, cap, f))
       <==> Narrow(initial, cap)
  {
    if Narrow(initial, cap) {
      forall f: nat ensures DelayAfter(initial, cap, f) == ClosedForm(initial, cap, f) {
        NarrowDelay(initial, cap, f);
      }
    } else {
      ScaledExceeds(initial, POW62);
      ClosedFormExactlyUpTo(initial, cap, POW62 + 2);
    }
  }

  /** One second and ten retries never get near the sign bit, whatever the cap. */
  lemma ShortLoopIsNarrow(cap: Duration, failures: nat)
    requires 0 <= cap && failures < 10
    ensures DelayAfter(SECOND, cap, failures) == ClosedForm(SECOND, cap, failures)
  {
    assert Scaled(SECOND, 8) == 256 * SECOND;
    DelayIsClosedForm(SECOND, cap, 10, failures);
  }

  /** The delay stays below what doubling alone would give; once it wraps, that is out of reach. */
  lemma {:induction false} DelayBelowScaled(initial: Duration, cap: Duration, failures: nat)
    requires 0 <= initial && 0 <= cap
    ensures DelayAfter(initial, cap, failures) <= Scaled(initial, failures)
    ensures DelayAfter(initial, cap, failures) < 0 ==> Scaled(initial, failures) >= POW63
  {
    if failures > 0 {
      DelayBelowScaled(initial, cap, failures - 1);
    }
  }
}
