/** The retry schedule: exponential backoff in nanoseconds, capped, and rendered in milliseconds. */
module Retry {
  import opened Ledger

  const MAX_ATTEMPTS := 10
  const SECOND := 1_000_000_000
  const MILLISECOND := 1_000_000
  const MAX_BACKOFF := 300 * SECOND

  function Pow2(n: nat): (p: nat)
    ensures p > 0
  {
    if n == 0 then 1 else 2 * Pow2(n - 1)
  }

  function Min(a: int, b: int): int {
    if a <= b then a else b
  }

  /** Backoff: the shift and the product are int64 operations. */
  function Backoff(attempts: int): int64 {
    var a := if attempts < 1 then 1 else attempts;
    if a > 20 then MAX_BACKOFF
    else
      var d := Wrap64(Wrap64(Pow2(a - 1)) * SECOND);
      if d > MAX_BACKOFF then MAX_BACKOFF else d
  }

  /** intervalOf: Duration.Milliseconds drops the remainder. */
  function IntervalMs(d: int64): int {
    if d >= 0 then d / MILLISECOND else -((-(d as int)) / MILLISECOND)
  }

  /** The delay PostgreSQL adds to now(), in milliseconds. */
  function DelayMs(attempts: int): int {
    IntervalMs(Backoff(attempts))
  }

  lemma {:induction false} Pow2Monotone(m: nat, n: nat)
    requires m <= n
    ensures Pow2(m) <= Pow2(n)
  {
    if m < n {
      Pow2Monotone(m, n - 1);
    }
  }

  lemma SmallPowers()
    ensures Pow2(8) == 256 && Pow2(9) == 512 && Pow2(19) == 524288
  {
    assert Pow2(4) == 16;
    assert Pow2(8) == 256;
    assert Pow2(12) == 4096;
    assert Pow2(16) == 65536;
    assert Pow2(19) == 524288;
  }

  /** For every attempt the delay is min(2^(n-1), 300) seconds, and no int64 operation overflows. */
  lemma BackoffExact(n: int)
    requires n >= 1
    ensures Backoff(n) == Min(Pow2(n - 1), 300) * SECOND
    ensures n <= 20 ==> InInt64(Pow2(n - 1)) && InInt64(Pow2(n - 1) * SECOND)
  {
    SmallPowers();
    if n <= 20 {
      Pow2Monotone(n - 1, 19);
    } else {
      Pow2Monotone(19, n - 1);
    }
  }

  /** Rendering the delay in milliseconds loses nothing. */
  lemma IntervalExact(n: int)
    ensures DelayMs(n) * MILLISECOND == Backoff(n)
    ensures n >= 1 ==> DelayMs(n) == Min(Pow2(n - 1), 300) * 1000
  {
    var m := if n < 1 then 1 else n;
    assert Backoff(n) == Backoff(m);
    BackoffExact(m);
  }

  lemma BackoffMonotone(m: int, n: int)
    requires m <= n
    ensures 0 < Backoff(m) <= Backoff(n) <= MAX_BACKOFF
  {
    var p := if m < 1 then 1 else m;
    var q := if n < 1 then 1 else n;
    BackoffExact(p);
    BackoffExact(q);
    Pow2Monotone(p - 1, q - 1);
  }

  /** Total delay after the first k failures, in milliseconds. */
  function TotalDelayMs(k: nat): int {
    if k == 0 then 0 else TotalDelayMs(k - 1) + DelayMs(k)
  }

  /** Doubling from one second, the delays add up to 2^k - 1 seconds while the cap is not reached. */
  lemma {:induction false} DelaysAddUp(k: nat)
    requires k <= 9
    ensures TotalDelayMs(k) == (Pow2(k) - 1) * 1000
  {
    if k > 0 {
      DelaysAddUp(k - 1);
      IntervalExact(k);
      SmallPowers();
      Pow2Monotone(k - 1, 8);
    }
  }
}
