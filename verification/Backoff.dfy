/** `internal/job/job.go`: retry policy and exponential backoff with jitter. Delays are in seconds. */
module Backoff {
  import opened Types

  const CAP: int := 3600

  predicate ShouldRetry(attempt: int, maxRetries: int) { attempt < maxRetries }

  function Pow2(n: nat): (p: nat)
    ensures p >= 1
  {
    if n == 0 then 1 else 2 * Pow2(n - 1)
  }

  /** Two's complement value of a 64-bit `int` result. */
  function Wrap64(x: int): int {
    (x + 0x8000_0000_0000_0000) % 0x1_0000_0000_0000_0000 - 0x8000_0000_0000_0000
  }

  predicate IsInt64(x: int) { -0x8000_0000_0000_0000 <= x < 0x8000_0000_0000_0000 }

  /** `int(float64(d) * 0.2)`, truncating toward zero. */
  function Fifth(d: int): int { if d >= 0 then d / 5 else -(-d / 5) }

  /** The capped exponential delay before jitter. */
  function Delay(attempt: nat, backoff: nat): nat {
    Min(backoff * Pow2(attempt), CAP)
  }

  lemma DoubleOnce(backoff: nat, i: nat)
    ensures backoff * Pow2(i + 1) == 2 * (backoff * Pow2(i))
  {
    assert Pow2(i + 1) == 2 * Pow2(i);
  }

  lemma {:induction false} Grows(backoff: nat, i: nat, j: nat)
    requires i <= j
    ensures backoff * Pow2(i) <= backoff * Pow2(j)
    decreases j
  {
    if i < j {
      Grows(backoff, i, j - 1);
      DoubleOnce(backoff, j - 1);
    }
  }

  /** `backoff` doubled `n` times. */
  function Doubled(backoff: nat, n: nat): nat {
    if n == 0 then backoff else 2 * Doubled(backoff, n - 1)
  }

  lemma {:induction false} DoubledIs(backoff: nat, n: nat)
    ensures Doubled(backoff, n) == backoff * Pow2(n)
  {
    if n > 0 {
      DoubledIs(backoff, n - 1);
      DoubleOnce(backoff, n - 1);
    }
  }

  lemma WrapRange(x: int)
    ensures IsInt64(Wrap64(x)) && (IsInt64(x) ==> Wrap64(x) == x)
  {
  }

  /** The doubling loop of NextRetryAt and its cap. `peak` is the largest value the loop
      variable takes; a non-negative backoff never overflows. */
  method CappedDelay(attempt: int, backoff: int) returns (delay: int, ghost peak: int)
    requires IsInt64(backoff)
    ensures backoff >= 0 ==> delay == Min(backoff * Pow2(if attempt < 0 then 0 else attempt), 3600)
    ensures backoff >= 0 ==> peak <= Max(backoff, 7198)
    ensures delay <= 3600
  {
    delay := backoff;
    peak := delay;
    var i := 0;
    while i < attempt && delay < CAP
      invariant 0 <= i && (i <= attempt || i == 0)
      invariant IsInt64(delay)
      invariant backoff >= 0 ==> delay == Doubled(backoff, i) && delay <= peak <= Max(backoff, 2 * CAP - 2)
      decreases attempt - i
    {
      WrapRange(delay * 2);
      delay := Wrap64(delay * 2);
      peak := Max(peak, delay);
      i := i + 1;
    }
    if backoff >= 0 {
      CapReached(backoff, i, if attempt < 0 then 0 else attempt);
    }
    if delay > CAP {
      delay := CAP;
    }
  }

  /** Once the cap is reached, further doublings do not matter. */
  lemma CapReached(backoff: nat, i: nat, n: nat)
    requires i <= n && (i < n ==> Doubled(backoff, i) >= CAP)
    ensures Min(backoff * Pow2(n), CAP) == Min(Doubled(backoff, i), CAP)
  {
    DoubledIs(backoff, i);
    Grows(backoff, i, n);
  }

  /** Every delay NextRetryAt can produce: `draw` is the result of `rand.Intn(2*jitter+1)`. */
  predicate Possible(d: int, delay: int) {
    if Fifth(d) > 0 then d - Fifth(d) <= delay <= d + Fifth(d) else delay == d
  }

  /** `NextRetryAt`, with `intn` for `rand.Intn`. */
  method NextRetryAt(attempt: int, backoff: int, now: Time, intn: int -> int) returns (at: Time)
    requires IsInt64(backoff)
    requires forall n :: n > 0 ==> 0 <= intn(n) < n
    ensures backoff >= 0 ==>
              var d := Min(backoff * Pow2(if attempt < 0 then 0 else attempt), 3600);
              at == now + (d + (if d >= 5 then intn(2 * (d / 5) + 1) - d / 5 else 0)) * 1000
    ensures backoff >= 0 ==>
              exists delay :: Possible(Delay(if attempt < 0 then 0 else attempt, backoff), delay) && at == now + delay * SECOND
    ensures at <= now + 4320 * SECOND
  {
    var delay, _ := CappedDelay(attempt, backoff);
    ghost var d := delay;
    var jitter := Fifth(delay);
    if jitter > 0 {
      delay := delay + intn(2 * jitter + 1) - jitter;
    }
    at := now + delay * SECOND;
    assert Possible(d, delay);
  }

  /** The delay starts at the backoff and doubles with each attempt up to an hour. */
  lemma DelayDoubles(n: nat, backoff: nat)
    ensures Delay(0, backoff) == Min(backoff, 3600) && Delay(n + 1, backoff) == Min(2 * Delay(n, backoff), 3600)
  {
    assert Pow2(0) == 1;
    DoubleOnce(backoff, n);
  }

  /** The jitter stays within a fifth of the delay and below 4320 seconds. */
  lemma PossibleBounds(attempt: nat, backoff: nat, delay: int)
    requires Possible(Delay(attempt, backoff), delay)
    ensures var d := Delay(attempt, backoff); d - d / 5 <= delay <= d + d / 5 && 0 <= delay <= 4320
  {
    assert 0 <= Delay(attempt, backoff) <= CAP by {
      Grows(backoff, 0, attempt);
    }
  }

  /** Until the cap, the slowest retry of one attempt is sooner than the fastest of the next. */
  lemma Separated(n: nat, backoff: nat, sooner: int, later: int)
    requires backoff >= 1 && backoff * Pow2(n + 1) <= CAP
    requires Possible(Delay(n, backoff), sooner) && Possible(Delay(n + 1, backoff), later)
    ensures sooner < later
  {
    DoubleOnce(backoff, n);
    Grows(backoff, 0, n);
  }
}
