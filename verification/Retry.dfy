/** Retry policy and backoff arithmetic (crates/core/src/retry.rs), over exact reals.
    Durations are whole nanoseconds. */
module Retry {
  import opened Envelopes

  datatype Backoff =
    | NoBackoff
    | Fixed(delay: nat)
    | Exponential(base: nat, factor: real, max: nat, jitter: bool)

  datatype RetryPolicy = RetryPolicy(maxAttempts: u32, backoff: Backoff)

  datatype RetryDecision = Retry(delay: nat) | GiveUp

  function Min(a: nat, b: nat): nat { if a < b then a else b }

  function Max(a: nat, b: nat): nat { if a < b then b else a }

  function Pow(x: real, n: nat): real {
    if n == 0 then 1.0 else x * Pow(x, n - 1)
  }

  /** Nearest whole number of nanoseconds. */
  function Round(x: real): nat
    requires x >= 0.0
  {
    (x + 0.5).Floor
  }

  /** A non-positive factor degenerates to a constant `base`. */
  function EffectiveFactor(factor: real): (f: real)
    ensures f > 0.0
  {
    if factor > 0.0 then factor else 1.0
  }

  lemma {:induction false} PowPositive(x: real, n: nat)
    requires x > 0.0
    ensures Pow(x, n) > 0.0
  {
    if n > 0 {
      PowPositive(x, n - 1);
      var p := Pow(x, n - 1);
      assert x * p > 0.0;
    }
  }

  /** `min(max, base * factor^(failed_attempt - 1))`. */
  function ExponentialDelay(base: nat, factor: real, max: nat, failedAttempt: u32): (d: nat)
    ensures d <= max
  {
    if base == 0 || max == 0 then 0
    else
      var exponent := Max(failedAttempt, 1) - 1;
      var f := EffectiveFactor(factor);
      PowPositive(f, exponent);
      var grown := base as real * Pow(f, exponent);
      assert grown >= 0.0;
      var capped := if grown > max as real then max as real else grown;
      Min(Round(capped), max)
  }

  /** The delay before the next attempt. `draw` in [0, 1] is the random draw of full jitter. */
  function ComputeDelay(backoff: Backoff, failedAttempt: u32, draw: real): (d: nat)
    requires 0.0 <= draw <= 1.0
    ensures backoff.Exponential? ==> d <= backoff.max
  {
    match backoff
    case NoBackoff => 0
    case Fixed(delay) => delay
    case Exponential(base, factor, max, jitter) =>
      var computed := ExponentialDelay(base, factor, max, failedAttempt);
      if jitter then
        assert draw * computed as real >= 0.0;
        Min(Round(draw * computed as real), computed)
      else computed
  }

  function Decide(policy: RetryPolicy, failedAttempt: u32, draw: real): RetryDecision
    requires 0.0 <= draw <= 1.0
  {
    if failedAttempt >= policy.maxAttempts then GiveUp
    else Retry(ComputeDelay(policy.backoff, failedAttempt, draw))
  }

  lemma {:induction false} PowMonotone(x: real, m: nat, n: nat)
    requires x >= 1.0 && m <= n
    ensures Pow(x, m) <= Pow(x, n)
    decreases n - m
  {
    if m < n {
      PowMonotone(x, m, n - 1);
      PowPositive(x, n - 1);
      var p := Pow(x, n - 1);
      assert x * p - p == (x - 1.0) * p;
      assert (x - 1.0) * p >= 0.0;
    }
  }

  /** A capped exponential curve whose factor is at least 1 never shortens with the attempt count. */
  lemma ExponentialMonotone(base: nat, factor: real, max: nat, a: u32, b: u32)
    requires EffectiveFactor(factor) >= 1.0 && a <= b
    ensures ExponentialDelay(base, factor, max, a) <= ExponentialDelay(base, factor, max, b)
  {
    if base != 0 && max != 0 {
      var f := EffectiveFactor(factor);
      var m, n := Max(a, 1) - 1, Max(b, 1) - 1;
      PowMonotone(f, m, n);
      var p, q, r := Pow(f, m), Pow(f, n), base as real;
      assert r * q - r * p == r * (q - p);
      assert r * (q - p) >= 0.0;
    }
  }

  /** The delay is the capped curve `base * factor^(n - 1)`, to the nearest nanosecond: the cap
      itself wherever the curve has reached it. */
  lemma DelayFollowsTheCurve(base: nat, factor: real, max: nat, failedAttempt: u32)
    requires base > 0 && max > 0
    ensures var exact := base as real * Pow(EffectiveFactor(factor), Max(failedAttempt, 1) - 1);
            var d := ExponentialDelay(base, factor, max, failedAttempt);
            && (exact >= max as real ==> d == max)
            && (exact <= max as real ==> exact - 0.5 <= d as real <= exact + 0.5)
  {
    var f, n := EffectiveFactor(factor), Max(failedAttempt, 1) - 1;
    PowPositive(f, n);
    var exact := base as real * Pow(f, n);
    assert exact >= 0.0;
    if exact >= max as real {
      assert Round(max as real) == max;
    } else {
      assert Round(exact) <= max;
    }
  }

  /** A share of a whole number, rounded, is within the number and half a nanosecond from the share. */
  lemma RoundedShare(full: nat, draw: real)
    requires 0.0 <= draw <= 1.0
    ensures 0.0 <= draw * full as real <= full as real
    ensures Round(draw * full as real) <= full
    ensures draw * full as real - 0.5 <= Round(draw * full as real) as real <= draw * full as real + 0.5
  {
    var f := full as real;
    var rest := (1.0 - draw) * f;
    assert rest >= 0.0 && draw * f >= 0.0;
    assert draw * f + rest == f;
  }

  /** Full jitter is the drawn share of the delay, to the nearest nanosecond: it only shortens, from the
      whole delay down to nothing. */
  lemma JitterOnlyShortens(base: nat, factor: real, max: nat, failedAttempt: u32, draw: real)
    requires 0.0 <= draw <= 1.0
    ensures var full := ComputeDelay(Exponential(base, factor, max, false), failedAttempt, draw);
            var jittered := ComputeDelay(Exponential(base, factor, max, true), failedAttempt, draw);
            && jittered <= full
            && draw * full as real - 0.5 <= jittered as real <= draw * full as real + 0.5
            && (draw == 0.0 ==> jittered == 0)
            && (draw == 1.0 ==> jittered == full)
  {
    RoundedShare(ExponentialDelay(base, factor, max, failedAttempt), draw);
    hide ExponentialDelay;
    var full := ExponentialDelay(base, factor, max, failedAttempt);
    assert draw == 1.0 ==> draw * full as real == full as real;
  }

  /** The other backoffs, and a factor that makes no sense: no wait, the fixed wait, the capped base. */
  lemma PlainBackoffs(delay: nat, base: nat, factor: real, max: nat, failedAttempt: u32, draw: real)
    requires 0.0 <= draw <= 1.0
    ensures ComputeDelay(NoBackoff, failedAttempt, draw) == 0
    ensures ComputeDelay(Fixed(delay), failedAttempt, draw) == delay
    ensures factor <= 0.0 ==>
              ComputeDelay(Exponential(base, factor, max, false), failedAttempt, draw) == Min(base, max)
  {
    if factor <= 0.0 {
      OnePow(Max(failedAttempt, 1) - 1);
      assert Round(base as real) == base && Round(max as real) == max;
    }
  }

  lemma {:induction false} OnePow(n: nat)
    ensures Pow(1.0, n) == 1.0
  {
    if n > 0 { OnePow(n - 1); }
  }

  /** Without jitter, the wait after the n-th failure is n - 1 factors into the curve; n = 0 counts as 1. */
  lemma UnjitteredDelayFollowsTheCurve(base: nat, factor: real, max: nat, failedAttempt: u32, draw: real)
    requires 0.0 <= draw <= 1.0 && base > 0 && max > 0 && factor > 0.0
    ensures var n := if failedAttempt == 0 then 0 else failedAttempt - 1;
            var exact := base as real * Pow(factor, n);
            var d := ComputeDelay(Exponential(base, factor, max, false), failedAttempt, draw);
            && (exact >= max as real ==> d == max)
            && (exact <= max as real ==> exact - 0.5 <= d as real <= exact + 0.5)
  {
    DelayFollowsTheCurve(base, factor, max, failedAttempt);
  }

  /** `decide`: another attempt exactly while the failed one is not the last allowed. */
  lemma DecidesByTheCount(policy: RetryPolicy, failedAttempt: u32, draw: real)
    requires 0.0 <= draw <= 1.0
    ensures Decide(policy, failedAttempt, draw).GiveUp? <==> failedAttempt >= policy.maxAttempts
    ensures policy.backoff.NoBackoff? && failedAttempt < policy.maxAttempts ==> Decide(policy, failedAttempt, draw) == Retry(0)
    ensures policy.backoff.Fixed? && failedAttempt < policy.maxAttempts ==>
              Decide(policy, failedAttempt, draw) == Retry(policy.backoff.delay)
  {
  }
}
