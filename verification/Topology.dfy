/** Hold queue names, arguments and TTL rounding (crates/rabbitmq/src/topology.rs) and the
    declare-time name check (crates/rabbitmq/src/backend.rs:347-359). */
module Topology {
  import opened Envelopes
  import opened Retry

  const MAX_TTL_MS: nat := U32_MAX
  const MAX_DEFERRAL_MS: nat := MAX_TTL_MS / 2
  const MAX_SHORT_STRING: nat := 255
  const NANOS_PER_MS: nat := 1_000_000
  const U64_MAX: nat := 0xFFFF_FFFF_FFFF_FFFF
  const U128_MAX: nat := 0xFFFF_FFFF_FFFF_FFFF_FFFF_FFFF_FFFF_FFFF
  /** The longest `std::time::Duration`, in nanoseconds. */
  const MAX_DURATION: nat := U64_MAX * 1_000_000_000 + 999_999_999

  /** A `std::time::Duration`. */
  type Duration = n: nat | n <= MAX_DURATION

  function DivCeil(a: nat, b: nat): nat
    requires b > 0
  {
    (a + b - 1) / b
  }

  function SaturatingMul(a: nat, b: nat, limit: nat): nat {
    if a * b > limit then limit else a * b
  }

  function Clamp(x: nat, lo: nat, hi: nat): nat
    requires lo <= hi
  {
    if x < lo then lo else if x > hi then hi else x
  }

  function MillisCeil(d: Duration): nat { DivCeil(d, NANOS_PER_MS) }

  function Step(granularity: Duration): (s: nat)
    ensures 1 <= s <= MAX_DEFERRAL_MS
  {
    Clamp(MillisCeil(granularity), 1, MAX_DEFERRAL_MS)
  }

  /** `deferred_ttl_ms`, with the source's saturation and its unreachable fallback. */
  function DeferredTtlMs(delay: Duration, granularity: Duration): Option<u32> {
    var step := Step(granularity);
    var ttl := Max(SaturatingMul(DivCeil(MillisCeil(delay), step), step, U128_MAX), step);
    if ttl <= MAX_DEFERRAL_MS then Some(if ttl <= U32_MAX then ttl else MAX_DEFERRAL_MS) else None
  }

  /** The limits: the broker's 32-bit millisecond counts, the longest TTL whose double still is one, and
      the AMQP short string of section 4.2.5.3 of AMQP 0-9-1. */
  lemma Limits(ttl: nat)
    ensures MAX_TTL_MS == 4_294_967_295 && MAX_SHORT_STRING == 255
    ensures ttl <= MAX_DEFERRAL_MS <==> 2 * ttl <= MAX_TTL_MS
  {
  }

  // ----- TTL rounding --------------------------------------------------------------------

  /** `ttl` milliseconds cover `delay` nanoseconds, in whole steps, at least one of them. */
  ghost predicate Covers(ttl: nat, step: nat, delay: nat) {
    && (exists k: nat :: k >= 1 && ttl == k * step)
    && ttl * NANOS_PER_MS >= delay
  }

  lemma MulMonotone(a: int, b: int, c: nat)
    requires a <= b
    ensures a * c <= b * c
  {
    assert b * c == a * c + (b - a) * c;
  }

  lemma DivCeilBounds(a: nat, b: nat)
    requires b > 0
    ensures DivCeil(a, b) * b >= a
    ensures a > 0 ==> (DivCeil(a, b) - 1) * b < a
    ensures a == 0 ==> DivCeil(a, b) == 0
  {
    var q, r := (a + b - 1) / b, (a + b - 1) % b;
    assert a + b - 1 == q * b + r;
    assert (q - 1) * b == q * b - b;
    if q > 0 {
      MulMonotone(1, q, b);
    }
  }

  /** Whole multiples: `k * b >= a` exactly from `k = DivCeil(a, b)` on. */
  lemma DivCeilLeast(a: nat, b: nat, k: nat)
    requires b > 0
    ensures k * b >= a <==> k >= DivCeil(a, b)
  {
    DivCeilBounds(a, b);
    var q := DivCeil(a, b);
    assert q * b >= a && (a > 0 ==> (q - 1) * b < a);
    if k >= q {
      MulMonotone(q, k, b);
    } else {
      MulMonotone(k, q - 1, b);
    }
  }

  /** The number of steps a delay is rounded up to. */
  function Steps(delay: Duration, step: nat): nat
    requires step > 0
  {
    Max(1, DivCeil(MillisCeil(delay), step))
  }

  /** Neither the saturating product nor the narrowing fallback is ever taken: the source computes
      the plain multiple. */
  lemma NothingSaturates(delay: Duration, granularity: Duration)
    ensures var step := Step(granularity);
            var ttl := Steps(delay, step) * step;
            && DivCeil(MillisCeil(delay), step) * step <= U128_MAX
            && DeferredTtlMs(delay, granularity) == if ttl <= MAX_DEFERRAL_MS then Some(ttl) else None
  {
    var step, ms := Step(granularity), MillisCeil(delay);
    var k: int := DivCeil(ms, step);
    DivCeilBounds(delay, NANOS_PER_MS);
    DivCeilBounds(ms, step);
    assert (k - 1) * step == k * step - step;
    if k > 0 {
      MulMonotone(1, k, step);
    }
  }

  /** `deferred_ttl_ms` is the least positive multiple of the clamped step that covers the delay,
      and refuses exactly when that least multiple is past MAX_DEFERRAL_MS. */
  lemma TtlIsLeastCover(delay: Duration, granularity: Duration)
    ensures var step := Step(granularity);
            match DeferredTtlMs(delay, granularity)
            case Some(ttl) =>
              && ttl <= MAX_DEFERRAL_MS
              && Covers(ttl, step, delay)
              && forall other: nat | Covers(other, step, delay) :: ttl <= other
            case None =>
              forall other: nat | Covers(other, step, delay) :: other > MAX_DEFERRAL_MS
  {
    var step := Step(granularity);
    NothingSaturates(delay, granularity);
    var n := Steps(delay, step);
    var least := n * step;
    assert Covers(least, step, delay) by {
      DivCeilLeast(MillisCeil(delay), step, n);
      DivCeilLeast(delay, NANOS_PER_MS, least);
    }
    forall other: nat | Covers(other, step, delay) ensures least <= other {
      var k: nat :| k >= 1 && other == k * step;
      DivCeilLeast(delay, NANOS_PER_MS, other);
      DivCeilLeast(MillisCeil(delay), step, k);
      MulMonotone(n, k, step);
    }
  }

  /** The step a granularity stands for: the least whole number of milliseconds, at least one, that
      covers it, or the longest deferral where none up to that does. */
  ghost predicate IsStep(g: nat, granularity: Duration) {
    && 1 <= g <= MAX_DEFERRAL_MS
    && (g * NANOS_PER_MS >= granularity || g == MAX_DEFERRAL_MS)
    && forall smaller: nat | 1 <= smaller < g :: smaller * NANOS_PER_MS < granularity
  }

  lemma StepIsTheStep(granularity: Duration)
    ensures IsStep(Step(granularity), granularity)
    ensures forall g: nat | IsStep(g, granularity) :: g == Step(granularity)
  {
    var g := Step(granularity);
    forall k: nat ensures k * NANOS_PER_MS >= granularity <==> k >= MillisCeil(granularity) {
      DivCeilLeast(granularity, NANOS_PER_MS, k);
    }
    assert MillisCeil(granularity) > MAX_DEFERRAL_MS ==> MAX_DEFERRAL_MS * NANOS_PER_MS < granularity;
    forall other: nat | IsStep(other, granularity) ensures other == g {
      assert other < g ==> other * NANOS_PER_MS < granularity;
      assert g < other ==> g * NANOS_PER_MS < granularity;
    }
  }

  /** `deferred_ttl_ms` in terms of its two arguments alone: with g the step the granularity stands
      for, the least positive multiple of g that covers the delay, refused exactly when that is past
      MAX_DEFERRAL_MS. */
  lemma TtlIsLeastMultiple(delay: Duration, granularity: Duration, g: nat)
    requires IsStep(g, granularity)
    ensures match DeferredTtlMs(delay, granularity)
            case Some(ttl) =>
              && ttl <= MAX_DEFERRAL_MS
              && Covers(ttl, g, delay)
              && forall other: nat | Covers(other, g, delay) :: ttl <= other
            case None =>
              forall other: nat | Covers(other, g, delay) :: other > MAX_DEFERRAL_MS
  {
    StepIsTheStep(granularity);
    TtlIsLeastCover(delay, granularity);
  }

  /** The documented examples, with the default granularity of one second. */
  lemma DocumentedTtls()
    ensures DeferredTtlMs(30_000_000_000, 1_000_000_000) == Some(30_000)
    ensures DeferredTtlMs(29_200_000_000, 1_000_000_000) == Some(30_000)
    ensures DeferredTtlMs(29_001_000_000, 1_000_000_000) == Some(30_000)
    ensures DeferredTtlMs(5_000_000, 1_000_000_000) == Some(1_000)
    ensures DeferredTtlMs(30 * 86_400 * 1_000_000_000, 1_000_000_000) == None
  {
  }

  /** A longer delay never gets a shorter hold, and is refused whenever a shorter one is. */
  lemma TtlMonotone(a: Duration, b: Duration, granularity: Duration)
    requires a <= b
    ensures DeferredTtlMs(a, granularity).None? ==> DeferredTtlMs(b, granularity).None?
    ensures DeferredTtlMs(b, granularity).Some? ==>
              && DeferredTtlMs(a, granularity).Some?
              && DeferredTtlMs(a, granularity).value <= DeferredTtlMs(b, granularity).value
  {
    var step := Step(granularity);
    TtlIsLeastCover(a, granularity);
    TtlIsLeastCover(b, granularity);
    forall other: nat | Covers(other, step, b) ensures Covers(other, step, a) {
      var k: nat :| k >= 1 && other == k * step;
    }
  }

  /** Rounding an already rounded delay changes nothing. */
  lemma TtlIdempotent(delay: Duration, granularity: Duration)
    ensures var ttl := DeferredTtlMs(delay, granularity);
            ttl.Some? ==> DeferredTtlMs(ttl.value * NANOS_PER_MS, granularity) == ttl
  {
    var ttl := DeferredTtlMs(delay, granularity);
    if ttl.Some? {
      var step := Step(granularity);
      var again: Duration := ttl.value * NANOS_PER_MS;
      TtlIsLeastCover(delay, granularity);
      TtlIsLeastCover(again, granularity);
      var k: nat :| k >= 1 && ttl.value == k * step;
      assert Covers(ttl.value, step, again);
      forall other: nat | Covers(other, step, again) ensures other >= ttl.value {
      }
    }
  }

  /** With a backoff factor of at least 1 and no jitter, the hold of a later attempt is never
      shorter than the hold of an earlier one. */
  lemma RetryHoldsNeverShrink(base: Duration, factor: real, max: Duration, a: u32, b: u32, granularity: Duration)
    requires EffectiveFactor(factor) >= 1.0 && a <= b
    ensures var x, y := ExponentialDelay(base, factor, max, a), ExponentialDelay(base, factor, max, b);
            DeferredTtlMs(y, granularity).Some? ==>
              && DeferredTtlMs(x, granularity).Some?
              && DeferredTtlMs(x, granularity).value <= DeferredTtlMs(y, granularity).value
  {
    ExponentialMonotone(base, factor, max, a, b);
    TtlMonotone(ExponentialDelay(base, factor, max, a), ExponentialDelay(base, factor, max, b), granularity);
  }

  /** The factor bound is needed: with factor 1/2 the second hold is half the first. */
  lemma ShrinkingFactorShrinksHolds()
    ensures DeferredTtlMs(ExponentialDelay(4_000_000_000, 0.5, 9_000_000_000, 1), 1_000_000_000) == Some(4000)
    ensures DeferredTtlMs(ExponentialDelay(4_000_000_000, 0.5, 9_000_000_000, 2), 1_000_000_000) == Some(2000)
  {
    assert Pow(0.5, 0) == 1.0;
    assert Pow(0.5, 1) == 0.5 * Pow(0.5, 0);
    assert ExponentialDelay(4_000_000_000, 0.5, 9_000_000_000, 1) == 4_000_000_000;
    assert ExponentialDelay(4_000_000_000, 0.5, 9_000_000_000, 2) == 2_000_000_000;
  }

  // ----- arguments -----------------------------------------------------------------------

  datatype QueueConfig = QueueConfig(name: Text, durable: bool, prefetch: nat, maxPriority: Option<u8>)

  datatype ArgKey = MessageTtl | DeadLetterExchange | DeadLetterRoutingKey | Expires

  datatype ArgValue = LongLongInt(n: nat) | LongString(s: Text)

  /** `deferred_queue_args`: the table is filled one insertion at a time. */
  method DeferredQueueArgs(config: QueueConfig, ttlMs: u32) returns (args: map<ArgKey, ArgValue>)
    ensures args == HoldArgs(config.name, ttlMs)
    ensures args.Keys == {MessageTtl, DeadLetterExchange, DeadLetterRoutingKey, Expires}
    ensures args[MessageTtl] == LongLongInt(ttlMs)
    ensures args[DeadLetterExchange] == LongString([]) && args[DeadLetterRoutingKey] == LongString(config.name)
    ensures ttlMs <= MAX_DEFERRAL_MS ==> args[Expires] == LongLongInt(2 * ttlMs)
    ensures args[Expires].LongLongInt? && args[Expires].n <= MAX_TTL_MS
  {
    args := map[];
    args := args[MessageTtl := LongLongInt(ttlMs)];
    args := args[DeadLetterExchange := LongString([])];
    args := args[DeadLetterRoutingKey := LongString(config.name)];
    var expires := Min(SaturatingMul(ttlMs, 2, U64_MAX), MAX_TTL_MS);
    args := args[Expires := LongLongInt(expires)];
  }

  /** The arguments as a function of the queue and the TTL alone: no other setting is in scope. */
  function HoldArgs(queue: Text, ttlMs: u32): map<ArgKey, ArgValue> {
    map[MessageTtl := LongLongInt(ttlMs),
        DeadLetterExchange := LongString([]),
        DeadLetterRoutingKey := LongString(queue),
        Expires := LongLongInt(Min(2 * ttlMs, MAX_TTL_MS))]
  }

  /** For every TTL that is ever produced, `x-expires` is the unclamped double, fits the broker's
      32 bits and stays strictly above the TTL. */
  lemma ExpiresIsTwiceTheTtl(delay: Duration, granularity: Duration, queue: Text)
    ensures var ttl := DeferredTtlMs(delay, granularity);
            ttl.Some? ==>
              var args := HoldArgs(queue, ttl.value);
              && args[Expires] == LongLongInt(2 * ttl.value)
              && args[MessageTtl].n < args[Expires].n <= MAX_TTL_MS
  {
    TtlIsLeastCover(delay, granularity);
    var ttl := DeferredTtlMs(delay, granularity);
    if ttl.Some? {
      var k: nat :| k >= 1 && ttl.value == k * Step(granularity);
      assert ttl.value >= 1 by { assert k * Step(granularity) >= 1; }
    }
  }

  // ----- names ---------------------------------------------------------------------------

  const DOT: byte := 46
  const ZERO: byte := 48

  function Digits(n: nat): (s: Text)
    ensures |s| >= 1
    ensures forall i | 0 <= i < |s| :: ZERO <= s[i] <= ZERO + 9
  {
    var last := [(48 + n % 10) as byte];
    if n < 10 then last else Digits(n / 10) + last
  }

  /** Reads a decimal back. */
  function Parse(s: Text): int {
    if s == [] then 0 else 10 * Parse(s[..|s| - 1]) + (s[|s| - 1] as int - 48)
  }

  lemma {:induction false} ParseDigits(n: nat)
    ensures Parse(Digits(n)) == n
  {
    if n >= 10 {
      ParseDigits(n / 10);
      var s := Digits(n);
      assert s[..|s| - 1] == Digits(n / 10);
    } else {
      assert Digits(n)[..0] == [];
    }
  }

  lemma {:induction false} DigitsGrow(m: nat, n: nat)
    requires m <= n
    ensures |Digits(m)| <= |Digits(n)|
  {
    if m >= 10 {
      DigitsGrow(m / 10, n / 10);
    }
  }

  /** `{queue}{suffix}.{ttl_ms}`. */
  function HoldName(queue: Text, suffix: Text, ttlMs: nat): Text {
    queue + suffix + [DOT] + Digits(ttlMs)
  }

  /** The name spelled out: the queue, the suffix, a dot and the TTL in decimal. */
  lemma HoldNameReads(queue: Text, suffix: Text, ttlMs: nat)
    ensures var name := HoldName(queue, suffix, ttlMs);
            var n := |queue| + |suffix|;
            && |name| > n + 1 && name[..|queue|] == queue && name[|queue|..n] == suffix && name[n] == DOT
            && Parse(name[n + 1..]) == ttlMs
            && forall i | n < i < |name| :: ZERO <= name[i] <= ZERO + 9
  {
    var name := HoldName(queue, suffix, ttlMs);
    var n := |queue| + |suffix|;
    ParseDigits(ttlMs);
    assert name[n + 1..] == Digits(ttlMs);
    assert forall i | n < i < |name| :: name[i] == name[n + 1..][i - n - 1];
  }

  lemma NoDotAfterTheDot(a: Text, m: nat, i: nat)
    requires |a| < i < |a + [DOT] + Digits(m)|
    ensures (a + [DOT] + Digits(m))[i] != DOT
  {
    assert (a + [DOT] + Digits(m))[i] == Digits(m)[i - |a| - 1];
  }

  /** The digits are what follows the last dot, so equal names split at the same place. */
  lemma SameDigitLength(a: Text, m: nat, b: Text, n: nat)
    requires a + [DOT] + Digits(m) == b + [DOT] + Digits(n)
    ensures |a| == |b|
  {
    if |a| < |b| {
      NoDotAfterTheDot(a, m, |b|);
    } else if |b| < |a| {
      NoDotAfterTheDot(b, n, |a|);
    }
  }

  /** For a fixed suffix the name determines the queue and the TTL, hence the arguments: two
      processes can never declare one hold queue with different arguments. */
  lemma NameDeterminesArguments(q1: Text, t1: u32, q2: Text, t2: u32, suffix: Text)
    requires HoldName(q1, suffix, t1) == HoldName(q2, suffix, t2)
    ensures q1 == q2 && t1 == t2 && HoldArgs(q1, t1) == HoldArgs(q2, t2)
  {
    var a, b := q1 + suffix, q2 + suffix;
    SameDigitLength(a, t1, b, t2);
    var s, t := a + [DOT] + Digits(t1), b + [DOT] + Digits(t2);
    assert a == s[..|a|] && b == t[..|b|];
    assert Digits(t1) == s[|a| + 1..] && Digits(t2) == t[|b| + 1..];
    ParseDigits(t1);
    ParseDigits(t2);
    assert q1 == a[..|q1|] && q2 == b[..|q2|];
  }

  /** `check_deferrable_name`. */
  predicate CheckDeferrableName(queue: Text, suffix: Text) {
    |HoldName(queue, suffix, MAX_DEFERRAL_MS)| <= MAX_SHORT_STRING
  }

  /** Every hold that can be asked for on `queue` has a name that fits an AMQP short string. */
  ghost predicate EveryHoldFits(queue: Text, suffix: Text) {
    forall delay: Duration, granularity: Duration ::
      DeferredTtlMs(delay, granularity).Some? ==>
        |HoldName(queue, suffix, DeferredTtlMs(delay, granularity).value)| <= MAX_SHORT_STRING
  }

  /** The declare-time check passes exactly when no hold can ever fail on its name's length. */
  lemma NameCheckIsExact(queue: Text, suffix: Text)
    ensures CheckDeferrableName(queue, suffix) <==> EveryHoldFits(queue, suffix)
  {
    if CheckDeferrableName(queue, suffix) {
      forall delay: Duration, granularity: Duration | DeferredTtlMs(delay, granularity).Some?
        ensures |HoldName(queue, suffix, DeferredTtlMs(delay, granularity).value)| <= MAX_SHORT_STRING
      {
        TtlIsLeastCover(delay, granularity);
        DigitsGrow(DeferredTtlMs(delay, granularity).value, MAX_DEFERRAL_MS);
      }
    }
    if EveryHoldFits(queue, suffix) {
      var longest: Duration := MAX_DEFERRAL_MS * NANOS_PER_MS;
      assert DeferredTtlMs(longest, 0) == Some(MAX_DEFERRAL_MS);
    }
  }
}
