/**
 The retry loop and the closed-form backoff of resilience/retry.go.

 Delays are int64 nanoseconds. Go leaves the conversion of an out-of-range float64 to the
 platform, so every statement is made for an arbitrary out-of-range result `wide` (amd64 yields
 MIN_INT64, arm64 saturates at MAX_INT64).
*/
module Retry {
  import opened Common

  const MAX_INT64 := 0x7FFF_FFFF_FFFF_FFFF
  const MIN_INT64 := -0x8000_0000_0000_0000
  const MILLISECOND := 1_000_000

  /** Truncation toward zero, as Go converts a float64 to an integer. */
  function Truncate(x: real): int {
    if x >= 0.0 then x.Floor else -(-x).Floor
  }

  /** The float64 product, over exact reals. */
  function Times(a: real, b: real): real {
    a * b
  }

  /** time.Duration(x). */
  function ToDuration(x: real, wide: int): int {
    if MIN_INT64 as real <= x < (MAX_INT64 + 1) as real then Truncate(x) else wide
  }

  lemma InRange(x: real, wide: int)
    requires 0.0 <= x < (MAX_INT64 + 1) as real
    ensures ToDuration(x, wide) == x.Floor <= MAX_INT64
  {
  }

  function Wrap64(x: int): int {
    (x + 0x8000_0000_0000_0000) % 0x1_0000_0000_0000_0000 - 0x8000_0000_0000_0000
  }

  lemma DurationOfInt(p: int, wide: int)
    requires p >= 0
    ensures ToDuration(p as real, wide) == if p <= MAX_INT64 then p else wide
  {
  }

  lemma FloorMono(x: real, y: real)
    requires x <= y
    ensures x.Floor <= y.Floor && x.Floor as real <= x && (x.Floor as real).Floor == x.Floor
  {
  }

  lemma NoWrap(x: int)
    requires MIN_INT64 <= x <= MAX_INT64
    ensures Wrap64(x) == x
  {
  }

  function Pow(x: real, n: nat): real {
    if n == 0 then 1.0 else Times(x, Pow(x, n - 1))
  }

  function IntPow(x: int, n: nat): int {
    if n == 0 then 1 else x * IntPow(x, n - 1)
  }

  lemma {:induction false} PowOfInteger(x: int, n: nat)
    ensures Pow(x as real, n) == IntPow(x, n) as real
  {
    if n > 0 { PowOfInteger(x, n - 1); }
  }

  lemma {:induction false} IntPowAtLeastOne(x: int, n: nat)
    requires x >= 1
    ensures IntPow(x, n) >= 1
  {
    if n > 0 {
      IntPowAtLeastOne(x, n - 1);
      assert x * IntPow(x, n - 1) >= 1 * 1;
    }
  }

  // ---------------------------------------------------------------- the closed form

  datatype Policy = Constant | Linear | Exponential

  datatype BackoffConfig = BackoffConfig(policy: Policy, initialDelay: int, maxDelay: int, multiplier: real)

  function Backoff(config: BackoffConfig, attempt: int, wide: int): int {
    var delay := match config.policy
      case Constant => config.initialDelay
      case Linear => Wrap64(config.initialDelay * attempt)
      case Exponential =>
        var m := if config.multiplier <= 0.0 then 2.0 else config.multiplier;
        var p := if attempt >= 1 then Pow(m, attempt - 1) else InversePow(m, 1 - attempt);
        ToDuration(Times(config.initialDelay as real, p), wide);
    if delay > config.maxDelay && config.maxDelay > 0 then config.maxDelay else delay
  }

  lemma {:induction false} PowPositive(x: real, n: nat)
    requires x > 0.0
    ensures Pow(x, n) > 0.0
  {
    if n > 0 { PowPositive(x, n - 1); }
  }

  function InversePow(x: real, n: nat): real
    requires x > 0.0
  {
    PowPositive(x, n);
    1.0 / Pow(x, n)
  }

  // ---------------------------------------------------------------- the loop

  datatype RetryConfig = RetryConfig(maxAttempts: int, initialDelay: int, maxDelay: int, multiplier: real, jitter: real)

  ghost predicate ValidConfig(c: RetryConfig) {
    && c.maxAttempts > 0 && 0 < c.initialDelay <= MAX_INT64 && 0 < c.maxDelay <= MAX_INT64
    && c.multiplier > 0.0 && 0.0 <= c.jitter <= 1.0
  }

  /** The update of the delay between two attempts. */
  function NextDelay(c: RetryConfig, delay: int, wide: int): int {
    var d := ToDuration(Times(delay as real, c.multiplier), wide);
    if d > c.maxDelay then c.maxDelay else d
  }

  /** The base delay after attempt k. */
  function BaseDelay(c: RetryConfig, k: nat, wide: int): int
    requires k >= 1
  {
    if k == 1 then c.initialDelay else NextDelay(c, BaseDelay(c, k - 1, wide), wide)
  }

  lemma FirstDelay(c: RetryConfig, wide: int)
    ensures BaseDelay(c, 1, wide) == c.initialDelay
  {
  }

  lemma BaseDelayStep(c: RetryConfig, k: nat, wide: int)
    requires k >= 2
    ensures BaseDelay(c, k, wide) == NextDelay(c, BaseDelay(c, k - 1, wide), wide)
  {
  }

  /** A random share of the jitter, drawn from [0, 1), on top of the base delay. */
  function Jittered(c: RetryConfig, delay: int, draw: real, wide: int): int {
    if c.jitter > 0.0 then Wrap64(delay + ToDuration(Times(draw, Times(delay as real, c.jitter)), wide)) else delay
  }

  lemma ShareOf(d: real, j: real)
    requires 0.0 <= d && 0.0 <= j <= 1.0
    ensures 0.0 <= Times(d, j) == Times(j, d) <= d
  {
    assert d * (1.0 - j) >= 0.0;
  }

  lemma WrapsBelow(x: int)
    requires MAX_INT64 < x <= 2 * MAX_INT64
    ensures Wrap64(x) < 0
  {
  }

  lemma AddedShare(delay: int, y: real, share: real, wide: int)
    requires 0 <= delay <= MAX_INT64 && 0.0 <= y <= share <= delay as real
    ensures delay <= Wrap64(delay + ToDuration(y, wide)) <==> delay + y.Floor <= MAX_INT64
    ensures delay + y.Floor <= MAX_INT64 ==> Wrap64(delay + ToDuration(y, wide)) == delay + y.Floor
    ensures delay + y.Floor <= MAX_INT64 ==> Wrap64(delay + ToDuration(y, wide)) as real <= delay as real + share
  {
    InRange(y, wide);
    FloorMono(y, delay as real);
    FloorMono(0.0, y);
    if delay + y.Floor <= MAX_INT64 { NoWrap(delay + y.Floor); } else { WrapsBelow(delay + y.Floor); }
  }

  /** The whole nanoseconds that a draw adds. */
  function Extra(c: RetryConfig, delay: int, draw: real): int {
    if c.jitter > 0.0 then Times(draw, Times(delay as real, c.jitter)).Floor else 0
  }

  /**
   Jitter lengthens a delay, by at most the jitter share of it, exactly when the sum still fits an
   int64; beyond that it wraps and the wait ends at once. Half the range is always enough room.
  */
  lemma {:induction false} JitterLengthensIff(c: RetryConfig, delay: int, draw: real, wide: int)
    requires ValidConfig(c) && 0 <= delay <= MAX_INT64 && 0.0 <= draw < 1.0
    ensures delay <= Jittered(c, delay, draw, wide) <==> delay + Extra(c, delay, draw) <= MAX_INT64
    ensures delay + Extra(c, delay, draw) <= MAX_INT64 ==>
      Jittered(c, delay, draw, wide) == delay + Extra(c, delay, draw)
      && Jittered(c, delay, draw, wide) as real <= delay as real + Times(delay as real, c.jitter)
    ensures 2 * delay <= MAX_INT64 ==> delay + Extra(c, delay, draw) <= MAX_INT64
  {
    hide Times, ToDuration, Wrap64;
    var share := Times(delay as real, c.jitter);
    ShareOf(delay as real, c.jitter);
    ShareOf(share, draw);
    AddedShare(delay, Times(draw, share), share, wide);
    FloorMono(Times(draw, share), delay as real);
  }

  datatype Verdict = Succeeded | GaveUp(err: int) | Cancelled

  class Retryer {
    const config: RetryConfig

    /** Unusable settings take the defaults 3, 100ms, 10s, 2.0 and 0.1. */
    constructor (c: RetryConfig)
      requires c.initialDelay <= MAX_INT64 && c.maxDelay <= MAX_INT64
      ensures ValidConfig(config)
      ensures ValidConfig(c) ==> config == c
      ensures if c.maxAttempts > 0 then config.maxAttempts == c.maxAttempts else config.maxAttempts == 3
      ensures if c.initialDelay > 0 then config.initialDelay == c.initialDelay else config.initialDelay == 100_000_000
      ensures if c.maxDelay > 0 then config.maxDelay == c.maxDelay else config.maxDelay == 10_000_000_000
      ensures if c.multiplier > 0.0 then config.multiplier == c.multiplier else config.multiplier == 2.0
      ensures if 0.0 <= c.jitter <= 1.0 then config.jitter == c.jitter else config.jitter == 0.1
    {
      config := RetryConfig(
        if c.maxAttempts <= 0 then 3 else c.maxAttempts,
        if c.initialDelay <= 0 then 100 * MILLISECOND else c.initialDelay,
        if c.maxDelay <= 0 then 10_000 * MILLISECOND else c.maxDelay,
        if c.multiplier <= 0.0 then 2.0 else c.multiplier,
        if c.jitter < 0.0 || c.jitter > 1.0 then 0.1 else c.jitter);
    }

    /** The delay before the next attempt: scaled, truncated and clamped. */
    method Lengthen(delay: int, wide: int) returns (next: int)
      ensures next == NextDelay(config, delay, wide)
    {
      next := ToDuration(Times(delay as real, config.multiplier), wide);
      if next > config.maxDelay {
        next := config.maxDelay;
      }
    }

    /**
     outcome(k) is the error of attempt k, if any; cancelled(k) says whether the context ends
     during the wait after it; draw(k) is the random share of its jitter.
    */
    method DoWithResult(outcome: nat -> Option<int>, retryIf: int -> bool, cancelled: nat -> bool,
                        draw: nat -> real, wide: int)
      returns (attempts: nat, calls: nat, verdict: Verdict, waits: seq<int>)
      requires ValidConfig(config)
      ensures 1 <= attempts == calls <= config.maxAttempts
      ensures forall k: nat | 1 <= k < attempts :: outcome(k).Some? && retryIf(outcome(k).value) && !cancelled(k)
      ensures attempts < config.maxAttempts && outcome(attempts).Some? && retryIf(outcome(attempts).value) ==> cancelled(attempts)
      ensures verdict == (match outcome(attempts)
        case None => Succeeded
        case Some(e) => if retryIf(e) && attempts < config.maxAttempts then Cancelled else GaveUp(e))
      ensures |waits| == attempts - 1
      ensures forall k: nat | 1 <= k < attempts ::
        waits[k - 1] == Jittered(config, BaseDelay(config, k, wide), draw(k), wide)
    {
      hide NextDelay, Jittered, BaseDelay;
      FirstDelay(config, wide);
      calls, waits := 0, [];
      var delay := config.initialDelay;
      var attempt := 1;
      while true
        invariant 1 <= attempt <= config.maxAttempts && calls == attempt - 1
        invariant delay == BaseDelay(config, attempt, wide)
        invariant forall k: nat | 1 <= k < attempt :: outcome(k).Some? && retryIf(outcome(k).value) && !cancelled(k)
        invariant |waits| == attempt - 1
        invariant forall k: nat | 1 <= k < attempt ::
          waits[k - 1] == Jittered(config, BaseDelay(config, k, wide), draw(k), wide)
        decreases config.maxAttempts - attempt
      {
        attempts := attempt;
        var err := outcome(attempt);
        calls := calls + 1;
        if err.None? {
          verdict := Succeeded;
          break;
        }
        if !retryIf(err.value) || attempt == config.maxAttempts {
          verdict := GaveUp(err.value);
          break;
        }
        var actualDelay := Jittered(config, delay, draw(attempt), wide);
        if cancelled(attempt) {
          verdict := Cancelled;
          break;
        }
        waits := waits + [actualDelay];
        delay := Lengthen(delay, wide);
        BaseDelayStep(config, attempt + 1, wide);
        attempt := attempt + 1;
      }
    }
  }

  // ---------------------------------------------------------------- loop and closed form compared

  function Min(a: int, b: int): int { if a < b then a else b }

  function ClosedForm(c: RetryConfig): BackoffConfig {
    BackoffConfig(Exponential, c.initialDelay, c.maxDelay, c.multiplier)
  }

  lemma ScaleRange(d: int, max: int, m: int)
    requires m >= 1 && 0 < d <= max
    ensures d <= d * m <= max * m
  {
    assert (max - d) * m >= 0;
    assert d * (m - 1) >= 0;
  }

  lemma RealProduct(d: int, m: int)
    ensures Times(d as real, m as real) == (d * m) as real
  {
  }

  /** The step of the loop on integers, when the product is in range or its replacement reaches the clamp. */
  lemma NextDelayExact(c: RetryConfig, m: int, delay: int, wide: int)
    requires c.multiplier == m as real && m >= 1 && 0 < delay <= c.maxDelay <= MAX_INT64
    requires delay * m <= MAX_INT64 || wide >= c.maxDelay
    ensures NextDelay(c, delay, wide) == Min(delay * m, c.maxDelay)
  {
    hide Times, ToDuration;
    ScaleRange(delay, c.maxDelay, m);
    RealProduct(delay, m);
    DurationOfInt(delay * m, wide);
  }

  lemma MinScaled(a: int, b: int, max: int, m: int)
    requires m >= 1 && max > 0 && b > 0 && a == Min(b, max)
    ensures Min(a * m, max) == Min(b * m, max)
  {
    if b > max {
      ScaleRange(max, b, m);
    }
  }

  lemma PowerStep(a: int, m: int, n: nat)
    requires m >= 1 && a >= 1
    ensures a * IntPow(m, n) * m == a * IntPow(m, n + 1)
    ensures a * IntPow(m, n) >= 1
  {
    IntPowAtLeastOne(m, n);
    ScaleRange(a, a, IntPow(m, n));
    assert a * IntPow(m, n) * m == a * (m * IntPow(m, n));
  }

  lemma MinTimes(p: int, max: int, m: int)
    requires m >= 1 && p >= 1 && max >= 1
    ensures Min(p, max) * m == Min(p * m, max * m) && p <= p * m
  {
    ScaleRange(p, p, m);
    if p < max { ScaleRange(p, max, m); } else { ScaleRange(max, p, m); }
  }

  /**
   The base delay of the loop is the clamped power as long as the power fits an int64, and for every
   attempt if no delay can leave the range or the platform's replacement reaches the clamp.
  */
  lemma {:induction false} BaseDelayIsClampedPower(c: RetryConfig, m: int, k: nat, wide: int)
    requires ValidConfig(c) && c.multiplier == m as real && m >= 1 && k >= 1 && c.initialDelay <= c.maxDelay
    requires c.initialDelay * IntPow(m, k - 1) <= MAX_INT64 || c.maxDelay * m <= MAX_INT64 || wide >= c.maxDelay
    ensures BaseDelay(c, k, wide) == Min(c.initialDelay * IntPow(m, k - 1), c.maxDelay)
    ensures 0 < BaseDelay(c, k, wide) <= c.maxDelay
  {
    hide NextDelay, Times;
    if k > 1 {
      var p := c.initialDelay * IntPow(m, k - 2);
      PowerStep(c.initialDelay, m, k - 2);
      MinTimes(p, c.maxDelay, m);
      BaseDelayIsClampedPower(c, m, k - 1, wide);
      var d := BaseDelay(c, k - 1, wide);
      MinScaled(d, p, c.maxDelay, m);
      NextDelayExact(c, m, d, wide);
      BaseDelayStep(c, k, wide);
      PowerStep(c.initialDelay, m, k - 1);
    }
  }

  lemma BelowMinimum(m: int)
    requires m >= 2
    ensures ToDuration(Times(MIN_INT64 as real, m as real), MIN_INT64) == MIN_INT64
  {
    RealProduct(MIN_INT64, m);
    assert MIN_INT64 * m <= MIN_INT64 * 2;
  }

  lemma {:induction false} PowersOfOne(n: nat)
    ensures IntPow(1, n) == 1
  {
    if n > 0 { PowersOfOne(n - 1); }
  }

  /** On amd64, once the power is too wide, so is the delay of a loop that is not held back by its clamp. */
  lemma {:induction false} LoopTurnsNegativeToo(c: RetryConfig, m: int, k: nat)
    requires ValidConfig(c) && c.multiplier == m as real && m >= 1 && k >= 1 && c.initialDelay <= c.maxDelay
    requires c.initialDelay * IntPow(m, k - 1) > MAX_INT64 && c.maxDelay * m > MAX_INT64
    ensures BaseDelay(c, k, MIN_INT64) == MIN_INT64
  {
    hide Times, ToDuration;
    PowersOfOne(k - 1);
    assert m >= 2 && k >= 2;
    var p := c.initialDelay * IntPow(m, k - 2);
    PowerStep(c.initialDelay, m, k - 2);
    BaseDelayStep(c, k, MIN_INT64);
    if p <= MAX_INT64 {
      BaseDelayIsClampedPower(c, m, k - 1, MIN_INT64);
      MinTimes(p, c.maxDelay, m);
      RealProduct(Min(p, c.maxDelay), m);
      DurationOfInt(Min(p, c.maxDelay) * m, MIN_INT64);
    } else {
      LoopTurnsNegativeToo(c, m, k - 1);
      BelowMinimum(m);
    }
  }

  /** The closed form is the clamped power, or whatever the platform makes of a power too wide. */
  lemma BackoffIsClampedPower(c: RetryConfig, m: int, k: nat, wide: int)
    requires ValidConfig(c) && c.multiplier == m as real && m >= 1 && k >= 1
    ensures var p := c.initialDelay * IntPow(m, k - 1);
      Backoff(ClosedForm(c), k, wide) == Min(if p <= MAX_INT64 then p else wide, c.maxDelay)
  {
    hide Times, ToDuration, Pow, IntPow;
    PowOfInteger(m, k - 1);
    PowerStep(c.initialDelay, m, k - 1);
    RealProduct(c.initialDelay, IntPow(m, k - 1));
    DurationOfInt(c.initialDelay * IntPow(m, k - 1), wide);
  }

  /**
   The k-th base delay of the loop equals Backoff(k) whenever the power fits an int64, whatever the
   platform does. On amd64 (MIN_INT64), and wherever the replacement reaches the clamp (arm64), they
   are equal exactly if the power fits, or the clamp hides it, or the loop leaves the range as well.
  */
  lemma {:induction false} LoopEqualsClosedForm(c: RetryConfig, m: int, k: nat, wide: int)
    requires ValidConfig(c) && c.multiplier == m as real && m >= 1 && k >= 1 && c.initialDelay <= c.maxDelay
    ensures c.initialDelay * IntPow(m, k - 1) <= MAX_INT64 ==> BaseDelay(c, k, wide) == Backoff(ClosedForm(c), k, wide)
    ensures wide == MIN_INT64 || wide >= c.maxDelay ==> (
      BaseDelay(c, k, wide) == Backoff(ClosedForm(c), k, wide) <==>
        c.initialDelay * IntPow(m, k - 1) <= MAX_INT64 || wide >= c.maxDelay || c.maxDelay * m > MAX_INT64)
  {
    hide BaseDelay, Backoff, IntPow;
    BackoffIsClampedPower(c, m, k, wide);
    if c.initialDelay * IntPow(m, k - 1) <= MAX_INT64 || wide >= c.maxDelay || c.maxDelay * m <= MAX_INT64 {
      BaseDelayIsClampedPower(c, m, k, wide);
    } else if wide == MIN_INT64 {
      LoopTurnsNegativeToo(c, m, k);
    }
  }

  /** They agree on every attempt within range only if the first delay is not itself clamped. */
  lemma {:induction false} AgreementNeedsInitialWithinMax(c: RetryConfig, m: int, wide: int)
    requires ValidConfig(c) && c.multiplier == m as real && m >= 1
    ensures (forall k: nat | k >= 1 && c.initialDelay * IntPow(m, k - 1) <= MAX_INT64 ::
              BaseDelay(c, k, wide) == Backoff(ClosedForm(c), k, wide))
       <==> c.initialDelay <= c.maxDelay
  {
    if c.initialDelay <= c.maxDelay {
      forall k: nat | k >= 1 && c.initialDelay * IntPow(m, k - 1) <= MAX_INT64
        ensures BaseDelay(c, k, wide) == Backoff(ClosedForm(c), k, wide)
      {
        LoopEqualsClosedForm(c, m, k, wide);
      }
    } else {
      BackoffIsClampedPower(c, m, 1, wide);
      assert IntPow(m, 0) == 1;
      assert c.initialDelay * IntPow(m, 1 - 1) <= MAX_INT64;
      assert BaseDelay(c, 1, wide) != Backoff(ClosedForm(c), 1, wide);
    }
  }

  lemma {:induction false} IntPowAdd(x: int, a: nat, b: nat)
    ensures IntPow(x, a + b) == IntPow(x, a) * IntPow(x, b)
  {
    if a > 0 {
      IntPowAdd(x, a - 1, b);
      assert x * (IntPow(x, a - 1) * IntPow(x, b)) == x * IntPow(x, a - 1) * IntPow(x, b);
    }
  }

  /**
   With the default settings on amd64 the closed form turns negative at attempt 38, where the
   loop would wait the full 10 seconds.
  */
  lemma DefaultBackoffTurnsNegative()
    ensures var c := RetryConfig(100, 100 * MILLISECOND, 10_000 * MILLISECOND, 2.0, 0.1);
      && Backoff(ClosedForm(c), 38, MIN_INT64) == MIN_INT64
      && BaseDelay(c, 38, MIN_INT64) == 10_000 * MILLISECOND
  {
    var c := RetryConfig(100, 100 * MILLISECOND, 10_000 * MILLISECOND, 2.0, 0.1);
    assert IntPow(2, 5) == 32;
    IntPowAdd(2, 5, 5);
    IntPowAdd(2, 10, 10);
    IntPowAdd(2, 20, 10);
    IntPowAdd(2, 30, 5);
    assert IntPow(2, 2) == 4;
    IntPowAdd(2, 35, 2);
    assert IntPow(2, 37) == 137438953472;
    BackoffIsClampedPower(c, 2, 38, MIN_INT64);
    BaseDelayIsClampedPower(c, 2, 38, MIN_INT64);
  }

  // ---------------------------------------------------------------- the other policies

  /** The clamp in exact arithmetic; a limit that is not positive is none. */
  function Clamped(delay: int, max: int): int {
    if max > 0 && delay > max then max else delay
  }

  lemma WrapsElsewhere(x: int)
    ensures MIN_INT64 <= Wrap64(x) <= MAX_INT64
    ensures Wrap64(x) == x <==> MIN_INT64 <= x <= MAX_INT64
  {
  }

  /**
   For all settings and attempts: linear backoff is the clamped multiple of the first delay exactly
   when that multiple fits an int64, or the clamp hides that it wrapped.
  */
  lemma {:induction false} LinearIsClampedMultipleIff(config: BackoffConfig, attempt: int, wide: int)
    requires config.policy.Linear? && config.maxDelay <= MAX_INT64
    ensures var p := config.initialDelay * attempt;
      Backoff(config, attempt, wide) == Clamped(p, config.maxDelay) <==>
        MIN_INT64 <= p <= MAX_INT64 || (p > MAX_INT64 && config.maxDelay > 0 && Wrap64(p) >= config.maxDelay)
  {
    hide Wrap64;
    WrapsElsewhere(config.initialDelay * attempt);
  }

  /** In range each attempt of the linear policy adds one first delay, and the constant policy none. */
  lemma {:induction false} PoliciesStep(c: RetryConfig, attempt: nat, wide: int)
    requires ValidConfig(c) && c.initialDelay * (attempt + 1) <= c.maxDelay
    ensures var linear := BackoffConfig(Linear, c.initialDelay, c.maxDelay, c.multiplier);
      Backoff(linear, attempt + 1, wide) == Backoff(linear, attempt, wide) + c.initialDelay
    ensures var constant := BackoffConfig(Constant, c.initialDelay, c.maxDelay, c.multiplier);
      Backoff(constant, attempt, wide) == c.initialDelay
  {
    var p := c.initialDelay * attempt;
    assert c.initialDelay * (attempt + 1) == p + c.initialDelay && p >= 0;
    NoWrap(p);
    NoWrap(p + c.initialDelay);
  }

  /** All policies give the first attempt the same delay, clamped, and the constant one every other attempt too. */
  lemma PoliciesAgreeAtFirst(initial: int, max: int, multiplier: real, attempt: int, wide: int)
    requires MIN_INT64 <= initial <= MAX_INT64
    ensures var linear := Backoff(BackoffConfig(Linear, initial, max, multiplier), 1, wide);
      && linear == Clamped(initial, max)
      && Backoff(BackoffConfig(Exponential, initial, max, multiplier), 1, wide) == linear
      && Backoff(BackoffConfig(Constant, initial, max, multiplier), attempt, wide) == linear
  {
    NoWrap(initial);
    assert Pow(if multiplier <= 0.0 then 2.0 else multiplier, 0) == 1.0;
    TruncateInt(initial);
  }

  lemma TruncateInt(x: int)
    ensures Truncate(Times(x as real, 1.0)) == x
  {
    assert Times(x as real, 1.0) == x as real;
  }

  /** A multiplier that is not positive counts as two. */
  lemma {:induction false} MissingMultiplierDoubles(initial: int, max: int, multiplier: real, k: nat, wide: int)
    requires multiplier <= 0.0 && 0 < initial && 0 < max && k >= 1 && initial * IntPow(2, k - 1) <= MAX_INT64
    ensures Backoff(BackoffConfig(Exponential, initial, max, multiplier), k, wide) == Min(initial * IntPow(2, k - 1), max)
  {
    hide Times, ToDuration, Pow, IntPow;
    PowOfInteger(2, k - 1);
    PowerStep(initial, 2, k - 1);
    RealProduct(initial, IntPow(2, k - 1));
    DurationOfInt(initial * IntPow(2, k - 1), wide);
  }

  /** Attempts before the first divide: the policy is one power law over all attempts. */
  lemma {:induction false} EarlierAttemptsDivide(c: RetryConfig, m: int, j: nat, wide: int)
    requires ValidConfig(c) && c.multiplier == m as real && m >= 1
    ensures IntPow(m, j) >= 1
    ensures Backoff(ClosedForm(c), 1 - j, wide) == Min(c.initialDelay / IntPow(m, j), c.maxDelay)
  {
    hide Times, Pow, IntPow, ToDuration;
    IntPowAtLeastOne(m, j);
    PowOfInteger(m, j);
    Quotient(c.initialDelay, IntPow(m, j), wide);
    FirstPower(c, m, j);
  }

  lemma FirstPower(c: RetryConfig, m: int, j: nat)
    requires m >= 1 && c.multiplier == m as real
    ensures j == 0 ==> Pow(c.multiplier, 0) == 1.0 && IntPow(m, 0) == 1
    ensures j >= 1 ==> Pow(c.multiplier, j) > 0.0 && InversePow(c.multiplier, j) == 1.0 / Pow(c.multiplier, j)
  {
    PowPositive(c.multiplier, j);
  }

  lemma Quotient(d: int, q: int, wide: int)
    requires 0 < d <= MAX_INT64 && q >= 1
    ensures ToDuration(Times(d as real, 1.0 / (q as real)), wide) == d / q
  {
    hide Times;
    var x := Times(d as real, 1.0 / (q as real));
    QuotientTimes(d as real, q as real);
    var k := d / q;
    assert d < (k + 1) * q && k * q <= d;
    RealProduct(k, q);
    RealProduct(k + 1, q);
    FactorOrder(x, k as real, q as real);
    FactorOrder(x, (k + 1) as real, q as real);
    AtMost(d, q);
    FloorBetween(x, k);
    InRange(x, wide);
  }

  lemma FloorBetween(x: real, k: int)
    requires k as real <= x < (k + 1) as real
    ensures x.Floor == k
  {
  }

  lemma QuotientTimes(d: real, q: real)
    requires q > 0.0
    ensures Times(Times(d, 1.0 / q), q) == d
  {
    assert (1.0 / q) * q == 1.0;
    assert (d * (1.0 / q)) * q == d * ((1.0 / q) * q);
  }

  lemma FactorOrder(a: real, b: real, q: real)
    requires q > 0.0
    ensures a < b <==> Times(a, q) < Times(b, q)
  {
    if a < b { assert (b - a) * q > 0.0; } else { assert (a - b) * q >= 0.0; }
  }

  lemma AtMost(d: int, q: int)
    requires d > 0 && q >= 1
    ensures 0 <= d / q <= d
  {
    assert d / q * q <= d;
  }

  // ---------------------------------------------------------------- fractional multipliers

  lemma RealPowerStep(a: real, m: real, n: nat)
    requires a > 0.0 && m > 0.0
    ensures Times(Times(a, Pow(m, n)), m) == Times(a, Pow(m, n + 1))
    ensures Times(a, Pow(m, n)) > 0.0
  {
    PowPositive(m, n);
    TimesRotate(a, Pow(m, n), m);
  }

  lemma TimesOne(a: real, m: real)
    ensures Times(a, Pow(m, 0)) == a
  {
  }

  lemma TimesRotate(a: real, b: real, c: real)
    ensures Times(Times(a, b), c) == Times(a, Times(c, b))
    ensures a > 0.0 && b > 0.0 ==> Times(a, b) > 0.0
  {
  }

  lemma StepRange(d: real, p: real, m: real)
    requires m >= 1.0 && 0.0 < d <= p
    ensures d <= Times(d, m) <= Times(p, m) && p <= Times(p, m)
  {
    assert d * (m - 1.0) >= 0.0;
    assert p * (m - 1.0) >= 0.0;
    assert (p - d) * m >= 0.0;
  }

  lemma ClampedStep(d: int, x: real, top: real, max: int, wide: int)
    requires 0 < d <= max && d as real <= x < (MAX_INT64 + 1) as real && x <= top
    ensures 0 < Min(ToDuration(x, wide), max) <= max
    ensures Min(ToDuration(x, wide), max) as real <= top
  {
    InRange(x, wide);
    FloorMono(d as real, x);
    FloorMono(x, x);
  }

  /** One truncated and clamped step stays positive, below the clamp and below the exact product. */
  lemma NextDelayBelow(c: RetryConfig, d: int, p: real, wide: int)
    requires c.multiplier >= 1.0 && 0 < d <= c.maxDelay && d as real <= p
    requires Times(p, c.multiplier) < (MAX_INT64 + 1) as real
    ensures 0 < NextDelay(c, d, wide) <= c.maxDelay
    ensures NextDelay(c, d, wide) as real <= Times(p, c.multiplier)
  {
    hide Times, ToDuration;
    StepRange(d as real, p, c.multiplier);
    ClampedStep(d, Times(d as real, c.multiplier), Times(p, c.multiplier), c.maxDelay, wide);
  }

  lemma {:induction false} BelowPower(c: RetryConfig, k: nat, wide: int)
    requires ValidConfig(c) && c.multiplier >= 1.0 && k >= 1 && c.initialDelay <= c.maxDelay
    requires Times(c.initialDelay as real, Pow(c.multiplier, k - 1)) < (MAX_INT64 + 1) as real
    ensures 0 < BaseDelay(c, k, wide) <= c.maxDelay
    ensures BaseDelay(c, k, wide) as real <= Times(c.initialDelay as real, Pow(c.multiplier, k - 1))
  {
    hide NextDelay, Times;
    if k > 1 {
      var p := Times(c.initialDelay as real, Pow(c.multiplier, k - 2));
      RealPowerStep(c.initialDelay as real, c.multiplier, k - 2);
      StepRange(p, p, c.multiplier);
      BelowPower(c, k - 1, wide);
      NextDelayBelow(c, BaseDelay(c, k - 1, wide), p, wide);
      BaseDelayStep(c, k, wide);
    } else {
      TimesOne(c.initialDelay as real, c.multiplier);
    }
  }

  lemma NeverAboveClamp(c: RetryConfig, k: nat, wide: int)
    requires c.initialDelay <= c.maxDelay && k >= 1
    ensures BaseDelay(c, k, wide) <= c.maxDelay
  {
  }

  lemma TruncatedPower(c: RetryConfig, k: nat, p: real, wide: int)
    requires c.multiplier > 0.0 && k >= 1 && c.maxDelay > 0
    requires p == Times(c.initialDelay as real, Pow(c.multiplier, k - 1)) && p >= 0.0
    ensures Backoff(ClosedForm(c), k, wide) == Min(if p < (MAX_INT64 + 1) as real then p.Floor else wide, c.maxDelay)
  {
    hide Times, Pow, ToDuration;
    if p < (MAX_INT64 + 1) as real { InRange(p, wide); } else { OutOfRange(p, wide); }
  }

  lemma OutOfRange(x: real, wide: int)
    requires x >= (MAX_INT64 + 1) as real
    ensures ToDuration(x, wide) == wide
  {
  }

  /**
   The loop truncates at every step, so it never waits longer than the closed form, as long as that
   is in range or the platform's replacement reaches the clamp.
  */
  lemma {:induction false} LoopNeverExceedsClosedForm(c: RetryConfig, k: nat, wide: int)
    requires ValidConfig(c) && c.multiplier >= 1.0 && k >= 1 && c.initialDelay <= c.maxDelay
    requires Times(c.initialDelay as real, Pow(c.multiplier, k - 1)) < (MAX_INT64 + 1) as real || wide >= c.maxDelay
    ensures BaseDelay(c, k, wide) <= Backoff(ClosedForm(c), k, wide)
  {
    hide Backoff, BaseDelay, NextDelay, Times;
    var p := Times(c.initialDelay as real, Pow(c.multiplier, k - 1));
    RealPowerStep(c.initialDelay as real, c.multiplier, k - 1);
    TruncatedPower(c, k, p, wide);
    NeverAboveClamp(c, k, wide);
    if p < (MAX_INT64 + 1) as real {
      BelowPower(c, k, wide);
      FloorMono(BaseDelay(c, k, wide) as real, p);
    }
  }

  /** With a fractional multiplier it can wait strictly less: 1ns stays 1ns at a factor of 1.5. */
  lemma FractionalMultiplierFallsBehind(wide: int)
    ensures var c := RetryConfig(3, 1, 100, 1.5, 0.0);
      BaseDelay(c, 3, wide) == 1 && Backoff(ClosedForm(c), 3, wide) == 2
  {
    var c := RetryConfig(3, 1, 100, 1.5, 0.0);
    assert NextDelay(c, 1, wide) == 1;
    assert BaseDelay(c, 2, wide) == 1;
    assert Pow(1.5, 2) == 2.25;
  }
}
