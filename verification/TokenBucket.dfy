/**
 The token-bucket limiter of resilience/ratelimit.go, over exact real arithmetic.

 Besides the interval bound on what a run can grant, it is proved that refused calls leave no
 trace: erasing any of them from a run changes none of the remaining decisions.
*/
module TokenBucket {

  datatype Config = Config(maxTokens: real, refillRate: real)
  datatype Bucket = Bucket(tokens: real, lastRefill: real)
  datatype Call = Call(n: int, at: real)

  ghost predicate ValidConfig(c: Config) {
    c.maxTokens >= 1.0 && c.refillRate > 0.0
  }

  ghost predicate ValidBucket(c: Config, b: Bucket) {
    0.0 <= b.tokens <= c.maxTokens
  }

  // ---------------------------------------------------------------- one call

  /** Tokens that accrue between two instants. */
  function Accrued(c: Config, from: real, until: real): real {
    (until - from) * c.refillRate
  }

  lemma AccruedAdds(c: Config, a: real, b: real, d: real)
    requires c.refillRate > 0.0
    ensures Accrued(c, a, b) + Accrued(c, b, d) == Accrued(c, a, d)
    ensures a <= b ==> Accrued(c, a, b) >= 0.0
    ensures b <= d ==> Accrued(c, b, d) >= 0.0
  {
  }

  function Refill(c: Config, b: Bucket, now: real): Bucket {
    var t := b.tokens + Accrued(c, b.lastRefill, now);
    Bucket(if t > c.maxTokens then c.maxTokens else t, now)
  }

  predicate Refillable(c: Config, n: int) {
    n > 0 && n as real <= c.maxTokens
  }

  predicate Decision(c: Config, b: Bucket, call: Call) {
    Refillable(c, call.n) && Refill(c, b, call.at).tokens >= call.n as real
  }

  function After(c: Config, b: Bucket, call: Call): Bucket {
    if !Refillable(c, call.n) then b
    else
      var r := Refill(c, b, call.at);
      if Decision(c, b, call) then r.(tokens := r.tokens - call.n as real) else r
  }

  // ---------------------------------------------------------------- runs

  ghost predicate Clocked(b: Bucket, calls: seq<Call>) {
    && (|calls| > 0 ==> b.lastRefill <= calls[0].at)
    && (forall i, j | 0 <= i < j < |calls| :: calls[i].at <= calls[j].at)
  }

  function Decisions(c: Config, b: Bucket, calls: seq<Call>): (d: seq<bool>)
    ensures |d| == |calls|
    decreases calls
  {
    if |calls| == 0 then []
    else [Decision(c, b, calls[0])] + Decisions(c, After(c, b, calls[0]), calls[1..])
  }

  function Final(c: Config, b: Bucket, calls: seq<Call>): Bucket
    decreases calls
  {
    if |calls| == 0 then b else Final(c, After(c, b, calls[0]), calls[1..])
  }

  /** The permits granted by a run. */
  function GrantedBy(c: Config, b: Bucket, calls: seq<Call>): int
    decreases calls
  {
    if |calls| == 0 then 0
    else (if Decision(c, b, calls[0]) then calls[0].n else 0) + GrantedBy(c, After(c, b, calls[0]), calls[1..])
  }

  lemma RefillStaysInRange(c: Config, b: Bucket, now: real)
    requires ValidConfig(c) && ValidBucket(c, b) && b.lastRefill <= now
    ensures ValidBucket(c, Refill(c, b, now)) && Refill(c, b, now).tokens >= b.tokens
  {
    AccruedAdds(c, b.lastRefill, now, now);
  }

  lemma AfterStaysInRange(c: Config, b: Bucket, call: Call)
    requires ValidConfig(c) && ValidBucket(c, b) && b.lastRefill <= call.at
    ensures ValidBucket(c, After(c, b, call)) && After(c, b, call).lastRefill <= call.at
  {
    if Refillable(c, call.n) { RefillStaysInRange(c, b, call.at); }
  }

  // ---------------------------------------------------------------- the interval bound

  /** Whatever a run grants beyond its opening tokens was refilled while it lasted. */
  lemma {:induction false} GrantedIsPaidFor(c: Config, b: Bucket, calls: seq<Call>, until: real)
    requires ValidConfig(c) && ValidBucket(c, b) && Clocked(b, calls)
    requires b.lastRefill <= until && forall i | 0 <= i < |calls| :: calls[i].at <= until
    ensures ValidBucket(c, Final(c, b, calls))
    ensures GrantedBy(c, b, calls) as real <= b.tokens + Accrued(c, b.lastRefill, until)
    decreases calls
  {
    AccruedAdds(c, b.lastRefill, until, until);
    if |calls| > 0 {
      var b' := After(c, b, calls[0]);
      AfterStaysInRange(c, b, calls[0]);
      GrantedIsPaidFor(c, b', calls[1..], until);
      if Refillable(c, calls[0].n) {
        AccruedAdds(c, b.lastRefill, calls[0].at, until);
      }
    }
  }

  lemma {:induction false} FinalIsCurrent(c: Config, b: Bucket, calls: seq<Call>, i: nat)
    requires ValidConfig(c) && ValidBucket(c, b) && Clocked(b, calls) && i < |calls|
    ensures ValidBucket(c, Final(c, b, calls[..i])) && Final(c, b, calls[..i]).lastRefill <= calls[i].at
    decreases i
  {
    if i > 0 {
      AfterStaysInRange(c, b, calls[0]);
      FinalIsCurrent(c, After(c, b, calls[0]), calls[1..], i - 1);
      assert calls[..i][1..] == calls[1..][..i - 1] && calls[..i][0] == calls[0];
    }
  }

  /** Bringing the bucket up to date before the first call caps what the run can draw. */
  lemma {:induction false} StretchBound(c: Config, b: Bucket, calls: seq<Call>, until: real)
    requires ValidConfig(c) && ValidBucket(c, b) && Clocked(b, calls) && |calls| > 0
    requires forall i | 0 <= i < |calls| :: calls[i].at <= until
    ensures GrantedBy(c, b, calls) as real <= c.maxTokens + Accrued(c, calls[0].at, until)
  {
    var r := Refill(c, b, calls[0].at);
    RefillStaysInRange(c, b, calls[0].at);
    RefillIsInvisible(c, b, calls[0].at, calls);
    GrantedIsPaidFor(c, r, calls, until);
  }

  /**
   The bound over any stretch i..j of any run: at most the bucket size plus what refills between
   the two calls.
   */
  lemma {:induction false} IntervalBound(c: Config, b: Bucket, calls: seq<Call>, i: nat, j: nat)
    requires ValidConfig(c) && ValidBucket(c, b) && Clocked(b, calls)
    requires i <= j < |calls|
    ensures GrantedBy(c, Final(c, b, calls[..i]), calls[i..j + 1]) as real
         <= c.maxTokens + Accrued(c, calls[i].at, calls[j].at)
  {
    hide Accrued, Final, GrantedBy;
    FinalIsCurrent(c, b, calls, i);
    var stretch := calls[i..j + 1];
    assert forall k | 0 <= k < |stretch| :: stretch[k] == calls[i + k];
    StretchBound(c, Final(c, b, calls[..i]), stretch, calls[j].at);
  }

  // ---------------------------------------------------------------- refused calls leave no trace

  /** Two buckets that hold the same number of tokens from now on. */
  ghost predicate Same(c: Config, a: Bucket, b: Bucket, now: real) {
    forall t: real | t >= now :: Refill(c, a, t) == Refill(c, b, t)
  }

  lemma RefillTwice(c: Config, b: Bucket, now: real, t: real)
    requires ValidConfig(c) && b.lastRefill <= now <= t
    ensures Refill(c, Refill(c, b, now), t) == Refill(c, b, t)
  {
    AccruedAdds(c, b.lastRefill, now, t);
  }

  lemma RefillIsSame(c: Config, b: Bucket, now: real)
    requires ValidConfig(c) && b.lastRefill <= now
    ensures Same(c, Refill(c, b, now), b, now)
  {
    forall t: real | t >= now ensures Refill(c, Refill(c, b, now), t) == Refill(c, b, t) {
      RefillTwice(c, b, now, t);
    }
  }

  /** Equivalent buckets decide alike and stay equivalent. */
  lemma SameDecides(c: Config, a: Bucket, b: Bucket, now: real, call: Call)
    requires ValidConfig(c) && Same(c, a, b, now) && now <= call.at
    ensures Decision(c, a, call) == Decision(c, b, call)
    ensures Same(c, After(c, a, call), After(c, b, call), call.at)
  {
    assert Refill(c, a, call.at) == Refill(c, b, call.at);
  }

  lemma RefusedIsSame(c: Config, b: Bucket, call: Call)
    requires ValidConfig(c) && b.lastRefill <= call.at && !Decision(c, b, call)
    ensures Same(c, After(c, b, call), b, call.at)
  {
    if Refillable(c, call.n) { RefillIsSame(c, b, call.at); }
  }

  lemma {:induction false} SameRun(c: Config, a: Bucket, b: Bucket, now: real, calls: seq<Call>)
    requires ValidConfig(c) && Same(c, a, b, now)
    requires |calls| > 0 ==> now <= calls[0].at
    requires forall i, j | 0 <= i < j < |calls| :: calls[i].at <= calls[j].at
    ensures Decisions(c, a, calls) == Decisions(c, b, calls)
    ensures GrantedBy(c, a, calls) == GrantedBy(c, b, calls)
    decreases calls
  {
    if |calls| > 0 {
      SameDecides(c, a, b, now, calls[0]);
      SameRun(c, After(c, a, calls[0]), After(c, b, calls[0]), calls[0].at, calls[1..]);
    }
  }

  lemma RefillIsInvisible(c: Config, b: Bucket, now: real, calls: seq<Call>)
    requires ValidConfig(c) && b.lastRefill <= now
    requires |calls| > 0 ==> now <= calls[0].at
    requires forall i, j | 0 <= i < j < |calls| :: calls[i].at <= calls[j].at
    ensures GrantedBy(c, Refill(c, b, now), calls) == GrantedBy(c, b, calls)
  {
    RefillIsSame(c, b, now);
    SameRun(c, Refill(c, b, now), b, now, calls);
  }

  /** The entries whose flag is set. */
  function Kept<T>(s: seq<T>, keep: seq<bool>): seq<T>
    requires |s| == |keep|
  {
    if |s| == 0 then [] else (if keep[0] then [s[0]] else []) + Kept(s[1..], keep[1..])
  }

  lemma {:induction false} ErasureFrom(c: Config, a: Bucket, b: Bucket, now: real, calls: seq<Call>, keep: seq<bool>)
    requires ValidConfig(c) && Same(c, a, b, now) && a.lastRefill <= now
    requires |calls| > 0 ==> now <= calls[0].at
    requires forall i, j | 0 <= i < j < |calls| :: calls[i].at <= calls[j].at
    requires |keep| == |calls|
    requires forall i | 0 <= i < |calls| :: !keep[i] ==> !Decisions(c, a, calls)[i]
    ensures Decisions(c, b, Kept(calls, keep)) == Kept(Decisions(c, a, calls), keep)
    decreases calls
  {
    if |calls| > 0 {
      var call := calls[0];
      var a' := After(c, a, call);
      var d := Decisions(c, a, calls);
      assert d[0] == Decision(c, a, call) && d[1..] == Decisions(c, a', calls[1..]);
      assert forall i | 0 <= i < |calls| - 1 :: d[1..][i] == d[i + 1];
      if keep[0] {
        SameDecides(c, a, b, now, call);
        ErasureFrom(c, a', After(c, b, call), call.at, calls[1..], keep[1..]);
        var k := Kept(calls, keep);
        assert k[0] == call && k[1..] == Kept(calls[1..], keep[1..]);
      } else {
        RefusedIsSame(c, a, call);
        assert Same(c, a', b, call.at);
        ErasureFrom(c, a', b, call.at, calls[1..], keep[1..]);
        assert Kept(calls, keep) == Kept(calls[1..], keep[1..]);
        assert Kept(d, keep) == Kept(d[1..], keep[1..]);
      }
    }
  }

  /** Erasing any refused calls from a run leaves every other decision as it was. */
  lemma RefusedCallsLeaveNoTrace(c: Config, b: Bucket, calls: seq<Call>, keep: seq<bool>)
    requires ValidConfig(c) && Clocked(b, calls) && |keep| == |calls|
    requires forall i | 0 <= i < |calls| :: !keep[i] ==> !Decisions(c, b, calls)[i]
    ensures Decisions(c, b, Kept(calls, keep)) == Kept(Decisions(c, b, calls), keep)
  {
    ErasureFrom(c, b, b, b.lastRefill, calls, keep);
  }

  // ---------------------------------------------------------------- the exact decisions

  /** The permits asked for by the calls whose flag is set. */
  function Given(calls: seq<Call>, granted: seq<bool>): int
    requires |calls| == |granted|
  {
    if |calls| == 0 then 0 else (if granted[0] then calls[0].n else 0) + Given(calls[1..], granted[1..])
  }

  /** What has been given since any of the calls leaves room for x more at t. */
  ghost predicate RoomSinceEach(c: Config, calls: seq<Call>, granted: seq<bool>, t: real, x: real)
    requires |calls| == |granted|
  {
    forall i | 0 <= i < |calls| :: Given(calls[i..], granted[i..]) as real + x <= c.maxTokens + Accrued(c, calls[i].at, t)
  }

  /** What has been given in all leaves room for x more at t. */
  predicate RoomSinceStart(c: Config, b: Bucket, calls: seq<Call>, granted: seq<bool>, t: real, x: real)
    requires |calls| == |granted|
  {
    Given(calls, granted) as real + x <= b.tokens + Accrued(c, b.lastRefill, t)
  }

  lemma RoomSplits(c: Config, calls: seq<Call>, granted: seq<bool>, t: real, x: real)
    requires |calls| == |granted| > 0
    ensures RoomSinceEach(c, calls, granted, t, x) <==>
      && Given(calls, granted) as real + x <= c.maxTokens + Accrued(c, calls[0].at, t)
      && RoomSinceEach(c, calls[1..], granted[1..], t, x)
  {
    hide Given, Accrued;
    assert calls[0..] == calls && granted[0..] == granted;
    assert forall i | 1 <= i < |calls| :: calls[i..] == calls[1..][i - 1..] && granted[i..] == granted[1..][i - 1..];
    if RoomSinceEach(c, calls, granted, t, x) {
      forall i | 0 <= i < |calls| - 1
        ensures Given(calls[1..][i..], granted[1..][i..]) as real + x <= c.maxTokens + Accrued(c, calls[1..][i].at, t)
      {
        assert calls[i + 1..] == calls[1..][i..] && granted[i + 1..] == granted[1..][i..];
      }
    }
  }

  /** A call that took nothing asks for no more room than the ones after it. */
  lemma IdleCallNeedsNothing(c: Config, calls: seq<Call>, granted: seq<bool>, t: real, x: real)
    requires ValidConfig(c) && |calls| == |granted| > 0 && !granted[0] && x <= c.maxTokens
    requires forall i, j | 0 <= i < j < |calls| :: calls[i].at <= calls[j].at
    requires calls[0].at <= t && RoomSinceEach(c, calls[1..], granted[1..], t, x)
    ensures Given(calls, granted) as real + x <= c.maxTokens + Accrued(c, calls[0].at, t)
  {
    hide Accrued;
    if |calls| > 1 {
      var rest, flags := calls[1..], granted[1..];
      assert rest[0..] == rest && flags[0..] == flags;
      AccruedAdds(c, calls[0].at, calls[1].at, t);
    } else {
      AccruedAdds(c, calls[0].at, t, t);
    }
  }

  /** The tokens there are at t, by the calls and what they were given. */
  lemma {:induction false} TokensIff(c: Config, b: Bucket, calls: seq<Call>, t: real, x: real)
    requires ValidConfig(c) && ValidBucket(c, b) && Clocked(b, calls) && b.lastRefill <= t
    requires forall i | 0 <= i < |calls| :: calls[i].at <= t
    ensures var d := Decisions(c, b, calls);
      Refill(c, Final(c, b, calls), t).tokens >= x
      <==> x <= c.maxTokens && RoomSinceEach(c, calls, d, t, x) && RoomSinceStart(c, b, calls, d, t, x)
    decreases calls
  {
    hide Accrued;
    if |calls| > 0 {
      var call, rest := calls[0], calls[1..];
      var b', d := After(c, b, call), Decisions(c, b, calls);
      assert d[0] == Decision(c, b, call) && d[1..] == Decisions(c, b', rest);
      AfterStaysInRange(c, b, call);
      TokensIff(c, b', rest, t, x);
      RoomSplits(c, calls, d, t, x);
      AccruedAdds(c, b.lastRefill, call.at, t);
      if x <= c.maxTokens && !d[0] && RoomSinceEach(c, rest, d[1..], t, x) {
        IdleCallNeedsNothing(c, calls, d, t, x);
      }
    }
  }

  lemma {:induction false} DecisionAt(c: Config, b: Bucket, calls: seq<Call>, k: nat)
    requires k < |calls|
    ensures Decisions(c, b, calls)[k] == Decision(c, Final(c, b, calls[..k]), calls[k])
    ensures Decisions(c, b, calls)[..k] == Decisions(c, b, calls[..k])
    decreases k
  {
    if k > 0 {
      var b' := After(c, b, calls[0]);
      DecisionAt(c, b', calls[1..], k - 1);
      assert calls[..k][1..] == calls[1..][..k - 1] && calls[..k][0] == calls[0];
      assert Decisions(c, b, calls)[..k] == [Decision(c, b, calls[0])] + Decisions(c, b', calls[1..])[..k - 1];
    }
  }

  /** So many permits fit the tokens there were plus what refills until t. */
  predicate Fits(c: Config, permits: int, tokens: real, from: real, t: real) {
    permits as real <= tokens + (t - from) * c.refillRate
  }

  lemma FitsIs(c: Config, given: int, n: int, tokens: real, from: real, t: real)
    ensures Fits(c, given + n, tokens, from, t) <==> given as real + n as real <= tokens + Accrued(c, from, t)
  {
  }

  lemma StartFits(c: Config, b: Bucket, calls: seq<Call>, d: seq<bool>, n: int, t: real)
    requires |calls| == |d|
    ensures RoomSinceStart(c, b, calls, d, t, n as real) <==> Fits(c, Given(calls, d) + n, b.tokens, b.lastRefill, t)
  {
    hide Accrued, Given, Fits;
    FitsIs(c, Given(calls, d), n, b.tokens, b.lastRefill, t);
  }

  lemma EachFits(c: Config, calls: seq<Call>, d: seq<bool>, k: nat, n: int, t: real)
    requires |calls| == |d| && k < |calls|
    ensures RoomSinceEach(c, calls[..k], d[..k], t, n as real)
      <==> forall i | 0 <= i < k :: Fits(c, Given(calls[i..k], d[i..k]) + n, c.maxTokens, calls[i].at, t)
  {
    hide Accrued, Given, Fits;
    forall i | 0 <= i < k
      ensures Fits(c, Given(calls[i..k], d[i..k]) + n, c.maxTokens, calls[i].at, t)
        <==> Given(calls[..k][i..], d[..k][i..]) as real + n as real <= c.maxTokens + Accrued(c, calls[i].at, t)
    {
      assert calls[..k][i..] == calls[i..k] && d[..k][i..] == d[i..k];
      FitsIs(c, Given(calls[i..k], d[i..k]), n, c.maxTokens, calls[i].at, t);
    }
  }

  /**
   The exact decision, in calls and grants alone: a request is granted if and only if it is valid and
   for every earlier call what was granted from that call on, with the request, fits the bucket size
   plus what refills since then, and all that was granted fits the opening tokens plus all that refills.
  */
  lemma {:induction false} GrantedIff(c: Config, b: Bucket, calls: seq<Call>, k: nat)
    requires ValidConfig(c) && ValidBucket(c, b) && Clocked(b, calls) && k < |calls|
    ensures var d, n, t := Decisions(c, b, calls), calls[k].n, calls[k].at;
      d[k] <==>
        && 0 < n && n as real <= c.maxTokens
        && (forall i | 0 <= i < k :: Fits(c, Given(calls[i..k], d[i..k]) + n, c.maxTokens, calls[i].at, t))
        && Fits(c, Given(calls[..k], d[..k]) + n, b.tokens, b.lastRefill, t)
  {
    hide Accrued, Given, Final, Decisions, Refill, Fits, RoomSinceEach, RoomSinceStart;
    var d, n, t := Decisions(c, b, calls), calls[k].n, calls[k].at;
    DecisionAt(c, b, calls, k);
    TokensIff(c, b, calls[..k], t, n as real);
    StartFits(c, b, calls[..k], d[..k], n, t);
    EachFits(c, calls, d, k, n, t);
  }

  // ---------------------------------------------------------------- waiting

  /** A single patient call at that instant would be granted. */
  predicate Ready(c: Config, b: Bucket, n: int, at: real) {
    b.tokens + Accrued(c, b.lastRefill, at) >= n as real
  }

  /** A wait is never longer than n permits take to refill. */
  lemma {:induction false} ReadyInTime(c: Config, b: Bucket, n: int, at: real)
    requires ValidConfig(c) && ValidBucket(c, b) && at >= b.lastRefill + n as real / c.refillRate
    ensures Ready(c, b, n, at)
  {
    hide Accrued;
    AccruedCovers(c, b.lastRefill, at, n as real);
  }

  lemma AccruedCovers(c: Config, from: real, until: real, x: real)
    requires c.refillRate > 0.0 && until >= from + x / c.refillRate
    ensures Accrued(c, from, until) >= x
  {
    DivisionUndone(x, c.refillRate);
    TimesMonotone(x / c.refillRate, until - from, c.refillRate);
  }

  lemma DivisionUndone(x: real, rate: real)
    requires rate > 0.0
    ensures (x / rate) * rate == x
  {
  }

  lemma TimesMonotone(low: real, high: real, rate: real)
    requires low <= high && rate > 0.0
    ensures low * rate <= high * rate
  {
    assert (high - low) * rate >= 0.0;
  }

  /** Polls up to an instant leave the bucket as one refill at that instant would. */
  lemma PollRefills(c: Config, b: Bucket, last: real, at: real, n: int)
    requires ValidConfig(c) && Refillable(c, n) && b.lastRefill <= last <= at
    ensures Refill(c, Refill(c, b, last), at) == Refill(c, b, at)
    ensures Decision(c, Refill(c, b, last), Call(n, at)) == Decision(c, b, Call(n, at)) == Ready(c, b, n, at)
    ensures After(c, Refill(c, b, last), Call(n, at)) == After(c, b, Call(n, at))
  {
    RefillTwice(c, b, last, at);
  }

  datatype Waited = Invalid | Served(tick: nat) | CutOff

  // ---------------------------------------------------------------- the limiter

  class TokenBucketLimiter {
    var tokens: real
    var lastRefill: real
    const config: Config

    ghost function View(): Bucket reads this { Bucket(tokens, lastRefill) }

    ghost predicate Valid()
      reads this
    {
      ValidConfig(config) && ValidBucket(config, View())
    }

    /** Starts full; non-positive settings fall back to 100 tokens and 10 per second. */
    constructor (maxTokens: int, refillRate: real, now: real)
      ensures Valid() && View() == Bucket(config.maxTokens, now)
      ensures config.maxTokens == (if maxTokens <= 0 then 100.0 else maxTokens as real)
      ensures config.refillRate == (if refillRate <= 0.0 then 10.0 else refillRate)
    {
      var m := if maxTokens <= 0 then 100.0 else maxTokens as real;
      config := Config(m, if refillRate <= 0.0 then 10.0 else refillRate);
      tokens, lastRefill := m, now;
    }

    method RefillNow(now: real)
      requires Valid() && lastRefill <= now
      modifies this
      ensures Valid() && View() == Refill(config, old(View()), now)
    {
      hide Accrued;
      RefillStaysInRange(config, View(), now);
      tokens := tokens + Accrued(config, lastRefill, now);
      if tokens > config.maxTokens {
        tokens := config.maxTokens;
      }
      lastRefill := now;
    }

    method AllowN(n: int, now: real) returns (ok: bool)
      requires Valid() && lastRefill <= now
      modifies this
      ensures Valid()
      ensures ok == Decision(config, old(View()), Call(n, now))
      ensures View() == After(config, old(View()), Call(n, now))
    {
      if n <= 0 || n as real > config.maxTokens {
        return false;
      }
      RefillNow(now);
      if tokens >= n as real {
        tokens := tokens - n as real;
        return true;
      }
      return false;
    }

    /**
     Asks again at every tick until the context ends, which is after the last of the ticks given.
     Asking costs nothing: the wait is served at the first tick at which a single call would be.
    */
    method WaitN(n: int, ticks: seq<real>) returns (waited: Waited)
      requires Valid() && (|ticks| > 0 ==> lastRefill <= ticks[0])
      requires forall i, j | 0 <= i < j < |ticks| :: ticks[i] <= ticks[j]
      modifies this
      ensures Valid()
      ensures waited.Invalid? <==> n <= 0 || n as real > config.maxTokens
      ensures waited.Invalid? ==> View() == old(View())
      ensures waited.Served? ==>
        && waited.tick < |ticks| && Ready(config, old(View()), n, ticks[waited.tick])
        && (forall i | 0 <= i < waited.tick :: !Ready(config, old(View()), n, ticks[i]))
        && View() == After(config, old(View()), Call(n, ticks[waited.tick]))
      ensures waited.CutOff? ==> forall i | 0 <= i < |ticks| :: !Ready(config, old(View()), n, ticks[i])
    {
      if n <= 0 || n as real > config.maxTokens {
        return Invalid;
      }
      ghost var b := View();
      for i := 0 to |ticks|
        invariant Valid() && lastRefill == if i == 0 then b.lastRefill else ticks[i - 1]
        invariant i == 0 ==> View() == b
        invariant i > 0 ==> View() == Refill(config, b, ticks[i - 1])
        invariant forall j | 0 <= j < i :: !Ready(config, b, n, ticks[j])
      {
        if i > 0 { PollRefills(config, b, ticks[i - 1], ticks[i], n); }
        var ok := AllowN(n, ticks[i]);
        if ok {
          return Served(i);
        }
      }
      return CutOff;
    }
  }
}
