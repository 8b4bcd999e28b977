/**
 The smooth weighted round-robin picker of grpc/balancer.go.

 Every pick adds each instance's weight to its current weight, takes the leftmost instance
 with the largest current weight, and charges it the total weight. The scheduler is proved
 exactly fair: every window of W = (sum of the weights) consecutive picks takes instance i
 exactly weight(i) times, and no prefix ever lets an instance run a whole pick ahead.
*/
module Balancer {
  import opened Common

  const MAX_SERVICE_WEIGHT := 1000

  // ---------------------------------------------------------------- weights

  /** The weight stored in an address attribute; absent or non-integer attributes give 1. */
  function WeightFromAddress(attribute: Option<int>): (w: int)
    ensures 1 <= w <= 1000
    ensures attribute.Some? && 1 <= attribute.value <= 1000 ==> w == attribute.value
    ensures attribute.None? || attribute.value <= 0 ==> w == 1
    ensures attribute.Some? && attribute.value > 1000 ==> w == 1000
  {
    match attribute
    case None => 1
    case Some(v) => if v <= 0 then 1 else if v > MAX_SERVICE_WEIGHT then MAX_SERVICE_WEIGHT else v
  }

  ghost predicate ValidWeights(ws: seq<int>) {
    |ws| > 0 && forall i | 0 <= i < |ws| :: ws[i] >= 1
  }

  // ---------------------------------------------------------------- one pick

  function Bump(ws: seq<int>, cw: seq<int>): (r: seq<int>)
    requires |ws| == |cw|
    ensures |r| == |cw|
  {
    seq(|cw|, i requires 0 <= i < |cw| => cw[i] + ws[i])
  }

  ghost predicate LeftmostMax(s: seq<int>, k: nat) {
    && k < |s|
    && (forall j | 0 <= j < |s| :: s[j] <= s[k])
    && (forall j | 0 <= j < k :: s[j] < s[k])
  }

  lemma {:induction false} LeftmostMaxExists(s: seq<int>)
    requires |s| > 0
    ensures exists k: nat :: LeftmostMax(s, k)
  {
    if |s| == 1 {
      assert LeftmostMax(s, 0);
    } else {
      var init := s[..|s| - 1];
      LeftmostMaxExists(init);
      var k: nat :| LeftmostMax(init, k);
      assert forall j | 0 <= j < |s| - 1 :: s[j] == init[j];
      assert LeftmostMax(s, if s[|s| - 1] > s[k] then |s| - 1 else k);
    }
  }

  ghost function ArgMax(s: seq<int>): (k: nat)
    requires |s| > 0
    ensures LeftmostMax(s, k)
  {
    LeftmostMaxExists(s);
    var k: nat :| LeftmostMax(s, k);
    k
  }

  lemma LeftmostMaxUnique(s: seq<int>, j: nat, k: nat)
    requires LeftmostMax(s, j) && LeftmostMax(s, k)
    ensures j == k
  {
    assert s[j] <= s[k] <= s[j];
  }

  /** The leftmost maximum pays the total weight. */
  ghost function Charge(b: seq<int>, total: int): (r: seq<int>)
    requires |b| > 0
    ensures |r| == |b|
  {
    b[ArgMax(b) := b[ArgMax(b)] - total]
  }

  /** The current weights after one pick. */
  ghost function After(ws: seq<int>, cw: seq<int>): (r: seq<int>)
    requires |ws| == |cw| > 0
    ensures |r| == |cw|
  {
    Charge(Bump(ws, cw), Sum(ws))
  }

  // ---------------------------------------------------------------- a run from the fresh picker

  function Zeros(n: nat): (r: seq<int>)
    ensures |r| == n && forall i | 0 <= i < n :: r[i] == 0
  {
    seq(n, i => 0)
  }

  /** The current weights after k picks. */
  ghost function State(ws: seq<int>, k: nat): (r: seq<int>)
    requires |ws| > 0
    ensures |r| == |ws|
  {
    if k == 0 then Zeros(|ws|) else After(ws, State(ws, k - 1))
  }

  /** The instance taken by pick number k, counting from 0. */
  ghost function PickAt(ws: seq<int>, k: nat): (i: nat)
    requires |ws| > 0
    ensures i < |ws|
  {
    ArgMax(Bump(ws, State(ws, k)))
  }

  /** How many of the picks start, ..., start + len - 1 take instance i. */
  ghost function Picks(ws: seq<int>, start: nat, len: nat, i: nat): (n: nat)
    requires |ws| > 0
    ensures n <= len
  {
    if len == 0 then 0
    else Picks(ws, start, len - 1, i) + (if PickAt(ws, start + len - 1) == i then 1 else 0)
  }

  lemma {:induction false} PicksSplit(ws: seq<int>, a: nat, b: nat, i: nat)
    requires |ws| > 0
    ensures Picks(ws, 0, a + b, i) == Picks(ws, 0, a, i) + Picks(ws, a, b, i)
  {
    if b > 0 { PicksSplit(ws, a, b - 1, i); }
  }

  // ---------------------------------------------------------------- invariants of every pick

  lemma {:induction false} SumZeros(n: nat)
    ensures Sum(Zeros(n)) == 0
  {
    SumBounds(Zeros(n), 0, 0);
  }

  lemma {:induction false} TotalPositive(ws: seq<int>)
    requires ValidWeights(ws)
    ensures Sum(ws) >= |ws| >= 1
  {
    SumBounds(ws, 1, MaxOf(ws));
  }

  /** W, the sum of the weights. */
  ghost function Total(ws: seq<int>): (w: nat)
    requires ValidWeights(ws)
    ensures w == Sum(ws) && w >= |ws| >= 1
  {
    TotalPositive(ws);
    Sum(ws)
  }

  /** One pick keeps the weights balanced and keeps every one of them above -W. */
  lemma {:induction false} AfterKeepsInvariant(ws: seq<int>, cw: seq<int>)
    requires ValidWeights(ws) && |cw| == |ws|
    requires Sum(cw) == 0
    requires forall i | 0 <= i < |cw| :: cw[i] > -Sum(ws)
    ensures Sum(After(ws, cw)) == 0
    ensures forall i | 0 <= i < |cw| :: After(ws, cw)[i] > -Sum(ws)
  {
    var b := Bump(ws, cw);
    var k := ArgMax(b);
    SumPointwise(cw, ws, b);
    SumUpdate(b, k, b[k] - Sum(ws));
    TotalPositive(ws);
    if b[k] <= 0 {
      // all bumped weights are at most b[k], so they could not add up to W
      assert |b| * b[k] <= 0;
      SumBounds(b, -Sum(ws), b[k]);
      assert false;
    }
  }

  ghost predicate Balanced(ws: seq<int>, k: nat)
    requires |ws| > 0
  {
    && Sum(State(ws, k)) == 0
    && forall i | 0 <= i < |ws| ::
         && State(ws, k)[i] > -Sum(ws)
         && State(ws, k)[i] == k * ws[i] - Sum(ws) * Picks(ws, 0, k, i)
  }

  /** After k picks: balanced, above -W, and cw(i) is exactly k*w(i) - W*n(i). */
  lemma {:induction false} RunInvariant(ws: seq<int>, k: nat)
    requires ValidWeights(ws)
    ensures Balanced(ws, k)
  {
    hide After, PickAt, Sum, Bump;
    if k == 0 {
      SumZeros(|ws|);
      TotalPositive(ws);
    } else {
      RunInvariant(ws, k - 1);
      var cw := State(ws, k - 1);
      AfterKeepsInvariant(ws, cw);
      Step(ws, k);
      forall i | 0 <= i < |ws|
        ensures State(ws, k)[i] == k * ws[i] - Sum(ws) * Picks(ws, 0, k, i)
      {
        AfterAt(ws, k, i);
        OneMoreShare(k, ws[i], Sum(ws), Picks(ws, 0, k - 1, i));
      }
    }
  }

  lemma AfterAt(ws: seq<int>, k: nat, i: nat)
    requires |ws| > 0 && k > 0 && i < |ws|
    ensures After(ws, State(ws, k - 1))[i] ==
      State(ws, k - 1)[i] + ws[i] - (if PickAt(ws, k - 1) == i then Sum(ws) else 0)
    ensures Picks(ws, 0, k, i) == Picks(ws, 0, k - 1, i) + (if PickAt(ws, k - 1) == i then 1 else 0)
  {
  }

  lemma OneMoreShare(k: int, w: int, total: int, n: int)
    ensures k * w - total * n == (k - 1) * w + w - total * n
    ensures k * w - total * (n + 1) == (k - 1) * w + w - total * n - total
  {
  }

  lemma ChargeBalance(ws: seq<int>, k: nat, i: nat)
    requires ValidWeights(ws) && i < |ws|
    ensures State(ws, k)[i] == k * ws[i] - Total(ws) * Picks(ws, 0, k, i)
  {
    RunInvariant(ws, k);
  }

  // ---------------------------------------------------------------- main theorems

  lemma MulMono(a: int, b: int, c: int)
    requires c >= 0
    ensures a <= b ==> a * c <= b * c
  {
    if a <= b { assert (b - a) * c >= 0; }
  }

  /** The multiple of w above -w nearest to zero is not negative. */
  lemma MultipleAbove(w: int, a: int, n: int, v: int)
    requires w >= 1 && v == w * a - w * n && v > -w
    ensures v >= 0
  {
    assert v == w * (a - n);
    MulMono(a - n, -1, w);
    MulMono(0, a - n, w);
  }

  lemma EqualShares(w: nat, k: int, a: int, n: int, m: int)
    requires w >= 1 && k * a - w * n == (k + w) * a - w * (n + m)
    ensures m == a
  {
    assert (k + w) * a == k * a + w * a;
    assert w * (n + m) == w * n + w * m;
    assert w * (a - m) == 0;
  }

  /** W picks bring every current weight back to zero. */
  lemma {:induction false} FullCycleReturnsToZero(ws: seq<int>)
    requires ValidWeights(ws)
    ensures State(ws, Total(ws)) == Zeros(|ws|)
  {
    var w := Total(ws);
    RunInvariant(ws, w);
    var s := State(ws, w);
    forall i | 0 <= i < |s| ensures s[i] >= 0 {
      MultipleAbove(w, ws[i], Picks(ws, 0, w, i), s[i]);
    }
    SumZero(s);
  }

  /** The current weights repeat with period W. */
  lemma {:induction false} Periodic(ws: seq<int>, k: nat)
    requires ValidWeights(ws)
    ensures State(ws, k + Total(ws)) == State(ws, k)
  {
    hide After, Sum;
    var w := Total(ws);
    if k == 0 {
      FullCycleReturnsToZero(ws);
    } else {
      Periodic(ws, k - 1);
      Step(ws, k);
      Step(ws, k + w);
    }
  }

  lemma Step(ws: seq<int>, k: nat)
    requires |ws| > 0 && k > 0
    ensures State(ws, k) == After(ws, State(ws, k - 1))
  {
  }

  /** So does the schedule itself. */
  lemma SchedulePeriodic(ws: seq<int>, k: nat)
    requires ValidWeights(ws)
    ensures PickAt(ws, k + Total(ws)) == PickAt(ws, k)
  {
    Periodic(ws, k);
  }

  /** Exact fairness: any W consecutive picks, from any reachable state, take i exactly w(i) times. */
  lemma {:induction false} ExactFairness(ws: seq<int>, start: nat, i: nat)
    requires ValidWeights(ws) && i < |ws|
    ensures Picks(ws, start, Total(ws), i) == ws[i]
  {
    hide State, Picks, Balanced;
    var w := Total(ws);
    ChargeBalance(ws, start, i);
    ChargeBalance(ws, start + w, i);
    Periodic(ws, start);
    PicksSplit(ws, start, w, i);
    EqualShares(w, start, ws[i], Picks(ws, 0, start, i), Picks(ws, start, w, i));
  }

  /** Smoothness at every prefix, with the two-sided bound on how far a current weight can move. */
  lemma {:induction false} Smoothness(ws: seq<int>, k: nat, i: nat)
    requires ValidWeights(ws) && i < |ws|
    ensures var w, n := Sum(ws), Picks(ws, 0, k, i);
      && w * n < k * ws[i] + w
      && w * n >= k * ws[i] - (|ws| - 1) * (w - 1)
    ensures Sum(State(ws, k)) == 0
    ensures -Sum(ws) < State(ws, k)[i] <= (|ws| - 1) * (Sum(ws) - 1)
  {
    hide After, Picks, Sum;
    var w := Sum(ws);
    RunInvariant(ws, k);
    var s := State(ws, k);
    var others := s[i := 1 - w];
    SumUpdate(s, i, 1 - w);
    SumBounds(others, 1 - w, MaxOf(others));
    assert |ws| * (1 - w) == (1 - w) - (|ws| - 1) * (w - 1);
  }

  lemma RangeOfProduct(n: int, w: int)
    requires 1 <= n <= 90_000_000 && n <= w <= 1000 * n
    ensures (n - 1) * (w - 1) + 1000 < 0x8000_0000_0000_0000
  {
    MulMono(n - 1, 89_999_999, w - 1);
  }

  /** With the weight clamp, every value the picker ever computes fits a signed 64-bit integer. */
  lemma {:induction false} ClampedWeightsStayInRange(ws: seq<int>, k: nat, i: nat)
    requires ValidWeights(ws) && i < |ws| <= 90_000_000
    requires forall j | 0 <= j < |ws| :: ws[j] <= MAX_SERVICE_WEIGHT
    ensures -0x8000_0000_0000_0000 <= State(ws, k)[i]
    ensures State(ws, k)[i] + ws[i] < 0x8000_0000_0000_0000
    ensures Sum(ws) < 0x8000_0000_0000_0000
  {
    var w := Total(ws);
    Smoothness(ws, k, i);
    SumBounds(ws, 1, MAX_SERVICE_WEIGHT);
    RangeOfProduct(|ws|, w);
  }

  // ---------------------------------------------------------------- the picker

  datatype SubConn = SubConn(address: string, weight: int, currentWeight: int)

  /** Lexicographic byte order of addresses, as sort.Slice compares them. */
  predicate Less(a: string, b: string) {
    |b| > 0 && (|a| == 0 || a[0] < b[0] || (a[0] == b[0] && Less(a[1..], b[1..])))
  }

  lemma {:induction false} LessAsymmetric(a: string, b: string)
    requires Less(a, b)
    ensures !Less(b, a)
  {
    if |a| > 0 && a[0] == b[0] { LessAsymmetric(a[1..], b[1..]); }
  }

  ghost predicate StrictlyOrdered(s: seq<SubConn>) {
    forall i, j | 0 <= i < j < |s| :: Less(s[i].address, s[j].address)
  }

  lemma SameHead(a: seq<SubConn>, b: seq<SubConn>)
    requires StrictlyOrdered(a) && StrictlyOrdered(b)
    requires |a| > 0 && |b| > 0 && a[0] in b && b[0] in a
    ensures a[0] == b[0]
  {
    var j :| 0 <= j < |b| && b[j] == a[0];
    var i :| 0 <= i < |a| && a[i] == b[0];
    if i > 0 && j > 0 {
      LessAsymmetric(a[0].address, a[i].address);
    }
  }

  /**
   The ready connections arrive in random map order; sorting distinct addresses leaves one possible
   slice, so a rebuild with the same instances schedules them in the same way.
   */
  lemma {:induction false} BuildOrderIsDeterministic(a: seq<SubConn>, b: seq<SubConn>)
    requires StrictlyOrdered(a) && StrictlyOrdered(b)
    requires multiset(a) == multiset(b)
    ensures a == b
  {
    assert |a| == |multiset(a)| == |multiset(b)| == |b|;
    if a != [] {
      assert a[0] in multiset(b) && b[0] in multiset(a);
      SameHead(a, b);
      TailMultiset(a);
      TailMultiset(b);
      BuildOrderIsDeterministic(a[1..], b[1..]);
      assert a == [a[0]] + a[1..] && b == [b[0]] + b[1..];
    }
  }

  lemma TailMultiset(s: seq<SubConn>)
    requires |s| > 0
    ensures multiset(s[1..]) == multiset(s) - multiset{s[0]}
  {
    assert s == [s[0]] + s[1..];
  }

  ghost function WeightsOf(s: seq<SubConn>): (r: seq<int>)
    ensures |r| == |s| && forall i | 0 <= i < |s| :: r[i] == s[i].weight
  {
    seq(|s|, i requires 0 <= i < |s| => s[i].weight)
  }

  ghost function CurrentOf(s: seq<SubConn>): (r: seq<int>)
    ensures |r| == |s| && forall i | 0 <= i < |s| :: r[i] == s[i].currentWeight
  {
    seq(|s|, i requires 0 <= i < |s| => s[i].currentWeight)
  }

  /** The slice after the scan has bumped its first n entries. */
  ghost predicate Bumped(before: seq<SubConn>, now: seq<SubConn>, n: nat) {
    && |now| == |before|
    && n <= |now|
    && (forall j | 0 <= j < n ::
          now[j] == before[j].(currentWeight := before[j].currentWeight + before[j].weight))
    && (forall j | n <= j < |now| :: now[j] == before[j])
  }

  /** The current weights in the slice are those of the scheduler after k picks. */
  ghost predicate Synced(s: seq<SubConn>, k: nat) {
    |s| > 0 ==> ValidWeights(WeightsOf(s)) && CurrentOf(s) == State(WeightsOf(s), k)
  }

  ghost predicate SameInstances(a: seq<SubConn>, b: seq<SubConn>) {
    |a| == |b| && forall i | 0 <= i < |a| :: a[i].address == b[i].address && a[i].weight == b[i].weight
  }

  lemma ScanIsCharge(b: seq<int>, best: nat, total: int)
    requires LeftmostMax(b, best)
    ensures best == ArgMax(b) && b[best := b[best] - total] == Charge(b, total)
  {
    LeftmostMaxUnique(b, best, ArgMax(b));
  }

  lemma ScanResult(before: seq<SubConn>, now: seq<SubConn>, best: nat, winner: SubConn, total: int)
    requires best < |now| && Bumped(before, now, |before|)
    requires winner == now[best].(currentWeight := now[best].currentWeight - total)
    ensures SameInstances(before, now[best := winner])
    ensures WeightsOf(now[best := winner]) == WeightsOf(before)
    ensures var b := Bump(WeightsOf(before), CurrentOf(before));
      CurrentOf(now[best := winner]) == b[best := b[best] - total]
  {
    var done, b := now[best := winner], Bump(WeightsOf(before), CurrentOf(before));
    assert forall i | 0 <= i < |before| :: WeightsOf(done)[i] == WeightsOf(before)[i];
    assert forall i | 0 <= i < |before| :: CurrentOf(done)[i] == b[best := b[best] - total][i];
  }

  /** Charging the winner of a complete scan is exactly one scheduler step. */
  lemma ChargeCompletesThePick(before: seq<SubConn>, now: seq<SubConn>, best: nat, total: int, winner: SubConn, k: nat)
    requires |before| > 0 && Synced(before, k) && Bumped(before, now, |before|)
    requires LeftmostMax(Bump(WeightsOf(before), CurrentOf(before)), best)
    requires total == Sum(WeightsOf(before))
    requires winner == now[best].(currentWeight := now[best].currentWeight - total)
    ensures best == PickAt(WeightsOf(before), k)
    ensures Synced(now[best := winner], k + 1)
    ensures SameInstances(before, now[best := winner])
  {
    var ws, b := WeightsOf(before), Bump(WeightsOf(before), CurrentOf(before));
    ScanResult(before, now, best, winner, total);
    ScanIsCharge(b, best, total);
  }

  lemma ExtendMax(s: seq<int>, n: nat, best: nat, next: nat)
    requires n < |s|
    requires n > 0 ==> LeftmostMax(s[..n], best)
    requires next == if n == 0 || s[n] > s[best] then n else best
    ensures LeftmostMax(s[..n + 1], next)
  {
    assert forall j | 0 <= j < n :: s[..n + 1][j] == s[..n][j] == s[j];
  }

  // ---------------------------------------------------------------- sorting the connections

  lemma {:induction false} LessTotal(a: string, b: string)
    ensures a == b || Less(a, b) || Less(b, a)
  {
    if |a| > 0 && |b| > 0 && a[0] == b[0] {
      LessTotal(a[1..], b[1..]);
      assert a == [a[0]] + a[1..] && b == [b[0]] + b[1..];
    }
  }

  lemma {:induction false} LessTransitive(a: string, b: string, c: string)
    requires Less(a, b) && Less(b, c)
    ensures Less(a, c)
  {
    if |a| > 0 && a[0] == b[0] == c[0] { LessTransitive(a[1..], b[1..], c[1..]); }
  }

  lemma NotLessTransitive(a: string, b: string, c: string)
    requires !Less(b, a) && !Less(c, b)
    ensures !Less(c, a)
  {
    LessTotal(a, b);
    if Less(c, a) && Less(a, b) { LessTransitive(c, a, b); }
  }

  ghost predicate Ordered(s: seq<SubConn>) {
    forall i, j | 0 <= i < j < |s| :: !Less(s[j].address, s[i].address)
  }

  /** The connections as they come, with their clamped weights. */
  function Weighted(ready: seq<(string, Option<int>)>): (r: seq<SubConn>)
    ensures |r| == |ready|
    ensures forall i | 0 <= i < |ready| :: r[i] == SubConn(ready[i].0, WeightFromAddress(ready[i].1), 0)
  {
    seq(|ready|, i requires 0 <= i < |ready| => SubConn(ready[i].0, WeightFromAddress(ready[i].1), 0))
  }

  lemma InsertedIsOrdered(s: seq<SubConn>, k: nat, x: SubConn)
    requires Ordered(s) && k <= |s|
    requires k > 0 ==> !Less(x.address, s[k - 1].address)
    requires forall j | k <= j < |s| :: Less(x.address, s[j].address)
    ensures Ordered(s[..k] + [x] + s[k..]) && multiset(s[..k] + [x] + s[k..]) == multiset(s) + multiset{x}
  {
    hide Less;
    var r := s[..k] + [x] + s[k..];
    forall i, j | 0 <= i < j < |r| ensures !Less(r[j].address, r[i].address) {
      if j == k && i < k - 1 {
        NotLessTransitive(r[i].address, s[k - 1].address, x.address);
      } else if i == k {
        LessAsymmetric(x.address, s[j - 1].address);
      }
    }
    assert s == s[..k] + s[k..];
  }

  /** Any sort will do: the result is determined when the addresses differ. */
  method SortByAddress(s: seq<SubConn>) returns (r: seq<SubConn>)
    ensures Ordered(r) && multiset(r) == multiset(s)
  {
    r := [];
    for i := 0 to |s|
      invariant Ordered(r) && multiset(r) == multiset(s[..i])
    {
      var k := |r|;
      while k > 0 && Less(s[i].address, r[k - 1].address)
        invariant 0 <= k <= |r| && forall j | k <= j < |r| :: Less(s[i].address, r[j].address)
      {
        k := k - 1;
      }
      InsertedIsOrdered(r, k, s[i]);
      assert s[..i + 1] == s[..i] + [s[i]];
      r := r[..k] + [s[i]] + r[k..];
    }
    assert s[..|s|] == s;
  }

  lemma {:induction false} DistinctIsStrict(s: seq<SubConn>)
    requires Ordered(s) && forall i, j | 0 <= i < j < |s| :: s[i].address != s[j].address
    ensures StrictlyOrdered(s)
  {
    forall i, j | 0 <= i < j < |s| ensures Less(s[i].address, s[j].address) {
      LessTotal(s[i].address, s[j].address);
    }
  }

  lemma FreshIsSynced(s: seq<SubConn>, ready: seq<(string, Option<int>)>)
    requires multiset(s) == multiset(Weighted(ready))
    ensures Synced(s, 0) && |s| == |ready|
    ensures forall i | 0 <= i < |s| :: s[i].currentWeight == 0 && 1 <= s[i].weight <= MAX_SERVICE_WEIGHT
  {
    assert |s| == |multiset(s)| == |Weighted(ready)|;
    forall i | 0 <= i < |s| ensures s[i].currentWeight == 0 && 1 <= s[i].weight <= MAX_SERVICE_WEIGHT {
      assert s[i] in multiset(s);
      assert s[i] in Weighted(ready);
    }
  }

  /** One iteration of the scan bumps one more entry, to the value the scheduler compares. */
  lemma BumpedStep(before: seq<SubConn>, now: seq<SubConn>, i: nat, candidate: SubConn)
    requires i < |now| && Bumped(before, now, i)
    requires candidate == now[i].(currentWeight := now[i].currentWeight + now[i].weight)
    ensures Bumped(before, now[i := candidate], i + 1)
    ensures candidate.currentWeight == Bump(WeightsOf(before), CurrentOf(before))[i]
    ensures candidate.weight == WeightsOf(before)[i]
  {
  }

  lemma BumpedAt(before: seq<SubConn>, now: seq<SubConn>, n: nat, j: nat)
    requires j < n <= |before| && Bumped(before, now, n)
    ensures now[j].currentWeight == Bump(WeightsOf(before), CurrentOf(before))[j]
  {
  }

  lemma NothingBumped(before: seq<SubConn>)
    ensures Bumped(before, before, 0) && Sum(WeightsOf(before)[..0]) == 0
  {
  }

  class WeightedRoundRobinPicker {
    var subConns: array<SubConn>
    ghost var picks: nat  // completed picks

    ghost predicate Valid()
      reads this, subConns
    {
      Synced(subConns[..], picks)
    }

    /** The fresh picker over the ready connections, in whatever order the map yields them, sorted by address. */
    constructor (ready: seq<(string, Option<int>)>)
      ensures Valid() && fresh(subConns) && picks == 0 && subConns.Length == |ready|
      ensures Ordered(subConns[..]) && multiset(subConns[..]) == multiset(Weighted(ready))
      ensures forall i | 0 <= i < subConns.Length :: subConns[i].currentWeight == 0 && 1 <= subConns[i].weight <= MAX_SERVICE_WEIGHT
    {
      var sorted := SortByAddress(Weighted(ready));
      FreshIsSynced(sorted, ready);
      subConns := new SubConn[|sorted|](i requires 0 <= i < |sorted| => sorted[i]);
      picks := 0;
      new;
      assert subConns[..] == sorted;
    }

    /** Returns the index of the selected connection, and none only for an empty picker. */
    method PickNext() returns (selected: Option<nat>)
      requires Valid()
      modifies this`picks, subConns
      ensures Valid() && subConns == old(subConns)
      ensures selected.None? <==> subConns.Length == 0
      ensures selected.Some? ==>
        && picks == old(picks) + 1
        && selected.value == PickAt(WeightsOf(old(subConns[..])), old(picks))
      ensures SameInstances(old(subConns[..]), subConns[..])
    {
      if subConns.Length == 0 {
        return None;
      }
      hide State, PickAt, LeftmostMax, Synced, SameInstances, Bumped, Bump, WeightsOf, CurrentOf, Sum;
      ghost var before := subConns[..];
      var best, totalWeight := Scan();
      ghost var scanned := subConns[..];
      var winner := subConns[best].(currentWeight := subConns[best].currentWeight - totalWeight);
      ChargeCompletesThePick(before, scanned, best, totalWeight, winner, picks);
      subConns[best] := winner;
      picks := picks + 1;
      assert subConns[..] == scanned[best := winner];
      return Some(best);
    }

    /** The loop of PickNext: bump every entry, sum the weights and keep the leftmost maximum. */
    method Scan() returns (best: nat, totalWeight: int)
      requires subConns.Length > 0
      modifies subConns
      ensures Bumped(old(subConns[..]), subConns[..], subConns.Length)
      ensures totalWeight == Sum(WeightsOf(old(subConns[..])))
      ensures best < subConns.Length
      ensures LeftmostMax(Bump(WeightsOf(old(subConns[..])), CurrentOf(old(subConns[..]))), best)
    {
      hide LeftmostMax, Bumped, Bump, WeightsOf, CurrentOf, Sum;
      ghost var before := subConns[..];
      ghost var b := Bump(WeightsOf(before), CurrentOf(before));
      NothingBumped(before);
      best, totalWeight := 0, 0;
      for i := 0 to subConns.Length
        invariant totalWeight == Sum(WeightsOf(before)[..i])
        invariant Bumped(before, subConns[..], i)
        invariant best <= i && best < subConns.Length && (i > 0 ==> best < i && LeftmostMax(b[..i], best))
      {
        ghost var now, was := subConns[..], best;
        var candidate := subConns[i];
        candidate := candidate.(currentWeight := candidate.currentWeight + candidate.weight);
        subConns[i] := candidate;
        assert subConns[..] == now[i := candidate];
        BumpedStep(before, now, i, candidate);
        BumpedAt(before, subConns[..], i + 1, best);
        totalWeight := totalWeight + candidate.weight;
        SumPrefix(WeightsOf(before), i);
        if i == 0 || candidate.currentWeight > subConns[best].currentWeight {
          best := i;
        }
        ExtendMax(b, i, was, best);
      }
      assert b[..subConns.Length] == b && WeightsOf(before)[..subConns.Length] == WeightsOf(before);
    }
  }
}
