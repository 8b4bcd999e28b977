/**
 The sliding-window limiter of resilience/ratelimit.go.

 The specification is the naive limiter that remembers every grant ever made and counts those
 inside the window. The class, which prunes its list on every call, is proved to decide exactly
 as the naive one; the window bound is then proved of the naive one over whole runs.
 Time is an integer clock that never runs backwards; a call reads it twice, first for the
 pruning threshold and then for the stored stamp.
*/
module SlidingWindow {

  /** One call: n permits asked for, the clock at the threshold and at the stamp. */
  datatype Request = Request(n: int, threshold: int, stamp: int)

  // ---------------------------------------------------------------- the naive limiter

  /** How many grants lie in the half-open interval (lo, hi]. */
  function CountIn(h: seq<int>, lo: int, hi: int): (c: nat)
    ensures c <= |h|
  {
    if |h| == 0 then 0
    else CountIn(h[..|h| - 1], lo, hi) + (if lo < h[|h| - 1] <= hi then 1 else 0)
  }

  /** How many grants are newer than lo. */
  function CountAfter(h: seq<int>, lo: int): (c: nat)
    ensures c <= |h|
  {
    if |h| == 0 then 0
    else CountAfter(h[..|h| - 1], lo) + (if lo < h[|h| - 1] then 1 else 0)
  }

  function Copies(n: nat, t: int): (r: seq<int>)
    ensures |r| == n && forall i | 0 <= i < n :: r[i] == t
  {
    seq(n, i => t)
  }

  predicate Granted(window: nat, maxReqs: nat, h: seq<int>, r: Request) {
    && 1 <= r.n <= maxReqs
    && CountAfter(h, r.threshold - window) + r.n <= maxReqs
  }

  function Next(window: nat, maxReqs: nat, h: seq<int>, r: Request): seq<int> {
    if Granted(window, maxReqs, h, r) then h + Copies(r.n, r.stamp) else h
  }

  function Run(window: nat, maxReqs: nat, calls: seq<Request>): seq<int> {
    if |calls| == 0 then []
    else Next(window, maxReqs, Run(window, maxReqs, calls[..|calls| - 1]), calls[|calls| - 1])
  }

  ghost predicate MonotoneClock(calls: seq<Request>) {
    && (forall i | 0 <= i < |calls| :: calls[i].threshold <= calls[i].stamp)
    && (forall i, j | 0 <= i < j < |calls| :: calls[i].stamp <= calls[j].threshold)
  }

  // ---------------------------------------------------------------- counting

  lemma {:induction false} CountInAppend(h: seq<int>, n: nat, t: int, lo: int, hi: int)
    ensures CountIn(h + Copies(n, t), lo, hi) == CountIn(h, lo, hi) + (if lo < t <= hi then n else 0)
  {
    if n == 0 {
      assert h + Copies(0, t) == h;
    } else {
      var g := h + Copies(n, t);
      assert g[..|g| - 1] == h + Copies(n - 1, t);
      CountInAppend(h, n - 1, t, lo, hi);
    }
  }

  lemma {:induction false} CountInBelowCountAfter(h: seq<int>, lo: int, hi: int, floor: int)
    requires floor <= lo
    ensures CountIn(h, lo, hi) <= CountAfter(h, floor)
  {
    if |h| > 0 { CountInBelowCountAfter(h[..|h| - 1], lo, hi, floor); }
  }

  /** On a list whose first k entries are old and whose others are new, the count is the tail. */
  lemma {:induction false} CountAfterSplit(h: seq<int>, lo: int, k: nat)
    requires k <= |h|
    requires forall i | 0 <= i < k :: h[i] <= lo
    requires forall i | k <= i < |h| :: h[i] > lo
    ensures CountAfter(h, lo) == |h| - k
  {
    if |h| > 0 {
      CountAfterSplit(h[..|h| - 1], lo, if k == |h| then k - 1 else k);
    }
  }

  // ---------------------------------------------------------------- the window bound

  /** No interval (t - window, t] of any run ever holds more than maxReqs grants. */
  lemma {:induction false} WindowBound(window: nat, maxReqs: nat, calls: seq<Request>, t: int)
    requires MonotoneClock(calls)
    ensures CountIn(Run(window, maxReqs, calls), t - window, t) <= maxReqs
  {
    if |calls| > 0 {
      var before, r := calls[..|calls| - 1], calls[|calls| - 1];
      var h := Run(window, maxReqs, before);
      WindowBound(window, maxReqs, before, t);
      if Granted(window, maxReqs, h, r) {
        CountInAppend(h, r.n, r.stamp, t - window, t);
        if r.stamp <= t {
          CountInBelowCountAfter(h, t - window, t, r.threshold - window);
        }
      }
    }
  }

  /**
   The half-open interval is the best possible: the closed interval of the same length can hold
   twice as many grants, for every window and every limit.
   */
  lemma {:induction false} ClosedWindowHoldsTwice(window: nat, maxReqs: nat)
    requires window > 0 && maxReqs > 0
    ensures var calls := [Request(maxReqs, 0, 0), Request(maxReqs, window, window)];
      && MonotoneClock(calls)
      && CountIn(Run(window, maxReqs, calls), -1, window) == 2 * maxReqs
  {
    hide Copies;
    var a, b := Request(maxReqs, 0, 0), Request(maxReqs, window, window);
    var calls := [a, b];
    assert calls[..1] == [a] && [a][..0] == [];
    assert Run(window, maxReqs, []) == [];
    var h := Next(window, maxReqs, [], a);
    assert h == [] + Copies(maxReqs, 0) == Copies(maxReqs, 0);
    assert Run(window, maxReqs, [a]) == h;
    CountAfterSplit(h, 0, |h|);
    assert Run(window, maxReqs, calls) == h + Copies(maxReqs, window);
    CountInAppend([], maxReqs, 0, -1, window);
    CountInAppend(h, maxReqs, window, -1, window);
  }

  // ---------------------------------------------------------------- the exact decisions

  /** What was decided for each call of a run. */
  function Decisions(window: nat, maxReqs: nat, calls: seq<Request>): (d: seq<bool>)
    ensures |d| == |calls|
  {
    if |calls| == 0 then []
    else
      var before := calls[..|calls| - 1];
      Decisions(window, maxReqs, before) + [Granted(window, maxReqs, Run(window, maxReqs, before), calls[|calls| - 1])]
  }

  /** The permits of the granted calls that were stamped after lo. */
  function Taken(calls: seq<Request>, granted: seq<bool>, lo: int): int
    requires |calls| == |granted|
  {
    if |calls| == 0 then 0
    else
      var k := |calls| - 1;
      Taken(calls[..k], granted[..k], lo) + (if granted[k] && calls[k].stamp > lo then calls[k].n else 0)
  }

  lemma {:induction false} CountAfterAppend(h: seq<int>, n: nat, t: int, lo: int)
    ensures CountAfter(h + Copies(n, t), lo) == CountAfter(h, lo) + (if lo < t then n else 0)
  {
    if n == 0 {
      assert h + Copies(0, t) == h;
    } else {
      var g := h + Copies(n, t);
      assert g[..|g| - 1] == h + Copies(n - 1, t);
      CountAfterAppend(h, n - 1, t, lo);
    }
  }

  lemma {:induction false} TakenIsCounted(window: nat, maxReqs: nat, calls: seq<Request>, lo: int)
    ensures CountAfter(Run(window, maxReqs, calls), lo) == Taken(calls, Decisions(window, maxReqs, calls), lo)
  {
    if |calls| > 0 {
      var before, r := calls[..|calls| - 1], calls[|calls| - 1];
      TakenIsCounted(window, maxReqs, before, lo);
      if Granted(window, maxReqs, Run(window, maxReqs, before), r) {
        CountAfterAppend(Run(window, maxReqs, before), r.n, r.stamp, lo);
      }
    }
  }

  lemma {:induction false} DecisionAt(window: nat, maxReqs: nat, calls: seq<Request>, k: nat)
    requires k < |calls|
    ensures Decisions(window, maxReqs, calls)[k] == Granted(window, maxReqs, Run(window, maxReqs, calls[..k]), calls[k])
    ensures Decisions(window, maxReqs, calls)[..k] == Decisions(window, maxReqs, calls[..k])
  {
    var n := |calls| - 1;
    if k < n {
      DecisionAt(window, maxReqs, calls[..n], k);
      assert calls[..n][..k] == calls[..k];
    }
  }

  /**
   The exact decision, in calls and grants alone: a request is granted if and only if it is valid and,
   with the permits of the calls granted within the window before its threshold, keeps to the limit.
  */
  lemma {:induction false} GrantedIff(window: nat, maxReqs: nat, calls: seq<Request>, k: nat)
    requires k < |calls|
    ensures var d, r := Decisions(window, maxReqs, calls), calls[k];
      d[k] <==> 1 <= r.n <= maxReqs && Taken(calls[..k], d[..k], r.threshold - window) + r.n <= maxReqs
  {
    hide Taken, Decisions, Run, CountAfter;
    DecisionAt(window, maxReqs, calls, k);
    TakenIsCounted(window, maxReqs, calls[..k], calls[k].threshold - window);
  }

  // ---------------------------------------------------------------- the limiter

  class SlidingWindowLimiter {
    const windowSize: nat
    const maxReqs: nat
    var timestamps: seq<int>
    ghost var history: seq<int>  // every grant ever made, oldest first
    ghost var cut: nat           // how many of them have been pruned
    ghost var clock: int         // the latest clock reading

    ghost predicate Valid()
      reads this
    {
      && windowSize > 0 && maxReqs > 0
      && cut <= |history|
      && timestamps == history[cut..]
      && (forall i, j | 0 <= i < j < |history| :: history[i] <= history[j])
      && (forall i | 0 <= i < |history| :: history[i] <= clock)
      && (forall i | 0 <= i < cut :: history[i] <= clock - windowSize)
    }

    /** Non-positive settings fall back to a one-second window of 100 requests. */
    constructor (window: int, limit: int, second: nat, ghost now: int)
      requires second > 0
      ensures Valid() && history == [] && clock == now
      ensures windowSize == (if window <= 0 then second else window)
      ensures maxReqs == (if limit <= 0 then 100 else limit)
    {
      windowSize := if window <= 0 then second else window;
      maxReqs := if limit <= 0 then 100 else limit;
      timestamps := [];
      history, cut, clock := [], 0, now;
    }

    /** Drops the grants that have left the window; exactly those newer than now - windowSize stay. */
    method Cleanup(now: int)
      requires Valid() && clock <= now
      modifies this
      ensures Valid() && history == old(history) && clock == now
      ensures forall i | 0 <= i < cut :: history[i] <= now - windowSize
      ensures forall i | cut <= i < |history| :: history[i] > now - windowSize
      ensures |timestamps| == CountAfter(history, now - windowSize)
    {
      hide CountAfter;
      var threshold := now - windowSize;
      var i := 0;
      while i < |timestamps| && timestamps[i] <= threshold
        invariant i <= |timestamps|
        invariant forall j | 0 <= j < i :: timestamps[j] <= threshold
      {
        i := i + 1;
      }
      assert forall j | cut <= j < cut + i :: history[j] == timestamps[j - cut];
      assert i < |timestamps| ==> timestamps[i] == history[cut + i];
      timestamps := timestamps[i..];
      cut := cut + i;
      clock := now;
      CountAfterSplit(history, threshold, cut);
    }

    /** Decides exactly as the limiter that counts its whole history. */
    method AllowN(n: int, now: int, later: int) returns (ok: bool)
      requires Valid() && clock <= now <= later
      modifies this
      ensures Valid() && clock == later
      ensures ok == Granted(windowSize, maxReqs, old(history), Request(n, now, later))
      ensures history == Next(windowSize, maxReqs, old(history), Request(n, now, later))
    {
      hide CountAfter, Copies;
      if n <= 0 || n > maxReqs {
        clock := later;
        return false;
      }
      Cleanup(now);
      clock := later;
      if |timestamps| + n <= maxReqs {
        ghost var kept, all, pruned := timestamps, history, cut;
        var i := 0;
        while i < n
          invariant 0 <= i <= n
          invariant history == all && cut == pruned && clock == later
          invariant timestamps == kept + Copies(i, later)
        {
          timestamps := timestamps + [later];
          i := i + 1;
        }
        history := history + Copies(n, later);
        assert history[cut..] == all[cut..] + Copies(n, later);
        return true;
      }
      return false;
    }

    /**
     Asks again at every tick, each a pair of clock readings, until the context ends after the last.
     A refused question leaves no trace, so the wait is served at the first tick with room.
    */
    method WaitN(n: int, ticks: seq<(int, int)>) returns (waited: Waited)
      requires Valid() && (|ticks| > 0 ==> clock <= ticks[0].0)
      requires forall i | 0 <= i < |ticks| :: ticks[i].0 <= ticks[i].1
      requires forall i, j | 0 <= i < j < |ticks| :: ticks[i].1 <= ticks[j].0
      modifies this
      ensures Valid()
      ensures waited.Invalid? <==> n <= 0 || n > maxReqs
      ensures waited.Served? ==>
        && waited.tick < |ticks| && Granted(windowSize, maxReqs, old(history), Request(n, ticks[waited.tick].0, ticks[waited.tick].1))
        && (forall i | 0 <= i < waited.tick :: !Granted(windowSize, maxReqs, old(history), Request(n, ticks[i].0, ticks[i].1)))
        && history == old(history) + Copies(n, ticks[waited.tick].1)
      ensures !waited.Served? ==> history == old(history)
      ensures waited.CutOff? ==>
        forall i | 0 <= i < |ticks| :: !Granted(windowSize, maxReqs, old(history), Request(n, ticks[i].0, ticks[i].1))
    {
      hide CountAfter, Copies;
      if n <= 0 || n > maxReqs {
        return Invalid;
      }
      for i := 0 to |ticks|
        invariant Valid() && history == old(history) && (i > 0 ==> clock == ticks[i - 1].1) && (i == 0 ==> clock == old(clock))
        invariant forall j | 0 <= j < i :: !Granted(windowSize, maxReqs, old(history), Request(n, ticks[j].0, ticks[j].1))
      {
        var ok := AllowN(n, ticks[i].0, ticks[i].1);
        if ok {
          return Served(i);
        }
      }
      return CutOff;
    }
  }

  datatype Waited = Invalid | Served(tick: nat) | CutOff

  /** Once a window has passed since the last grant there is room for any valid request. */
  lemma {:induction false} RoomAfterAWindow(window: nat, maxReqs: nat, h: seq<int>, r: Request)
    requires 1 <= r.n <= maxReqs && forall i | 0 <= i < |h| :: h[i] <= r.threshold - window
    ensures Granted(window, maxReqs, h, r)
  {
    CountAfterSplit(h, r.threshold - window, |h|);
  }
}
