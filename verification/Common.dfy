// Shared vocabulary: optional values and integer sums over sequences.
module Common {

  datatype Option<+T> = None | Some(value: T)

  /** The sum of a sequence, folded from the right so that it grows with a scanning loop. */
  function Sum(s: seq<int>): int {
    if |s| == 0 then 0 else Sum(s[..|s| - 1]) + s[|s| - 1]
  }

  lemma {:induction false} SumPrefix(s: seq<int>, i: nat)
    requires i < |s|
    ensures Sum(s[..i + 1]) == Sum(s[..i]) + s[i]
  {
    assert s[..i + 1][..i] == s[..i];
  }

  /** Adding two sequences pointwise adds their sums. */
  lemma {:induction false} SumPointwise(a: seq<int>, b: seq<int>, c: seq<int>)
    requires |a| == |b| == |c|
    requires forall i | 0 <= i < |a| :: c[i] == a[i] + b[i]
    ensures Sum(c) == Sum(a) + Sum(b)
  {
    if |a| > 0 {
      var n := |a| - 1;
      SumPointwise(a[..n], b[..n], c[..n]);
    }
  }

  /** Changing one entry moves the sum by the change. */
  lemma {:induction false} SumUpdate(s: seq<int>, i: nat, v: int)
    requires i < |s|
    ensures Sum(s[i := v]) == Sum(s) - s[i] + v
  {
    var n := |s| - 1;
    if i == n {
      assert s[i := v][..n] == s[..n];
    } else {
      assert s[i := v][..n] == s[..n][i := v];
      SumUpdate(s[..n], i, v);
    }
  }

  /** A sum of entries bounded by lo and hi is bounded by their multiples. */
  lemma {:induction false} SumBounds(s: seq<int>, lo: int, hi: int)
    requires forall i | 0 <= i < |s| :: lo <= s[i] <= hi
    ensures |s| * lo <= Sum(s) <= |s| * hi
  {
    if |s| > 0 {
      var n := |s| - 1;
      SumBounds(s[..n], lo, hi);
      assert |s| * lo == n * lo + lo && |s| * hi == n * hi + hi;
    }
  }

  /** Non-negative entries that sum to zero are all zero. */
  lemma {:induction false} SumZero(s: seq<int>)
    requires forall i | 0 <= i < |s| :: s[i] >= 0
    requires Sum(s) <= 0
    ensures forall i | 0 <= i < |s| :: s[i] == 0
  {
    if |s| > 0 {
      var n := |s| - 1;
      SumBounds(s[..n], 0, MaxOf(s[..n]));
      SumZero(s[..n]);
      forall i | 0 <= i < |s| ensures s[i] == 0 {
        if i < n { assert s[i] == s[..n][i]; }
      }
    }
  }

  /** Some value above every entry. */
  function MaxOf(s: seq<int>): (m: nat)
    ensures forall i | 0 <= i < |s| :: s[i] <= m
  {
    if |s| == 0 then 0
    else
      var p := MaxOf(s[..|s| - 1]);
      if s[|s| - 1] > p then s[|s| - 1] else p
  }
}
