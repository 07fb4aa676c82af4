/** Numbers sorted with `(a, b) => a - b`, and the two medians the screens
    read off such a list. */
module RealStats {
  import opened StableSort

  /** The comparator `(a, b) => a - b`, as "a may stay before b". */
  function NumLe(): (real, real) -> bool { (a: real, b: real) => a <= b }

  lemma NumLeTotal()
    ensures TotalPreorder(NumLe())
  {
  }

  /** The test `x => x > 0`. */
  function Positive(): real -> bool { (x: real) => x > 0.0 }

  /** `xs.slice().sort((a, b) => a - b)`: ascending, and the same numbers. */
  function SortNumbers(xs: seq<real>): (r: seq<real>)
    ensures |r| == |xs|
    ensures SortedBy(r, NumLe()) && multiset(r) == multiset(xs)
  {
    NumLeTotal();
    SortBySorted(xs, NumLe());
    SortBy(xs, NumLe())
  }

  /** The median of a sorted list: the mean of the two middle values for an
      even count, the middle value for an odd one, 0 for none. */
  function Median(s: seq<real>): real {
    if |s| == 0 then 0.0
    else if |s| % 2 == 0 then (s[|s| / 2 - 1] + s[|s| / 2]) / 2.0
    else s[|s| / 2]
  }

  /** `s[Math.floor(s.length / 2)]`, or 0 for none: the upper median. */
  function UpperMedian(s: seq<real>): real {
    if |s| == 0 then 0.0 else s[|s| / 2]
  }

  /** In a sorted list the first half is at most the median and the second
      half at least it. */
  lemma MedianSplits(s: seq<real>)
    requires SortedBy(s, NumLe())
    ensures forall i :: 0 <= i < (|s| + 1) / 2 ==> s[i] <= Median(s)
    ensures forall i :: |s| / 2 <= i < |s| ==> Median(s) <= s[i]
  {
    var n := |s|;
    if n > 0 {
      forall i | 0 <= i < (n + 1) / 2 ensures s[i] <= Median(s) {
        if n % 2 == 0 {
          assert NumLe()(s[i], s[n / 2 - 1]) || i == n / 2 - 1;
          assert NumLe()(s[n / 2 - 1], s[n / 2]);
        } else if i < n / 2 {
          assert NumLe()(s[i], s[n / 2]);
        }
      }
      forall i | n / 2 <= i < n ensures Median(s) <= s[i] {
        if n % 2 == 0 {
          assert NumLe()(s[n / 2 - 1], s[n / 2]);
          assert NumLe()(s[n / 2], s[i]) || i == n / 2;
        } else if i > n / 2 {
          assert NumLe()(s[n / 2], s[i]);
        }
      }
    }
  }

  /** Any bounds that hold for every value hold for the median. */
  lemma MedianWithin(s: seq<real>, lo: real, hi: real)
    requires |s| > 0
    requires forall i :: 0 <= i < |s| ==> lo <= s[i] <= hi
    ensures lo <= Median(s) <= hi && lo <= UpperMedian(s) <= hi
  {
    var n := |s|;
    assert lo <= s[n / 2] <= hi;
    if n % 2 == 0 {
      assert lo <= s[n / 2 - 1] <= hi;
    }
  }

  /** The upper median has at least half of the values below it and at least
      half above it. */
  lemma UpperMedianSplits(s: seq<real>)
    requires SortedBy(s, NumLe()) && |s| > 0
    ensures forall i :: 0 <= i <= |s| / 2 ==> s[i] <= UpperMedian(s)
    ensures forall i :: |s| / 2 <= i < |s| ==> UpperMedian(s) <= s[i]
  {
    var n := |s|;
    forall i | 0 <= i < n / 2 ensures s[i] <= UpperMedian(s) {
      assert NumLe()(s[i], s[n / 2]);
    }
    forall i | n / 2 < i < n ensures UpperMedian(s) <= s[i] {
      assert NumLe()(s[n / 2], s[i]);
    }
  }

  /** `xs.reduce((a, b) => a + b, 0)`. */
  function Sum(xs: seq<real>): real {
    if xs == [] then 0.0 else xs[0] + Sum(xs[1..])
  }

  /** `Math.min(...xs)` of a non-empty list. */
  function MinOf(xs: seq<real>): (r: real)
    requires xs != []
    ensures r in xs && forall k :: 0 <= k < |xs| ==> r <= xs[k]
  {
    if |xs| == 1 then xs[0]
    else
      var rest := MinOf(xs[1..]);
      if xs[0] <= rest then xs[0] else rest
  }

  /** `Math.max(...xs)` of a non-empty list. */
  function MaxOf(xs: seq<real>): (r: real)
    requires xs != []
    ensures r in xs && forall k :: 0 <= k < |xs| ==> xs[k] <= r
  {
    if |xs| == 1 then xs[0]
    else
      var rest := MaxOf(xs[1..]);
      if xs[0] >= rest then xs[0] else rest
  }

  /** Bounds on every value bound the sum by the count times the bound. */
  lemma {:induction false} SumWithin(xs: seq<real>, lo: real, hi: real)
    requires forall k :: 0 <= k < |xs| ==> lo <= xs[k] <= hi
    ensures |xs| as real * lo <= Sum(xs) <= |xs| as real * hi
  {
    if xs != [] {
      SumWithin(xs[1..], lo, hi);
      var n := |xs| as real;
      assert n * lo == (n - 1.0) * lo + lo;
      assert n * hi == (n - 1.0) * hi + hi;
    }
  }

  /** The mean of a non-empty list. */
  function Mean(xs: seq<real>): real
    requires xs != []
  {
    Sum(xs) / |xs| as real
  }

  /** Bounds that hold for every value of a non-empty list hold for its mean. */
  lemma MeanWithin(xs: seq<real>, lo: real, hi: real)
    requires xs != []
    requires forall k :: 0 <= k < |xs| ==> lo <= xs[k] <= hi
    ensures lo <= Mean(xs) <= hi
  {
    SumWithin(xs, lo, hi);
    Between(Sum(xs), |xs| as real, lo, hi);
  }

  /** The mean of a non-empty list lies between its least and its greatest value. */
  lemma MeanBetweenExtremes(xs: seq<real>)
    requires xs != []
    ensures MinOf(xs) <= Mean(xs) <= MaxOf(xs)
  {
    MeanWithin(xs, MinOf(xs), MaxOf(xs));
  }

  lemma Between(s: real, n: real, lo: real, hi: real)
    requires n > 0.0 && n * lo <= s <= n * hi
    ensures lo <= s / n <= hi
  {
  }

  /** A sum grows with every one of its terms. */
  lemma {:induction false} SumMonotone(xs: seq<real>, ys: seq<real>)
    requires |xs| == |ys| && forall k :: 0 <= k < |xs| ==> xs[k] <= ys[k]
    ensures Sum(xs) <= Sum(ys)
  {
    if xs != [] {
      SumMonotone(xs[1..], ys[1..]);
    }
  }
}
