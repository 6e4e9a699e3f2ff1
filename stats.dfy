/**
 * The window statistics used for the rolling features: the mean (NumPy's
 * `np.mean`, pandas' `rolling().mean()`), and the population (ddof 0, NumPy's
 * `np.std`) and sample (ddof 1, pandas' `rolling().std()`) variances.
 * The square root that turns a variance into a standard deviation is not
 * modelled; both sides carry the variance.
 */
module Stats {

  /**
   * The window of the rolling features on both sides: `rolling(7)` in
   * training, the last seven request values in serving, and the long lag.
   */
  const WINDOW: nat := 7

  /** Every value of the window is the first one. */
  predicate Flat(s: seq<real>) {
    forall i :: 0 <= i < |s| ==> s[i] == s[0]
  }

  function Sum(s: seq<real>): real {
    if s == [] then 0.0 else s[0] + Sum(s[1..])
  }

  /** The mean of a window; a flat window's mean is its value. */
  function Mean(s: seq<real>): (m: real)
    requires |s| > 0
    ensures Flat(s) ==> m == s[0]
  {
    FlatSum(s);
    Sum(s) / (|s| as real)
  }

  /** Sum of squared deviations from `c`. */
  function SquaredDeviations(s: seq<real>, c: real): real {
    if s == [] then 0.0 else (s[0] - c) * (s[0] - c) + SquaredDeviations(s[1..], c)
  }

  /** Variance with ddof 0: never negative, and zero on a flat window. */
  function PopulationVariance(s: seq<real>): (v: real)
    requires |s| > 0
    ensures v >= 0.0
    ensures Flat(s) ==> v == 0.0
  {
    SquaredDeviationsNonNegative(s, Mean(s));
    FlatDeviations(s);
    SquaredDeviations(s, Mean(s)) / (|s| as real)
  }

  /** Variance with ddof 1: never negative, and zero on a flat window. */
  function SampleVariance(s: seq<real>): (v: real)
    requires |s| > 1
    ensures v >= 0.0
    ensures Flat(s) ==> v == 0.0
  {
    SquaredDeviationsNonNegative(s, Mean(s));
    FlatDeviations(s);
    SquaredDeviations(s, Mean(s)) / ((|s| - 1) as real)
  }

  lemma {:induction false} SumBounds(s: seq<real>, lo: real, hi: real)
    requires forall i :: 0 <= i < |s| ==> lo <= s[i] <= hi
    ensures (|s| as real) * lo <= Sum(s) <= (|s| as real) * hi
  {
    if s != [] {
      SumBounds(s[1..], lo, hi);
    }
  }

  /** A flat window sums to its length times its value. */
  lemma FlatSum(s: seq<real>)
    requires |s| > 0
    ensures Flat(s) ==> Sum(s) == (|s| as real) * s[0]
  {
    if Flat(s) {
      SumBounds(s, s[0], s[0]);
    }
  }

  /** A flat window deviates nowhere from its mean. */
  lemma FlatDeviations(s: seq<real>)
    requires |s| > 0
    ensures Flat(s) ==> SquaredDeviations(s, Mean(s)) == 0.0
  {
    if Flat(s) {
      SquaredDeviationsAtValue(s, s[0]);
    }
  }

  /** A mean lies between any lower and upper bound of its window. */
  lemma MeanBounds(s: seq<real>, lo: real, hi: real)
    requires |s| > 0
    requires forall i :: 0 <= i < |s| ==> lo <= s[i] <= hi
    ensures lo <= Mean(s) <= hi
  {
    SumBounds(s, lo, hi);
    var n := |s| as real;
    assert Mean(s) * n == Sum(s);
  }

  lemma {:induction false} SquaredDeviationsNonNegative(s: seq<real>, c: real)
    ensures SquaredDeviations(s, c) >= 0.0
  {
    if s != [] {
      SquaredDeviationsNonNegative(s[1..], c);
      assert (s[0] - c) * (s[0] - c) >= 0.0;
    }
  }

  /** Deviations from the value every element equals sum to zero. */
  lemma {:induction false} SquaredDeviationsAtValue(s: seq<real>, c: real)
    requires forall i :: 0 <= i < |s| ==> s[i] == c
    ensures SquaredDeviations(s, c) == 0.0
  {
    if s != [] {
      SquaredDeviationsAtValue(s[1..], c);
    }
  }

  /**
   * Over a seven-value window the population variance is 6/7 of the sample
   * variance: the two sides of the feature contract disagree on
   * `rolling_std_7` whenever the window is not constant.
   */
  lemma SevenWindowVarianceRatio(s: seq<real>)
    requires |s| == 7
    ensures 7.0 * PopulationVariance(s) == 6.0 * SampleVariance(s)
  {
    var q := SquaredDeviations(s, Mean(s));
    assert PopulationVariance(s) == q / 7.0;
    assert SampleVariance(s) == q / 6.0;
  }
}
