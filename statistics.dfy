/** Series statistics behind the abnormal-day rule: the mean, the sample
    variance (pandas `.std()` squared, one delta degree of freedom), the band
    `[mean - std, mean + std]` and the Normal/Abnormal label of a value. */
module Statistics {
  import opened Wrappers

  function Sum(xs: seq<real>): real {
    if |xs| == 0 then 0.0 else Sum(xs[..|xs| - 1]) + xs[|xs| - 1]
  }

  /** `Series.mean()` of a non-empty series: it lies between the smallest
      and the largest value. */
  function Mean(xs: seq<real>): (m: real)
    requires |xs| > 0
    ensures Smallest(xs) <= m <= Largest(xs)
  {
    var n := |xs| as real;
    SumAtLeastSmallest(xs);
    SumAtMostLargest(xs);
    var m := Sum(xs) / n;
    assert m * n == Sum(xs);
    CancelPositive(Smallest(xs), m, n);
    CancelPositive(m, Largest(xs), n);
    m
  }

  function Smallest(xs: seq<real>): real
    requires |xs| > 0
  {
    if |xs| == 1 then xs[0]
    else
      var p := Smallest(xs[..|xs| - 1]);
      if xs[|xs| - 1] < p then xs[|xs| - 1] else p
  }

  function Largest(xs: seq<real>): real
    requires |xs| > 0
  {
    if |xs| == 1 then xs[0]
    else
      var p := Largest(xs[..|xs| - 1]);
      if xs[|xs| - 1] > p then xs[|xs| - 1] else p
  }

  /** n values sum to at least n times the smallest. */
  lemma {:induction false} SumAtLeastSmallest(xs: seq<real>)
    requires |xs| > 0
    ensures (|xs| as real) * Smallest(xs) <= Sum(xs)
  {
    var n := |xs| - 1;
    if n == 0 {
      assert xs[..0] == [];
    } else {
      var p := xs[..n];
      assert Sum(xs) == Sum(p) + xs[n];
      assert Smallest(xs) <= Smallest(p) && Smallest(xs) <= xs[n];
      SumAtLeastSmallest(p);
      OneMoreAtLeast(n as real, Smallest(xs), Smallest(p), xs[n], Sum(p));
    }
  }

  /** n values sum to at most n times the largest. */
  lemma {:induction false} SumAtMostLargest(xs: seq<real>)
    requires |xs| > 0
    ensures Sum(xs) <= (|xs| as real) * Largest(xs)
  {
    var n := |xs| - 1;
    if n == 0 {
      assert xs[..0] == [];
    } else {
      var p := xs[..n];
      assert Sum(xs) == Sum(p) + xs[n];
      assert Largest(p) <= Largest(xs) && xs[n] <= Largest(xs);
      SumAtMostLargest(p);
      OneMoreAtMost(n as real, Largest(xs), Largest(p), xs[n], Sum(p));
    }
  }

  /** The induction step of `SumAtLeastSmallest`. */
  lemma OneMoreAtLeast(c: real, lo: real, prefixLo: real, x: real, prefixSum: real)
    requires c >= 0.0 && lo <= prefixLo && lo <= x && c * prefixLo <= prefixSum
    ensures (c + 1.0) * lo <= prefixSum + x
  {
    ScaleMonotone(c, lo, prefixLo);
  }

  /** The induction step of `SumAtMostLargest`. */
  lemma OneMoreAtMost(c: real, hi: real, prefixHi: real, x: real, prefixSum: real)
    requires c >= 0.0 && prefixHi <= hi && x <= hi && prefixSum <= c * prefixHi
    ensures prefixSum + x <= (c + 1.0) * hi
  {
    ScaleMonotone(c, prefixHi, hi);
  }

  lemma ScaleMonotone(c: real, a: real, b: real)
    requires c >= 0.0 && a <= b
    ensures c * a <= c * b
  {
    ProductNonNegative(c, b - a);
  }

  lemma CancelPositive(a: real, b: real, n: real)
    requires n > 0.0 && a * n <= b * n
    ensures a <= b
  {
    if a > b {
      ProductPositive(a - b, n);
    }
  }

  /** Sum of the squared deviations of the values from `m`. */
  function SquaredDeviations(xs: seq<real>, m: real): (r: real)
    ensures r >= 0.0
  {
    if |xs| == 0 then 0.0
    else
      var d := xs[|xs| - 1] - m;
      SquaredDeviations(xs[..|xs| - 1], m) + d * d
  }

  /** The square of `Series.std()`: sample variance, divisor n - 1. */
  function SampleVariance(xs: seq<real>): (v: real)
    requires |xs| >= 2
    ensures v >= 0.0
  {
    SquaredDeviations(xs, Mean(xs)) / ((|xs| - 1) as real)
  }

  /** `s` is the value `Series.std()` returns for `xs`: the non-negative
      square root of the sample variance. The square root itself is not
      computed; callers pass it in. */
  predicate IsSampleStd(s: real, xs: seq<real>) {
    |xs| >= 2 && s >= 0.0 && s * s == SampleVariance(xs)
  }

  /** The band drawn as two dashed lines and used for flagging. */
  datatype Band = Band(lower: real, upper: real)

  /** `lb, ub = mean - std, mean + std` for the series `xs` whose standard
      deviation is `s`. With fewer than two values pandas' `.std()` is NaN, so
      both bounds are NaN; that is the `None` case. */
  function BandOf(xs: seq<real>, s: real): (b: Option<Band>)
    ensures b.Some? <==> |xs| >= 2
    ensures b.Some? ==> b.value.lower + b.value.upper == 2.0 * Mean(xs)
    ensures b.Some? && s >= 0.0 ==> b.value.lower <= Mean(xs) <= b.value.upper
  {
    if |xs| < 2 then None
    else
      var m := Mean(xs);
      Some(Band(m - s, m + s))
  }

  const NormalLabel: string := "Normal"
  const AbnormalLabel: string := "Abnormal"

  /** The flag lambda: "Abnormal" if the value is strictly below the lower
      bound or strictly above the upper bound, "Normal" otherwise. A NaN
      bound makes both comparisons false. */
  function Label(x: real, b: Option<Band>): (l: string)
    ensures l == NormalLabel || l == AbnormalLabel
    ensures l == AbnormalLabel <==> b.Some? && (x < b.value.lower || x > b.value.upper)
  {
    match b
    case None => NormalLabel
    case Some(band) => if x < band.lower || x > band.upper then AbnormalLabel else NormalLabel
  }

  /** `series.apply(lambda x: ...)`: one label per value, in order. */
  function Labels(xs: seq<real>, b: Option<Band>): (ls: seq<string>)
    ensures |ls| == |xs|
  {
    seq(|xs|, i requires 0 <= i < |xs| => Label(xs[i], b))
  }

  /** A value on either bound, or equal to the mean, is "Normal". */
  lemma BoundsAndMeanAreNormal(xs: seq<real>, s: real)
    requires |xs| >= 2 && s >= 0.0
    ensures Label(BandOf(xs, s).value.lower, BandOf(xs, s)) == NormalLabel
    ensures Label(BandOf(xs, s).value.upper, BandOf(xs, s)) == NormalLabel
    ensures Label(Mean(xs), BandOf(xs, s)) == NormalLabel
  {
  }

  /** Without a square root: for `s >= 0`, a value lies outside
      `[m - s, m + s]` exactly when its squared deviation from `m` exceeds
      `s * s`. */
  lemma OutsideIffSquareExceeds(x: real, m: real, s: real)
    requires s >= 0.0
    ensures (x < m - s || x > m + s) <==> (x - m) * (x - m) > s * s
  {
    var d := x - m;
    if d > s {
      SquareGrows(d, s);
    } else if d < -s {
      SquareGrows(-d, s);
      assert (-d) * (-d) == d * d;
    } else {
      ProductNonNegative(s - d, s + d);
      assert (s - d) * (s + d) == s * s - d * d;
    }
  }

  lemma ProductNonNegative(a: real, b: real)
    requires a >= 0.0 && b >= 0.0
    ensures a * b >= 0.0
  {
  }

  lemma ProductPositive(a: real, b: real)
    requires a > 0.0 && b > 0.0
    ensures a * b > 0.0
  {
  }

  lemma SquareGrows(d: real, s: real)
    requires d > s >= 0.0
    ensures d * d > s * s
  {
    ProductPositive(d - s, d + s);
    assert (d - s) * (d + s) == d * d - s * s;
  }

  /** With the true standard deviation, a day is "Abnormal" exactly when its
      squared deviation from the mean exceeds the sample variance. */
  lemma AbnormalIffBeyondVariance(xs: seq<real>, s: real, x: real)
    requires IsSampleStd(s, xs)
    ensures Label(x, BandOf(xs, s)) == AbnormalLabel <==> (x - Mean(xs)) * (x - Mean(xs)) > SampleVariance(xs)
  {
    OutsideIffSquareExceeds(x, Mean(xs), s);
  }

  /** `.std()` is well defined: two non-negative roots of the same variance
      are equal, so the band does not depend on which one is passed in. */
  lemma SampleStdIsUnique(xs: seq<real>, s1: real, s2: real)
    requires IsSampleStd(s1, xs) && IsSampleStd(s2, xs)
    ensures s1 == s2
  {
    if s1 > s2 {
      SquareGrows(s1, s2);
    } else if s2 > s1 {
      SquareGrows(s2, s1);
    }
  }

  /** Number of values whose squared deviation from `m` exceeds `v`. */
  function CountBeyond(xs: seq<real>, m: real, v: real): (n: nat)
    ensures n <= |xs|
  {
    if |xs| == 0 then 0
    else
      var d := xs[|xs| - 1] - m;
      CountBeyond(xs[..|xs| - 1], m, v) + (if d * d > v then 1 else 0)
  }

  /** Every counted value contributes more than `v` to the sum of squared
      deviations. */
  lemma {:induction false} SquaredDeviationsExceedCount(xs: seq<real>, m: real, v: real)
    requires v >= 0.0
    ensures SquaredDeviations(xs, m) >= (CountBeyond(xs, m, v) as real) * v
    ensures CountBeyond(xs, m, v) > 0 ==> SquaredDeviations(xs, m) > (CountBeyond(xs, m, v) as real) * v
  {
    if |xs| > 0 {
      var init := xs[..|xs| - 1];
      var d := xs[|xs| - 1] - m;
      SquaredDeviationsExceedCount(init, m, v);
      SquareNonNegative(d);
      var c := CountBeyond(init, m, v) as real;
      assert SquaredDeviations(xs, m) == SquaredDeviations(init, m) + d * d;
      if d * d > v {
        assert CountBeyond(xs, m, v) as real == c + 1.0;
        OneMoreTimes(c, v);
      } else {
        assert CountBeyond(xs, m, v) as real == c;
      }
    }
  }

  lemma SquareNonNegative(d: real)
    ensures d * d >= 0.0
  {
    if d >= 0.0 {
      ProductNonNegative(d, d);
    } else {
      ProductNonNegative(-d, -d);
    }
  }

  lemma OneMoreTimes(c: real, v: real)
    ensures (c + 1.0) * v == c * v + v
  {
  }

  /** Not every day can be abnormal: at most n - 2 of n values lie strictly
      outside one sample standard deviation of the mean. */
  lemma AtMostAllButTwoBeyond(xs: seq<real>, s: real)
    requires IsSampleStd(s, xs)
    ensures CountBeyond(xs, Mean(xs), s * s) <= |xs| - 2
  {
    var m := Mean(xs);
    var v := s * s;
    VarianceTimesDegrees(xs);
    SquaredDeviationsExceedCount(xs, m, v);
    CountBelowDegrees(SquaredDeviations(xs, m), v, |xs|, CountBeyond(xs, m, v));
  }

  /** The sum of squared deviations is the variance times n - 1. */
  lemma VarianceTimesDegrees(xs: seq<real>)
    requires |xs| >= 2
    ensures SquaredDeviations(xs, Mean(xs)) == SampleVariance(xs) * ((|xs| - 1) as real)
  {
  }

  /** The arithmetic step: if a total of `v * (n - 1)` exceeds `c * v` as
      soon as `c > 0`, then `c <= n - 2`. */
  lemma CountBelowDegrees(total: real, v: real, n: nat, c: nat)
    requires n >= 2 && v >= 0.0 && total == v * ((n - 1) as real)
    requires c > 0 ==> total > (c as real) * v
    ensures c <= n - 2
  {
    if c > 0 {
      var a := (n - 1) as real - c as real;
      assert a * v == total - (c as real) * v;
      if a <= 0.0 {
        ProductNonNegative(-a, v);
        assert false;
      }
    }
  }

  lemma {:induction false} SumOfConstant(xs: seq<real>, c: real)
    requires forall i :: 0 <= i < |xs| ==> xs[i] == c
    ensures Sum(xs) == (|xs| as real) * c
  {
    if |xs| > 0 {
      SumOfConstant(xs[..|xs| - 1], c);
    }
  }

  lemma {:induction false} DeviationsFromConstant(xs: seq<real>, c: real)
    requires forall i :: 0 <= i < |xs| ==> xs[i] == c
    ensures SquaredDeviations(xs, c) == 0.0
  {
    if |xs| > 0 {
      DeviationsFromConstant(xs[..|xs| - 1], c);
    }
  }

  /** A constant series has zero standard deviation; the band collapses to
      the single value and every day is "Normal". */
  lemma ConstantSeriesIsAllNormal(xs: seq<real>, c: real, s: real)
    requires IsSampleStd(s, xs)
    requires forall i :: 0 <= i < |xs| ==> xs[i] == c
    ensures Mean(xs) == c && s == 0.0
    ensures BandOf(xs, s) == Some(Band(c, c))
    ensures forall i :: 0 <= i < |xs| ==> Label(xs[i], BandOf(xs, s)) == NormalLabel
  {
    SumOfConstant(xs, c);
    assert Mean(xs) == c;
    DeviationsFromConstant(xs, c);
    assert SampleVariance(xs) == 0.0;
    assert IsSampleStd(0.0, xs);
    SampleStdIsUnique(xs, s, 0.0);
  }
}
