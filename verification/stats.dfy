/**
 The aggregation the repetition drivers apply to per-run values: the mean
 (sum divided by the number of runs) and the population variance (sum of squared
 deviations from the mean, divided by the number of runs, not by one less).
 */
module Stats {

  predicate InUnitInterval(x: real) {
    0.0 <= x <= 1.0
  }

  /** All values are equal to each other. */
  predicate Constant(xs: seq<real>) {
    forall i, j :: 0 <= i < |xs| && 0 <= j < |xs| ==> xs[i] == xs[j]
  }

  /** The running sum, accumulated left to right. */
  function Sum(xs: seq<real>): real
    decreases |xs|
  {
    if |xs| == 0 then 0.0 else Sum(xs[..|xs| - 1]) + xs[|xs| - 1]
  }

  function Min(xs: seq<real>): (m: real)
    requires |xs| > 0
    ensures forall i :: 0 <= i < |xs| ==> m <= xs[i]
    ensures exists i :: 0 <= i < |xs| && m == xs[i]
    decreases |xs|
  {
    if |xs| == 1 then
      xs[0]
    else
      var rest := Min(xs[..|xs| - 1]);
      if xs[|xs| - 1] < rest then xs[|xs| - 1] else rest
  }

  function Max(xs: seq<real>): (m: real)
    requires |xs| > 0
    ensures forall i :: 0 <= i < |xs| ==> xs[i] <= m
    ensures exists i :: 0 <= i < |xs| && m == xs[i]
    decreases |xs|
  {
    if |xs| == 1 then
      xs[0]
    else
      var rest := Max(xs[..|xs| - 1]);
      if xs[|xs| - 1] > rest then xs[|xs| - 1] else rest
  }

  /**
   Appending one value adds it to the sum: a running total updated once per value
   ends at the sum of all of them.
   */
  lemma SumAppend(xs: seq<real>, x: real)
    ensures Sum(xs + [x]) == Sum(xs) + x
  {
    assert (xs + [x])[..|xs|] == xs;
  }

  /** A sum of values that all lie in [lo, hi] lies between |xs| copies of lo and of hi. */
  lemma {:induction false} SumBounds(xs: seq<real>, lo: real, hi: real)
    requires forall i :: 0 <= i < |xs| ==> lo <= xs[i] <= hi
    ensures lo * |xs| as real <= Sum(xs) <= hi * |xs| as real
    decreases |xs|
  {
    if |xs| > 0 {
      var k := |xs| - 1;
      SumBounds(xs[..k], lo, hi);
      assert lo * |xs| as real == lo * k as real + lo;
      assert hi * |xs| as real == hi * k as real + hi;
    }
  }

  /** Dividing bounds of the form lo * n <= s <= hi * n by a positive n. */
  lemma DivideBounds(s: real, n: real, lo: real, hi: real)
    requires n > 0.0 && lo * n <= s <= hi * n
    ensures lo <= s / n <= hi
  {
    assert (s / n) * n == s;
  }

  /** The mean: the sum shared out equally over the values. */
  function Mean(xs: seq<real>): (m: real)
    requires |xs| > 0
    ensures m * |xs| as real == Sum(xs)
  {
    Sum(xs) / |xs| as real
  }

  /** Values that all lie in [lo, hi] have their mean in [lo, hi]. */
  lemma MeanWithinBounds(xs: seq<real>, lo: real, hi: real)
    requires |xs| > 0
    requires forall i :: 0 <= i < |xs| ==> lo <= xs[i] <= hi
    ensures lo <= Mean(xs) <= hi
  {
    SumBounds(xs, lo, hi);
    DivideBounds(Sum(xs), |xs| as real, lo, hi);
  }

  /** The mean lies between the smallest and the largest value. */
  lemma MeanBetweenMinAndMax(xs: seq<real>)
    requires |xs| > 0
    ensures Min(xs) <= Mean(xs) <= Max(xs)
  {
    MeanWithinBounds(xs, Min(xs), Max(xs));
  }

  /** The mean of equal values is that value. */
  lemma MeanOfConstant(xs: seq<real>)
    requires |xs| > 0 && Constant(xs)
    ensures Mean(xs) == xs[0]
  {
    MeanWithinBounds(xs, xs[0], xs[0]);
  }

  /** The sum of squared deviations of the values from `c`. */
  function SquaredDeviations(xs: seq<real>, c: real): (r: real)
    ensures r >= 0.0
    decreases |xs|
  {
    if |xs| == 0 then
      0.0
    else
      var d := xs[|xs| - 1] - c;
      SquaredDeviations(xs[..|xs| - 1], c) + d * d
  }

  /**
   The squared deviations from `c`, divided by the count. The drivers compute the
   mean first and pass it in as `c`.
   */
  function VarianceAround(xs: seq<real>, c: real): (v: real)
    requires |xs| > 0
    ensures v >= 0.0
    ensures v * |xs| as real == SquaredDeviations(xs, c)
  {
    SquaredDeviations(xs, c) / |xs| as real
  }

  /** The population variance: the squared deviations from the mean, divided by the count. */
  function PopVariance(xs: seq<real>): (v: real)
    requires |xs| > 0
    ensures v >= 0.0
  {
    VarianceAround(xs, Mean(xs))
  }

  /** A product is zero only when one of its factors is. */
  lemma ZeroProduct(a: real, b: real)
    requires a * b == 0.0
    ensures a == 0.0 || b == 0.0
  {
  }

  /** The squared deviations from `c` vanish exactly when every value equals `c`. */
  lemma {:induction false} SquaredDeviationsZero(xs: seq<real>, c: real)
    ensures SquaredDeviations(xs, c) == 0.0 <==> forall i :: 0 <= i < |xs| ==> xs[i] == c
    decreases |xs|
  {
    if |xs| > 0 {
      var k := |xs| - 1;
      var d := xs[k] - c;
      SquaredDeviationsZero(xs[..k], c);
      assert SquaredDeviations(xs, c) == SquaredDeviations(xs[..k], c) + d * d;
      if SquaredDeviations(xs, c) == 0.0 {
        ZeroProduct(d, d);
        assert forall i :: 0 <= i < k ==> xs[..k][i] == c;
      }
    }
  }

  /** The population variance is zero exactly when all values are equal. */
  lemma VarianceZeroIffConstant(xs: seq<real>)
    requires |xs| > 0
    ensures PopVariance(xs) == 0.0 <==> Constant(xs)
  {
    var m := Mean(xs);
    SquaredDeviationsZero(xs, m);
    if Constant(xs) {
      MeanOfConstant(xs);
    }
  }

  /** Three accuracies 0.8, 0.9, 0.7: mean 0.8 and population variance 0.02 / 3. */
  lemma VarianceExample()
    ensures Mean([0.8, 0.9, 0.7]) == 0.8
    ensures PopVariance([0.8, 0.9, 0.7]) == 0.02 / 3.0
  {
    var xs := [0.8, 0.9, 0.7];
    assert xs[..2] == [0.8, 0.9] && [0.8, 0.9][..1] == [0.8] && [0.8][..0] == [];
    assert Sum([0.8]) == 0.8;
    assert Sum([0.8, 0.9]) == 1.7;
    assert Sum(xs) == 2.4;
    assert SquaredDeviations([0.8], 0.8) == 0.0;
    assert SquaredDeviations([0.8, 0.9], 0.8) == 0.01;
    assert SquaredDeviations(xs, 0.8) == 0.02;
  }
}
