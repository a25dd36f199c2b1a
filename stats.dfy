/** Sums, arithmetic means and the sample covariance over real-valued series. */
module Stats {

  function Sum(xs: seq<real>): real
  {
    if xs == [] then 0.0 else xs[0] + Sum(xs[1..])
  }

  lemma {:induction false} SumAppend(xs: seq<real>, ys: seq<real>)
    ensures Sum(xs + ys) == Sum(xs) + Sum(ys)
  {
    if xs == [] {
      assert xs + ys == ys;
    } else {
      assert (xs + ys)[1..] == xs[1..] + ys;
      SumAppend(xs[1..], ys);
    }
  }

  /** The sum of a series lies between |xs| times its lower and upper bounds. */
  lemma {:induction false} SumBounds(xs: seq<real>, lo: real, hi: real)
    requires forall i :: 0 <= i < |xs| ==> lo <= xs[i] <= hi
    ensures lo * (|xs| as real) <= Sum(xs) <= hi * (|xs| as real)
  {
    if xs != [] {
      SumBounds(xs[1..], lo, hi);
      assert (|xs| as real) == (|xs[1..]| as real) + 1.0;
    }
  }

  /** The unweighted arithmetic mean (pandas `mean`, Python `sum(...) / len(...)`). */
  function Mean(xs: seq<real>): (m: real)
    requires |xs| > 0
    ensures m * (|xs| as real) == Sum(xs)
  {
    Sum(xs) / (|xs| as real)
  }

  /** A mean lies between any lower and upper bound of the values averaged. */
  lemma MeanBounds(xs: seq<real>, lo: real, hi: real)
    requires |xs| > 0
    requires forall i :: 0 <= i < |xs| ==> lo <= xs[i] <= hi
    ensures lo <= Mean(xs) <= hi
  {
    SumBounds(xs, lo, hi);
    var n, m := |xs| as real, Mean(xs);
    assert (m - lo) * n >= 0.0;
    assert (hi - m) * n >= 0.0;
  }

  /** Averaging a series together with an identical copy of itself changes nothing. */
  lemma MeanOfDoubled(xs: seq<real>)
    requires |xs| > 0
    ensures Mean(xs + xs) == Mean(xs)
  {
    SumAppend(xs, xs);
    var n, s := |xs| as real, Sum(xs);
    assert |xs + xs| as real == 2.0 * n;
    assert Mean(xs + xs) * (2.0 * n) == 2.0 * s;
    assert Mean(xs) * n == s;
  }

  /** The mean of a constant series is that constant. */
  lemma {:induction false} MeanOfConstant(xs: seq<real>, c: real)
    requires |xs| > 0
    requires forall i :: 0 <= i < |xs| ==> xs[i] == c
    ensures Mean(xs) == c
  {
    SumBounds(xs, c, c);
    var n := |xs| as real;
    assert Mean(xs) * n == c * n;
  }

  /** The sum of (x - mx) * (y - my) over paired observations. */
  function DeviationProducts(xs: seq<real>, ys: seq<real>, mx: real, my: real): real
    requires |xs| == |ys|
  {
    if xs == [] then 0.0
    else (xs[0] - mx) * (ys[0] - my) + DeviationProducts(xs[1..], ys[1..], mx, my)
  }

  /** The sample covariance (denominator n - 1): the numerator of Pearson's coefficient. */
  function Covariance(xs: seq<real>, ys: seq<real>): real
    requires |xs| == |ys| >= 2
  {
    DeviationProducts(xs, ys, Mean(xs), Mean(ys)) / ((|xs| - 1) as real)
  }

  lemma {:induction false} DeviationProductsSymmetric(xs: seq<real>, ys: seq<real>, mx: real, my: real)
    requires |xs| == |ys|
    ensures DeviationProducts(xs, ys, mx, my) == DeviationProducts(ys, xs, my, mx)
  {
    if xs != [] {
      DeviationProductsSymmetric(xs[1..], ys[1..], mx, my);
    }
  }

  /** Covariance does not depend on which series comes first. */
  lemma CovarianceSymmetric(xs: seq<real>, ys: seq<real>)
    requires |xs| == |ys| >= 2
    ensures Covariance(xs, ys) == Covariance(ys, xs)
  {
    DeviationProductsSymmetric(xs, ys, Mean(xs), Mean(ys));
  }

  lemma {:induction false} DeviationProductsOfConstant(xs: seq<real>, ys: seq<real>, c: real, my: real)
    requires |xs| == |ys|
    requires forall i :: 0 <= i < |xs| ==> xs[i] == c
    ensures DeviationProducts(xs, ys, c, my) == 0.0
  {
    if xs != [] {
      DeviationProductsOfConstant(xs[1..], ys[1..], c, my);
    }
  }

  /** A constant series has zero covariance with anything: the zero-variance case
      in which Pearson's coefficient is undefined. */
  lemma CovarianceOfConstant(xs: seq<real>, ys: seq<real>, c: real)
    requires |xs| == |ys| >= 2
    requires forall i :: 0 <= i < |xs| ==> xs[i] == c
    ensures Covariance(xs, ys) == 0.0
  {
    MeanOfConstant(xs, c);
    DeviationProductsOfConstant(xs, ys, c, Mean(ys));
  }
}
