/**
 The two reductions every implementation folds its coordinate sequences into:
 the sum of absolute differences (L1) and the sum of squared differences.
 Both are defined as left-to-right folds over the common prefix, the order in
 which the loops of the implementations accumulate, and numbers are `real`.
 */
module Reductions {

  /** Absolute value, as `Math.abs` and `f64::abs` compute it on finite numbers. */
  function Abs(x: real): (r: real)
    ensures r >= 0.0
    ensures r == x || r == -x
  {
    if x < 0.0 then -x else x
  }

  /** The square of a difference, as `d ** 2` and `Math.pow(d, 2)` compute it. */
  function Square(x: real): (r: real)
    ensures r >= 0.0
  {
    x * x
  }

  /** Sum over i < |xs| of |xs[i] - ys[i]|, accumulated from the left starting at 0. */
  function L1(xs: seq<real>, ys: seq<real>): (r: real)
    requires |xs| == |ys|
    ensures r >= 0.0
    decreases |xs|
  {
    if |xs| == 0 then 0.0
    else L1(xs[..|xs| - 1], ys[..|ys| - 1]) + Abs(xs[|xs| - 1] - ys[|ys| - 1])
  }

  /** Sum over i < |xs| of (xs[i] - ys[i])^2, accumulated from the left starting at 0. */
  function SqSum(xs: seq<real>, ys: seq<real>): (r: real)
    requires |xs| == |ys|
    ensures r >= 0.0
    decreases |xs|
  {
    if |xs| == 0 then 0.0
    else SqSum(xs[..|xs| - 1], ys[..|ys| - 1]) + Square(xs[|xs| - 1] - ys[|ys| - 1])
  }

  /** One more loop iteration extends the fold by the term at index i. */
  lemma L1Step(xs: seq<real>, ys: seq<real>, i: nat)
    requires |xs| == |ys| && i < |xs|
    ensures L1(xs[..i + 1], ys[..i + 1]) == L1(xs[..i], ys[..i]) + Abs(xs[i] - ys[i])
  {
    assert xs[..i + 1][..i] == xs[..i];
    assert ys[..i + 1][..i] == ys[..i];
  }

  lemma SqSumStep(xs: seq<real>, ys: seq<real>, i: nat)
    requires |xs| == |ys| && i < |xs|
    ensures SqSum(xs[..i + 1], ys[..i + 1]) == SqSum(xs[..i], ys[..i]) + Square(xs[i] - ys[i])
  {
    assert xs[..i + 1][..i] == xs[..i];
    assert ys[..i + 1][..i] == ys[..i];
  }

  lemma {:induction false} L1Symmetric(xs: seq<real>, ys: seq<real>)
    requires |xs| == |ys|
    ensures L1(xs, ys) == L1(ys, xs)
    decreases |xs|
  {
    if |xs| > 0 {
      L1Symmetric(xs[..|xs| - 1], ys[..|ys| - 1]);
    }
  }

  /** The L1 sum vanishes exactly on identical sequences. */
  lemma {:induction false} L1ZeroIff(xs: seq<real>, ys: seq<real>)
    requires |xs| == |ys|
    ensures L1(xs, ys) == 0.0 <==> xs == ys
    decreases |xs|
  {
    if |xs| > 0 {
      var n := |xs| - 1;
      L1ZeroIff(xs[..n], ys[..n]);
      assert xs == xs[..n] + [xs[n]];
      assert ys == ys[..n] + [ys[n]];
    }
  }

  /** Triangle inequality, from |a - c| <= |a - b| + |b - c| at every index. */
  lemma {:induction false} L1Triangle(xs: seq<real>, ys: seq<real>, zs: seq<real>)
    requires |xs| == |ys| == |zs|
    ensures L1(xs, zs) <= L1(xs, ys) + L1(ys, zs)
    decreases |xs|
  {
    if |xs| > 0 {
      var n := |xs| - 1;
      L1Triangle(xs[..n], ys[..n], zs[..n]);
    }
  }

  lemma {:induction false} SqSumSymmetric(xs: seq<real>, ys: seq<real>)
    requires |xs| == |ys|
    ensures SqSum(xs, ys) == SqSum(ys, xs)
    decreases |xs|
  {
    if |xs| > 0 {
      var n := |xs| - 1;
      SqSumSymmetric(xs[..n], ys[..n]);
      assert Square(xs[n] - ys[n]) == Square(ys[n] - xs[n]);
    }
  }

  /** The sum of squares vanishes exactly on identical sequences. */
  lemma {:induction false} SqSumZeroIff(xs: seq<real>, ys: seq<real>)
    requires |xs| == |ys|
    ensures SqSum(xs, ys) == 0.0 <==> xs == ys
    decreases |xs|
  {
    if |xs| > 0 {
      var n := |xs| - 1;
      SqSumZeroIff(xs[..n], ys[..n]);
      SquareSign(xs[n] - ys[n]);
      assert xs == xs[..n] + [xs[n]];
      assert ys == ys[..n] + [ys[n]];
    }
  }

  /** A square is zero only at zero. */
  lemma SquareSign(x: real)
    ensures x != 0.0 ==> Square(x) > 0.0
  {
    if x != 0.0 {
      calc {
        Square(x);
        x * x;
        Abs(x) * Abs(x);
      > { PositiveProduct(Abs(x), Abs(x)); }
        0.0;
      }
    }
  }

  lemma PositiveProduct(x: real, y: real)
    requires x > 0.0 && y > 0.0
    ensures x * y > 0.0
  {
  }
}
