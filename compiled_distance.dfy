/**
 The emitted JavaScript form of `euclideanDistance`: the same dimension
 guard, a loop that adds `Math.pow(d, 2)` for each coordinate difference `d`,
 and the result `Math.pow(sum, 1) / 2`.
 */
module CompiledDistance {
  import opened Reductions
  import opened PointDistance

  /** `Math.pow(x, n)` for a natural exponent, as repeated multiplication. */
  function MathPow(x: real, n: nat): (r: real)
    ensures x >= 0.0 ==> r >= 0.0
  {
    if n == 0 then 1.0 else x * MathPow(x, n - 1)
  }

  /** The two powers the emitted code uses: `Math.pow(x, 1)` is `x`, `Math.pow(x, 2)` is the square. */
  lemma MathPowOneTwo(x: real)
    ensures MathPow(x, 1) == x
    ensures MathPow(x, 2) == Square(x)
  {
  }

  /** What the emitted `euclideanDistance` returns or throws. */
  function CompiledEuclidean(p1: Point, p2: Point): (r: Outcome<real>)
    ensures r.Thrown? <==> |p1.coordinates| != |p2.coordinates|
    ensures r.Returned? ==> r.value >= 0.0
  {
    if |p1.coordinates| != |p2.coordinates| then Thrown
    else Returned(MathPow(SqSum(p1.coordinates, p2.coordinates), 1) / 2.0)
  }

  /** The emitted loop: `sum += Math.pow(p1[i] - p2[i], 2)` from 0, then `Math.pow(sum, 1) / 2`. */
  method EuclideanDistance(p1: Point, p2: Point) returns (r: Outcome<real>)
    ensures r.Thrown? <==> |p1.coordinates| != |p2.coordinates|
    ensures r.Returned? ==> r.value == SqSum(p1.coordinates, p2.coordinates) / 2.0
    ensures r == CompiledEuclidean(p1, p2)
  {
    if |p1.coordinates| != |p2.coordinates| {
      return Thrown;
    }
    var xs, ys := p1.coordinates, p2.coordinates;
    var sum := 0.0;
    var i := 0;
    while i < |xs|
      invariant 0 <= i <= |xs|
      invariant sum == SqSum(xs[..i], ys[..i])
    {
      SqSumStep(xs, ys, i);
      MathPowOneTwo(xs[i] - ys[i]);
      sum := sum + MathPow(xs[i] - ys[i], 2);
      i := i + 1;
    }
    assert xs[..|xs|] == xs && ys[..|ys|] == ys;
    MathPowOneTwo(sum);
    return Returned(MathPow(sum, 1) / 2.0);
  }

  /** The emitted function agrees with the TypeScript one on every input, throws included. */
  lemma CompiledAgreesWithSource(p1: Point, p2: Point)
    ensures CompiledEuclidean(p1, p2) == Euclidean(p1, p2)
  {
    if |p1.coordinates| == |p2.coordinates| {
      MathPowOneTwo(SqSum(p1.coordinates, p2.coordinates));
    }
  }

  /**
   The emitted result is never negative, does not change when the points are
   swapped, and is 0 exactly when the points are equal (in particular for
   empty coordinates).
   */
  lemma CompiledEuclideanProperties(p1: Point, p2: Point)
    ensures CompiledEuclidean(p1, p2).Returned? ==> CompiledEuclidean(p1, p2).value >= 0.0
    ensures CompiledEuclidean(p1, p2) == CompiledEuclidean(p2, p1)
    ensures CompiledEuclidean(p1, p2) == Returned(0.0) <==> p1 == p2
  {
    CompiledAgreesWithSource(p1, p2);
    CompiledAgreesWithSource(p2, p1);
    EuclideanSymmetric(p1, p2);
    EuclideanZeroIff(p1, p2);
  }
}
