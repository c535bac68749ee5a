/**
 The TypeScript distance functions over n-dimensional points: the dimension
 guard `preconditions.sameDimensions`, the Manhattan distance (spelled
 `manhanttanDistance` in the program) and `euclideanDistance`.

 A thrown exception is the `Thrown` outcome; the text of the message is not
 modelled. Coordinates are `real`.
 */
module PointDistance {
  import opened Reductions

  /** A point in n dimensions, given by its coordinates. */
  datatype Point = Point(coordinates: seq<real>)

  /** What a call does: return a value or throw. */
  datatype Outcome<T> = Returned(value: T) | Thrown

  /** The dimension guard: throws when the coordinate counts differ, otherwise returns nothing. */
  function SameDimensions(p1: Point, p2: Point): (r: Outcome<()>)
    ensures r.Thrown? <==> |p1.coordinates| != |p2.coordinates|
  {
    if |p1.coordinates| != |p2.coordinates| then Thrown else Returned(())
  }

  /** What `manhanttanDistance` returns or throws. */
  function Manhattan(p1: Point, p2: Point): (r: Outcome<real>)
    ensures r.Thrown? <==> |p1.coordinates| != |p2.coordinates|
    ensures r.Returned? ==> r.value >= 0.0
  {
    if SameDimensions(p1, p2).Thrown? then Thrown
    else Returned(L1(p1.coordinates, p2.coordinates))
  }

  /**
   What `euclideanDistance` returns or throws. The final expression of the
   source, `sum ** 1/2`, parses as `(sum ** 1) / 2`, so the result is half the
   sum of squared differences, not its square root.
   */
  function Euclidean(p1: Point, p2: Point): (r: Outcome<real>)
    ensures r.Thrown? <==> |p1.coordinates| != |p2.coordinates|
    ensures r.Returned? ==> r.value >= 0.0
  {
    if SameDimensions(p1, p2).Thrown? then Thrown
    else Returned(SqSum(p1.coordinates, p2.coordinates) / 2.0)
  }

  /** The loop of `manhanttanDistance`: accumulates |p1[i] - p2[i]| from 0, left to right. */
  method ManhattanDistance(p1: Point, p2: Point) returns (r: Outcome<real>)
    ensures r.Thrown? <==> |p1.coordinates| != |p2.coordinates|
    ensures r.Returned? ==> r.value == L1(p1.coordinates, p2.coordinates)
    ensures r == Manhattan(p1, p2)
  {
    if SameDimensions(p1, p2).Thrown? {
      return Thrown;
    }
    var xs, ys := p1.coordinates, p2.coordinates;
    var sum := 0.0;
    for i := 0 to |xs|
      invariant sum == L1(xs[..i], ys[..i])
    {
      L1Step(xs, ys, i);
      sum := sum + Abs(xs[i] - ys[i]);
    }
    assert xs[..|xs|] == xs && ys[..|ys|] == ys;
    return Returned(sum);
  }

  /** The loop of `euclideanDistance`: accumulates (p1[i] - p2[i]) ** 2, then divides by 2. */
  method EuclideanDistance(p1: Point, p2: Point) returns (r: Outcome<real>)
    ensures r.Thrown? <==> |p1.coordinates| != |p2.coordinates|
    ensures r.Returned? ==> r.value == SqSum(p1.coordinates, p2.coordinates) / 2.0
    ensures r == Euclidean(p1, p2)
  {
    if SameDimensions(p1, p2).Thrown? {
      return Thrown;
    }
    var xs, ys := p1.coordinates, p2.coordinates;
    var sum := 0.0;
    for i := 0 to |xs|
      invariant sum == SqSum(xs[..i], ys[..i])
    {
      SqSumStep(xs, ys, i);
      sum := sum + Square(xs[i] - ys[i]);
    }
    assert xs[..|xs|] == xs && ys[..|ys|] == ys;
    return Returned(sum / 2.0);
  }

  lemma ManhattanSymmetric(p1: Point, p2: Point)
    ensures Manhattan(p1, p2) == Manhattan(p2, p1)
  {
    if Manhattan(p1, p2).Returned? {
      L1Symmetric(p1.coordinates, p2.coordinates);
    }
  }

  /** The distance is 0 exactly when the points are equal; unequal dimensions throw. */
  lemma ManhattanZeroIff(p1: Point, p2: Point)
    ensures Manhattan(p1, p2) == Returned(0.0) <==> p1 == p2
  {
    if |p1.coordinates| == |p2.coordinates| {
      L1ZeroIff(p1.coordinates, p2.coordinates);
    }
  }

  /** Triangle inequality for three points of one dimension. */
  lemma ManhattanTriangle(p1: Point, p2: Point, p3: Point)
    requires |p1.coordinates| == |p2.coordinates| == |p3.coordinates|
    ensures Manhattan(p1, p3).value <= Manhattan(p1, p2).value + Manhattan(p2, p3).value
  {
    L1Triangle(p1.coordinates, p2.coordinates, p3.coordinates);
  }

  /** Worked values: unequal dimensions throw, and two small distances. */
  lemma ManhattanExamples()
    ensures Manhattan(Point([1.0, 2.0, 3.0]), Point([1.0, 2.0])) == Thrown
    ensures Manhattan(Point([0.0, 0.0]), Point([3.0, 4.0])) == Returned(7.0)
    ensures Manhattan(Point([1.5, -2.5]), Point([-1.5, 2.5])) == Returned(8.0)
  {
    assert [0.0, 0.0][..1] == [0.0] && [3.0, 4.0][..1] == [3.0];
    assert [1.5, -2.5][..1] == [1.5] && [-1.5, 2.5][..1] == [-1.5];
    assert L1([0.0], [3.0]) == 3.0 by {
      assert [0.0][..0] == [] && [3.0][..0] == [];
    }
    assert L1([1.5], [-1.5]) == 3.0 by {
      assert [1.5][..0] == [] && [-1.5][..0] == [];
    }
  }

  lemma EuclideanSymmetric(p1: Point, p2: Point)
    ensures Euclidean(p1, p2) == Euclidean(p2, p1)
  {
    if Euclidean(p1, p2).Returned? {
      SqSumSymmetric(p1.coordinates, p2.coordinates);
    }
  }

  /** The result is 0 exactly when the points are equal; unequal dimensions throw. */
  lemma EuclideanZeroIff(p1: Point, p2: Point)
    ensures Euclidean(p1, p2) == Returned(0.0) <==> p1 == p2
  {
    if |p1.coordinates| == |p2.coordinates| {
      SqSumZeroIff(p1.coordinates, p2.coordinates);
    }
  }

  /**
   The Euclidean result is not the Euclidean length: for (0, 0) and (3, 4),
   whose squared distance is 25, it returns 12.5, whose square is not 25.
   */
  lemma EuclideanIsNotSquareRoot()
    ensures Euclidean(Point([0.0, 0.0]), Point([3.0, 4.0])) == Returned(12.5)
    ensures Euclidean(Point([0.0, 0.0]), Point([3.0, 4.0])).value * Euclidean(Point([0.0, 0.0]), Point([3.0, 4.0])).value
            != SqSum([0.0, 0.0], [3.0, 4.0])
  {
    var xs, ys := [0.0, 0.0], [3.0, 4.0];
    assert xs[..1] == [0.0] && ys[..1] == [3.0];
    assert SqSum([0.0], [3.0]) == 9.0 by {
      assert [0.0][..0] == [] && [3.0][..0] == [];
    }
  }
}
