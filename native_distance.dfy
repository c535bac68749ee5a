/**
 The native Manhattan distance exported to JavaScript (`manhattan_distance`).

 Its two arguments arrive as JavaScript values. Extracting them as arrays
 fails, with an error thrown back to JavaScript, when an argument is missing
 or is not an array. The loop then visits every index of the first vector
 only; at each index it unwraps the first element as a number, unwraps the
 second vector's element (absent when the second vector is shorter) and
 unwraps it as a number. A failed unwrap panics. There is no length check.
 */
module NativeDistance {
  import opened Reductions
  import PointDistance

  /** An array element as the loop sees it: a number or anything else. */
  datatype JsValue = Num(value: real) | NotNum

  /** A call argument: not supplied, supplied but not an array, or an array. */
  datatype JsArg = Absent | NotArray | Array(elements: seq<JsValue>)

  /** The `unwrap` that panics at a given index. */
  datatype Fault =
    | NotNumberInVector1   // `downcast::<JsNumber>().unwrap()` on the first vector's element
    | MissingInVector2     // `get(i).unwrap()` past the end of the second vector
    | NotNumberInVector2   // `downcast::<JsNumber>().unwrap()` on the second vector's element

  datatype Option<T> = None | Some(value: T)

  /** Outcome of a call: a distance, an argument error (thrown back to JavaScript), or a panic. */
  datatype NativeOutcome =
    | Ok(distance: real)
    | ArgError(position: nat)
    | Panic(index: nat, fault: Fault)

  /** The first failing `unwrap` of iteration i, in the order the loop body runs them. */
  function ElementFault(v1: seq<JsValue>, v2: seq<JsValue>, i: nat): (f: Option<Fault>)
    requires i < |v1|
    ensures f == None <==> i < |v2| && v1[i].Num? && v2[i].Num?
  {
    if v1[i].NotNum? then Some(NotNumberInVector1)
    else if i >= |v2| then Some(MissingInVector2)
    else if v2[i].NotNum? then Some(NotNumberInVector2)
    else None
  }

  /** The state after the first n iterations: the running sum, or the panic that stopped the loop. */
  function Run(v1: seq<JsValue>, v2: seq<JsValue>, n: nat): (r: NativeOutcome)
    requires n <= |v1|
    ensures r.Ok? || r.Panic?
    ensures r.Ok? ==> r.distance >= 0.0
    ensures r.Panic? ==> r.index < n
  {
    if n == 0 then Ok(0.0)
    else
      match Run(v1, v2, n - 1)
      case Ok(sum) =>
        (match ElementFault(v1, v2, n - 1)
         case Some(f) => Panic(n - 1, f)
         case None => Ok(sum + Abs(v1[n - 1].value - v2[n - 1].value)))
      case stopped => stopped
  }

  /** What `manhattan_distance` does with its two arguments. */
  function ManhattanNative(a1: JsArg, a2: JsArg): (r: NativeOutcome)
    ensures r.ArgError? <==> !a1.Array? || !a2.Array?
    ensures r.Ok? ==> r.distance >= 0.0
  {
    if !a1.Array? then ArgError(0)
    else if !a2.Array? then ArgError(1)
    else Run(a1.elements, a2.elements, |a1.elements|)
  }

  /** Every index below n has an element in both vectors, and both are numbers. */
  predicate AllNumbers(v1: seq<JsValue>, v2: seq<JsValue>, n: nat)
    requires n <= |v1|
  {
    forall i :: 0 <= i < n ==> i < |v2| && v1[i].Num? && v2[i].Num?
  }

  /** The numbers of a sequence whose elements are all numbers. */
  function Numbers(vs: seq<JsValue>): (xs: seq<real>)
    requires forall i :: 0 <= i < |vs| ==> vs[i].Num?
    ensures |xs| == |vs|
    ensures forall i :: 0 <= i < |vs| ==> xs[i] == vs[i].value
  {
    if |vs| == 0 then [] else Numbers(vs[..|vs| - 1]) + [vs[|vs| - 1].value]
  }

  /** The native function: argument extraction, then the loop over `0..vector1.len()`. */
  method ManhattanDistance(a1: JsArg, a2: JsArg) returns (r: NativeOutcome)
    ensures r.ArgError? <==> !a1.Array? || !a2.Array?
    ensures r.ArgError? ==> r.position == if a1.Array? then 1 else 0
    ensures r == ManhattanNative(a1, a2)
  {
    if !a1.Array? {
      return ArgError(0);
    }
    if !a2.Array? {
      return ArgError(1);
    }
    var v1, v2 := a1.elements, a2.elements;
    var sum := 0.0;
    for i := 0 to |v1|
      invariant Run(v1, v2, i) == Ok(sum)
    {
      var fault := ElementFault(v1, v2, i);
      if fault.Some? {
        PanicPersists(v1, v2, i + 1, |v1|);
        return Panic(i, fault.value);
      }
      sum := sum + Abs(v1[i].value - v2[i].value);
    }
    return Ok(sum);
  }

  /** Once the loop has panicked, later iterations do not change the outcome. */
  lemma {:induction false} PanicPersists(v1: seq<JsValue>, v2: seq<JsValue>, m: nat, n: nat)
    requires m <= n <= |v1|
    requires Run(v1, v2, m).Panic?
    ensures Run(v1, v2, n) == Run(v1, v2, m)
    decreases n - m
  {
    if m < n {
      PanicPersists(v1, v2, m, n - 1);
    }
  }

  /** The loop runs n iterations without panicking exactly when no index below n faults. */
  lemma {:induction false} RunOkIff(v1: seq<JsValue>, v2: seq<JsValue>, n: nat)
    requires n <= |v1|
    ensures Run(v1, v2, n).Ok? <==> AllNumbers(v1, v2, n)
  {
    if n > 0 {
      RunOkIff(v1, v2, n - 1);
    }
  }

  /** A loop that has not panicked holds the L1 sum of the numbers it has visited. */
  lemma {:induction false} RunOkValue(v1: seq<JsValue>, v2: seq<JsValue>, n: nat)
    requires n <= |v1| && n <= |v2|
    requires forall i :: 0 <= i < n ==> v1[i].Num? && v2[i].Num?
    ensures Run(v1, v2, n) == Ok(L1(Numbers(v1[..n]), Numbers(v2[..n])))
  {
    if n > 0 {
      RunOkValue(v1, v2, n - 1);
      var xs, ys := Numbers(v1[..n]), Numbers(v2[..n]);
      var xs', ys' := Numbers(v1[..n - 1]), Numbers(v2[..n - 1]);
      assert xs[..n - 1] == xs';
      assert ys[..n - 1] == ys';
      assert ElementFault(v1, v2, n - 1) == None;
      calc {
        Run(v1, v2, n);
        Ok(L1(xs', ys') + Abs(v1[n - 1].value - v2[n - 1].value));
        Ok(L1(xs[..n - 1], ys[..n - 1]) + Abs(xs[n - 1] - ys[n - 1]));
        Ok(L1(xs, ys));
      }
    }
  }

  /** The loop panics at index k with fault f exactly when k is the first faulting index. */
  lemma {:induction false} RunPanicIff(v1: seq<JsValue>, v2: seq<JsValue>, n: nat, k: nat, f: Fault)
    requires n <= |v1|
    ensures Run(v1, v2, n) == Panic(k, f) <==>
              k < n && ElementFault(v1, v2, k) == Some(f) &&
              forall i :: 0 <= i < k ==> ElementFault(v1, v2, i) == None
  {
    if n > 0 {
      RunPanicIff(v1, v2, n - 1, k, f);
      RunOkIff(v1, v2, n - 1);
      var before := Run(v1, v2, n - 1);
      if before.Ok? {
        if k < n - 1 {
          assert ElementFault(v1, v2, k) == None;
        }
      } else {
        RunPanicIff(v1, v2, n - 1, before.index, before.fault);
        if k == n - 1 {
          assert ElementFault(v1, v2, before.index) != None;
        }
      }
    }
  }

  /** Missing or non-array arguments give the argument error, checked for the first argument first. */
  lemma ArgumentErrors(a1: JsArg, a2: JsArg)
    ensures !a1.Array? ==> ManhattanNative(a1, a2) == ArgError(0)
    ensures a1.Array? && !a2.Array? ==> ManhattanNative(a1, a2) == ArgError(1)
    ensures a1.Array? && a2.Array? ==> !ManhattanNative(a1, a2).ArgError?
  {
  }

  /**
   With both vectors of numbers over the indices the loop visits, and the
   second at least as long as the first, the result is the L1 sum over the
   first vector's indices.
   */
  lemma SuccessValue(v1: seq<JsValue>, v2: seq<JsValue>)
    requires |v1| <= |v2|
    requires forall i :: 0 <= i < |v1| ==> v1[i].Num? && v2[i].Num?
    ensures ManhattanNative(Array(v1), Array(v2)) == Ok(L1(Numbers(v1), Numbers(v2[..|v1|])))
  {
    RunOkValue(v1, v2, |v1|);
    assert v1[..|v1|] == v1;
  }

  /** A call succeeds exactly when every visited index has a number in both vectors. */
  lemma SuccessIff(v1: seq<JsValue>, v2: seq<JsValue>)
    ensures ManhattanNative(Array(v1), Array(v2)).Ok? <==> AllNumbers(v1, v2, |v1|)
  {
    RunOkIff(v1, v2, |v1|);
  }

  /**
   A second vector shorter than the first makes the loop panic at index
   |v2| unless an earlier index failed first: at the first vector's
   downcast if that element is not a number, otherwise at `get(i).unwrap()`.
   */
  lemma ShortVector2Panics(v1: seq<JsValue>, v2: seq<JsValue>)
    requires |v2| < |v1|
    requires forall i :: 0 <= i < |v2| ==> v1[i].Num? && v2[i].Num?
    ensures ManhattanNative(Array(v1), Array(v2)) ==
              Panic(|v2|, if v1[|v2|].Num? then MissingInVector2 else NotNumberInVector1)
  {
    var k := |v2|;
    var f := if v1[k].Num? then MissingInVector2 else NotNumberInVector1;
    RunPanicIff(v1, v2, |v1|, k, f);
  }

  /** Elements of the second vector past the first vector's length are never read. */
  lemma TrailingElementsIgnored(v1: seq<JsValue>, v2: seq<JsValue>, extra: seq<JsValue>)
    requires |v1| <= |v2|
    ensures ManhattanNative(Array(v1), Array(v2 + extra)) == ManhattanNative(Array(v1), Array(v2))
  {
    RunPrefixOfVector2(v1, v2, extra, |v1|);
  }

  lemma {:induction false} RunPrefixOfVector2(v1: seq<JsValue>, v2: seq<JsValue>, extra: seq<JsValue>, n: nat)
    requires n <= |v1| && n <= |v2|
    ensures Run(v1, v2 + extra, n) == Run(v1, v2, n)
  {
    if n > 0 {
      RunPrefixOfVector2(v1, v2, extra, n - 1);
      assert (v2 + extra)[n - 1] == v2[n - 1];
    }
  }

  /** An empty first vector gives 0, whatever the second array holds. */
  lemma EmptyVector1(v2: seq<JsValue>)
    ensures ManhattanNative(Array([]), Array(v2)) == Ok(0.0)
  {
  }

  /** On equal-length vectors of numbers, the native result is the TypeScript Manhattan distance. */
  lemma AgreesWithTypeScript(v1: seq<JsValue>, v2: seq<JsValue>)
    requires |v1| == |v2|
    requires forall i :: 0 <= i < |v1| ==> v1[i].Num? && v2[i].Num?
    ensures ManhattanNative(Array(v1), Array(v2)).Ok?
    ensures PointDistance.Manhattan(PointDistance.Point(Numbers(v1)), PointDistance.Point(Numbers(v2)))
            == PointDistance.Returned(ManhattanNative(Array(v1), Array(v2)).distance)
  {
    SuccessValue(v1, v2);
    assert v2[..|v1|] == v2;
  }

  /**
   The length precondition exists only as a comment: a longer second vector is
   truncated and succeeds, a shorter one panics.
   */
  lemma NoLengthCheck()
    ensures ManhattanNative(Array([Num(1.0), Num(2.0)]), Array([Num(1.0), Num(2.0), NotNum])) == Ok(0.0)
    ensures ManhattanNative(Array([Num(1.0), Num(2.0), Num(3.0)]), Array([Num(1.0), Num(2.0)]))
            == Panic(2, MissingInVector2)
  {
    var v1 := [Num(1.0), Num(2.0)];
    SuccessValue(v1, v1 + [NotNum]);
    assert (v1 + [NotNum])[..|v1|] == v1;
    assert v1 + [NotNum] == [Num(1.0), Num(2.0), NotNum];
    L1ZeroIff(Numbers(v1), Numbers(v1));
    ShortVector2Panics(v1 + [Num(3.0)], v1);
    assert v1 + [Num(3.0)] == [Num(1.0), Num(2.0), Num(3.0)];
  }
}
