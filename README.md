# distance-metrics in Dafny

A model of the distance arithmetic of the distance-metrics package. The package has three
implementations, and each folds two coordinate sequences into one number:

- `src/index.ts` has the dimension guard `preconditions.sameDimensions` and two loops. The
  Manhattan distance (spelled `manhanttanDistance` in the source) sums `|p1[i] - p2[i]|`.
  `euclideanDistance` sums `(p1[i] - p2[i]) ** 2` and returns `sum ** 1/2`.
  Modelled in module `PointDistance`.
- `build/index.js` is the emitted JavaScript of `euclideanDistance`. Its loop adds
  `Math.pow(d, 2)` and it returns `Math.pow(sum, 1) / 2`. Modelled in module `CompiledDistance`.
- `native/src/lib.rs` is the Neon (Rust) `manhattan_distance`. It extracts two array arguments,
  loops over the indices of the first vector, unwraps each element as a number and sums the
  absolute differences. Modelled in module `NativeDistance`.

Module `Reductions` holds what the three share. `L1` is the sum of absolute differences and
`SqSum` the sum of squared differences. Both are written as left-to-right folds from 0, the
order the loops use, and the module proves their properties: nonnegative, symmetric, zero
exactly on equal sequences, and the triangle inequality for `L1`.

Numbers are Dafny `real`. A JavaScript `throw` is the outcome `Thrown`. The native function's
outcomes are `Ok(distance)`, `ArgError(position)` and `Panic(index, fault)`. `ArgError` is the
error thrown back to JavaScript when an argument is missing or is not an array. `Panic` records
which `unwrap` failed and at which loop index. Array elements are `JsValue = Num(real) | NotNum`.

Each loop is a method. Its invariant ties the running `sum` to the fold over the prefix visited
so far, and its `ensures` ties the result to a specification function: `Manhattan`, `Euclidean`,
`CompiledEuclidean` or `ManhattanNative`. The lemmas state the promised properties about those
functions.

Two places where the names and comments of the code promise more than the code does; the model
follows the code:

- The name `euclideanDistance` suggests a square root. Operator precedence makes `sum ** 1/2`
  mean `(sum ** 1) / 2`, so the function returns half the sum of squared differences. The
  emitted JavaScript makes this explicit with `Math.pow(sum, 1) / 2`. `EuclideanIsNotSquareRoot`
  shows it on (0, 0) and (3, 4): the result is 12.5, where the Euclidean distance is 5.
- The native function states the precondition `vector1.len() == vector2.len()` only in a
  comment (`native/src/lib.rs:15`); the code does not check it. A shorter second vector panics
  in `get(i).unwrap()`. A longer one is silently truncated. A non-number panics in
  `downcast::<JsNumber>().unwrap()`. The model has these panics and this truncation
  (`ShortVector2Panics`, `TrailingElementsIgnored`, `NoLengthCheck`).

## Model

| member | source | states |
|---|---|---|
| Reductions.Abs | src/index.ts:37 | `Math.abs` / `f64::abs` gives a nonnegative value equal to `x` or `-x` |
| Reductions.Square | src/index.ts:48 | `d ** 2` is never negative |
| Reductions.L1 | src/index.ts:35-38 | the sum of absolute differences, folded left to right from 0 over the common length, is never negative |
| Reductions.SqSum | src/index.ts:46-49 | the sum of squared differences, folded left to right from 0 over the common length, is never negative |
| Reductions.L1Symmetric | src/index.ts:37 | swapping the two coordinate sequences leaves the sum of absolute differences unchanged |
| Reductions.L1ZeroIff | src/index.ts:35-38 | the sum of absolute differences is 0 if and only if the two sequences are equal (empty ones included) |
| Reductions.L1Triangle | src/index.ts:37 | L1(x, z) <= L1(x, y) + L1(y, z) for equal-length sequences, from the per-index triangle inequality |
| Reductions.L1Step | src/index.ts:36-38 | one loop iteration extends the fold over the prefix by the term at index i |
| Reductions.SqSumStep | src/index.ts:47-49 | one loop iteration extends the sum of squares over the prefix by the term at index i |
| Reductions.SqSumSymmetric | src/index.ts:48 | swapping the two sequences leaves the sum of squared differences unchanged |
| Reductions.SqSumZeroIff | src/index.ts:46-49 | the sum of squared differences is 0 if and only if the sequences are equal |
| Reductions.SquareSign | src/index.ts:48 | `d ** 2` is positive for every nonzero `d` |
| PointDistance.SameDimensions | src/index.ts:26-28 | the guard throws exactly when the two coordinate counts differ, and otherwise returns |
| PointDistance.Manhattan | src/index.ts:32-41 | what `manhanttanDistance` does: throws exactly when the coordinate counts differ, and a returned distance is never negative |
| PointDistance.Euclidean | src/index.ts:43-52 | what `euclideanDistance` does: throws exactly when the coordinate counts differ, and a returned result is never negative |
| PointDistance.ManhattanDistance | src/index.ts:32-41 | throws exactly on unequal dimensions; otherwise returns the sum over i of abs(p1[i] - p2[i]), accumulated from 0 (loop invariant: sum is the fold over the prefix) |
| PointDistance.EuclideanDistance | src/index.ts:43-52 | throws exactly on unequal dimensions; otherwise returns the sum of squared differences divided by 2, as `sum ** 1/2` parses |
| PointDistance.ManhattanSymmetric | src/index.ts:32-41 | swapping the points gives the same outcome, both the throw and the value |
| PointDistance.ManhattanZeroIff | src/index.ts:32-41 | the outcome is `Returned(0)` exactly for identical points (so also for empty coordinates); unequal dimensions throw |
| PointDistance.ManhattanTriangle | src/index.ts:37 | triangle inequality for three points of one dimension |
| PointDistance.ManhattanExamples | src/index.ts:32-41 | (1,2,3) against (1,2) throws; (0,0)-(3,4) is 7; (1.5,-2.5)-(-1.5,2.5) is 8 |
| PointDistance.EuclideanSymmetric | src/index.ts:43-52 | swapping the points gives the same outcome |
| PointDistance.EuclideanZeroIff | src/index.ts:43-52 | the outcome is `Returned(0)` exactly for identical points; unequal dimensions throw |
| PointDistance.EuclideanIsNotSquareRoot | src/index.ts:51 | for (0,0) and (3,4) the function returns 12.5, whose square is not the sum of squared differences 25: it is not the Euclidean length |
| CompiledDistance.MathPow | build/index.js:17-19 | `Math.pow` with a natural exponent: a nonnegative base gives a nonnegative power |
| CompiledDistance.CompiledEuclidean | build/index.js:3-20 | what the emitted `euclideanDistance` does: throws exactly when the coordinate lengths differ, and a returned result is never negative |
| CompiledDistance.MathPowOneTwo | build/index.js:17-19 | `Math.pow(x, 1)` is `x` and `Math.pow(x, 2)` is the square of `x` |
| CompiledDistance.EuclideanDistance | build/index.js:3-20 | throws exactly when the coordinate lengths differ; otherwise returns the sum of squared differences divided by 2 (loop invariant: sum is the fold over the prefix, from 0) |
| CompiledDistance.CompiledAgreesWithSource | build/index.js:3-20 | the emitted function and `src/index.ts` `euclideanDistance` have the same outcome on every input, throws included |
| CompiledDistance.CompiledEuclideanProperties | build/index.js:15-19 | the emitted result is nonnegative, symmetric in the points, and 0 exactly for identical points |
| NativeDistance.ElementFault | native/src/lib.rs:20-21 | iteration i fails in none of its three `unwrap`s that can fail (`vector1.get(i).unwrap()` cannot, as i < vector1.len()) exactly when index i is in the second vector and both elements are numbers |
| NativeDistance.Run | native/src/lib.rs:16-23 | after n iterations the loop has either a running sum, never negative, or a panic at an index below n |
| NativeDistance.ManhattanNative | native/src/lib.rs:8-26 | what `manhattan_distance` does: an argument error exactly when an argument is missing or not an array, and a returned distance is never negative |
| NativeDistance.Numbers | native/src/lib.rs:20-22 | the numbers read from an all-number vector, element for element |
| NativeDistance.ManhattanDistance | native/src/lib.rs:8-26 | an argument error exactly when an argument is not an array, the first argument checked first; otherwise the outcome of the loop over `0..vector1.len()` (loop invariant: the loop state after i iterations is `Ok(sum)`) |
| NativeDistance.PanicPersists | native/src/lib.rs:18-23 | once an iteration panics, no later iteration changes the outcome |
| NativeDistance.RunOkIff | native/src/lib.rs:18-23 | n iterations complete exactly when every index below n has a number in both vectors |
| NativeDistance.RunOkValue | native/src/lib.rs:16-23 | a loop that has not panicked holds the sum of absolute differences of the elements visited, from 0.0 |
| NativeDistance.RunPanicIff | native/src/lib.rs:20-21 | the loop panics at index k with a given fault exactly when k is the first index with a failing `unwrap` and that is the first `unwrap` to fail there |
| NativeDistance.ArgumentErrors | native/src/lib.rs:9-12 | a missing or non-array argument gives the argument error before any arithmetic, argument 0 before argument 1 |
| NativeDistance.SuccessValue | native/src/lib.rs:16-25 | with numbers at every visited index, the result is the sum of absolute differences over the first vector's indices |
| NativeDistance.SuccessIff | native/src/lib.rs:18-22 | a call on two arrays succeeds exactly when every index of the first vector has a number in both vectors |
| NativeDistance.ShortVector2Panics | native/src/lib.rs:20-21 | a shorter second vector panics at index len(vector2) when no earlier index fails, in `get(i).unwrap()` unless the first vector's element there is not a number |
| NativeDistance.TrailingElementsIgnored | native/src/lib.rs:18 | when the second vector is at least as long as the first, appending elements to it (numbers or not) does not change the outcome: they are never read |
| NativeDistance.RunPrefixOfVector2 | native/src/lib.rs:18-21 | the loop reads the second vector only at the indices it visits |
| NativeDistance.EmptyVector1 | native/src/lib.rs:16-25 | an empty first vector yields 0, whatever the second array holds |
| NativeDistance.AgreesWithTypeScript | native/src/lib.rs:16-25 | on equal-length all-number vectors the native call succeeds with the value `src/index.ts` computes for the Manhattan distance |
| NativeDistance.NoLengthCheck | native/src/lib.rs:15-21 | the length precondition is not enforced: a longer second vector is truncated and succeeds, a shorter one panics |

## Left out

- IEEE-754 behaviour: rounding, NaN, infinities and signed zeros. Numbers are `real`. The left-to-right folds mirror the loops but have no rounding to preserve.
- The square root that the name `euclideanDistance` suggests: the code does not compute one, and the model follows the code.
- `Math.pow` is modelled only for the natural exponents 1 and 2 that the emitted code uses.
- JavaScript coercion of non-number coordinates in `src/index.ts` and `build/index.js`: the TypeScript signature types them as numbers, and the model takes them as `real`.
- Whether the coordinate array of a point is really an array: `coordinates.length` of a missing field is not modelled.
- Neon plumbing: `register_module` / `export_function`, `FunctionContext`, `cx.number`, and the failure of `to_vec` itself. Each argument is given as absent, not an array, or an array of `JsValue`.
- A missing argument and a non-array argument are the same `ArgError`; the text of the thrown error is not modelled.
- How Neon reports a Rust panic to the JavaScript caller: the model stops at the `Panic` outcome.
- The unused `num_cpus` crate, module export mechanics, and the exact text of the thrown dimension message.
- The TypeScript interface type `coordinates: [number]`, a one-element tuple type that the code does not rely on.
