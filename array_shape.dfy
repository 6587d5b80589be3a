/** The shape and reduction helpers of the JavaScript server
    (`getArrayDimensionsLength`, `arr_average`, `sum3DMatrix`), and element
    access into nested arrays, which both servers use. */
module ArrayShape {
  import opened JsValues
  import opened Sums

  // ---------------------------------------------------------------------------
  // getArrayDimensionsLength

  /** The extents of a nested array found by following first children: a
      non-array has no extents, an empty array has the single extent 0, and
      otherwise the length is followed by the first child's extents. Later
      children are never looked at, so ragged arrays are tolerated. */
  function Shape(v: JsValue): (r: seq<nat>)
    ensures v.Arr? <==> |r| >= 1
    ensures v.Arr? ==> r[0] == |v.items|
    decreases v
  {
    if !v.Arr? then []
    else [|v.items|] + (if |v.items| > 0 then Shape(v.items[0]) else [])
  }

  /** `v` is a rectangular nested array with the given extents (innermost
      elements are not arrays). */
  predicate HasShape(v: JsValue, dims: seq<nat>)
    decreases |dims|
  {
    if dims == [] then !v.Arr?
    else v.Arr? && |v.items| == dims[0]
         && forall i :: 0 <= i < |v.items| ==> HasShape(v.items[i], dims[1..])
  }

  /** On a rectangular array the first-child probe returns exactly its extents,
      provided no extent but the innermost is 0 (past a 0 there is no child to
      probe). */
  lemma {:induction false} ShapeOfRectangular(v: JsValue, dims: seq<nat>)
    requires HasShape(v, dims)
    requires forall i :: 0 <= i < |dims| - 1 ==> dims[i] > 0
    ensures Shape(v) == dims
    decreases |dims|
  {
    if dims != [] {
      if |dims| == 1 {
        if |v.items| > 0 {
          assert HasShape(v.items[0], dims[1..]);
        }
      } else {
        assert HasShape(v.items[0], dims[1..]);
        ShapeOfRectangular(v.items[0], dims[1..]);
        assert dims == [dims[0]] + dims[1..];
      }
    }
  }

  /** For a rectangular 4D volume `[x][y][z][t]` the probe returns its four
      extents, so element 0 is the side length and element 3 the time count. */
  lemma ShapeOfVolume(v: JsValue, d0: nat, d1: nat, d2: nat, d3: nat)
    requires HasShape(v, [d0, d1, d2, d3]) && d0 > 0 && d1 > 0 && d2 > 0
    ensures Shape(v) == [d0, d1, d2, d3]
  {
    ShapeOfRectangular(v, [d0, d1, d2, d3]);
  }

  /** `shape[i]` where `shape` is the array `getArrayDimensionsLength`
      returned: a number, or `undefined` past its end. */
  function ShapeEntry(shape: seq<nat>, i: nat): (r: JsValue)
    ensures r.Num? <==> i < |shape|
    ensures r.Num? ==> r.x == shape[i] as real
  {
    if i < |shape| then Num(shape[i] as real) else Undefined
  }

  /** Element `n` of an array, `undefined` past its end or for a non-array. */
  function At(v: JsValue, n: nat): JsValue {
    if v.Arr? && n < |v.items| then v.items[n] else Undefined
  }

  /** `v[i][j][k][t]` read element by element. */
  function Element(v: JsValue, i: nat, j: nat, k: nat, t: nat): JsValue {
    At(At(At(At(v, i), j), k), t)
  }

  // ---------------------------------------------------------------------------
  // arr_average

  /** The numbers of an all-number array. */
  function Numbers(xs: seq<JsValue>): (r: seq<real>)
    requires forall i :: 0 <= i < |xs| ==> xs[i].Num?
    ensures |r| == |xs| && forall i :: 0 <= i < |xs| ==> r[i] == xs[i].x
  {
    if xs == [] then [] else [xs[0].x] + Numbers(xs[1..])
  }

  /** `arr_average`: 0 for an empty array (no division by zero), otherwise the
      `reduce` sum divided by the length. */
  function ArrAverage(arr: seq<real>): (r: real)
    ensures |arr| == 0 ==> r == 0.0
    ensures |arr| > 0 ==> r * (|arr| as real) == Sum(arr)
  {
    if |arr| == 0 then 0.0
    else
      FoldSumIsSum(0.0, arr);
      FoldSum(0.0, arr) / (|arr| as real)
  }

  /** The average lies between any lower and upper bound of the elements. */
  lemma AverageWithinBounds(arr: seq<real>, lo: real, hi: real)
    requires |arr| > 0
    requires forall i :: 0 <= i < |arr| ==> lo <= arr[i] <= hi
    ensures lo <= ArrAverage(arr) <= hi
  {
    SumBounds(arr, lo, hi);
    var n := |arr| as real;
    var m := ArrAverage(arr);
    assert m * n == Sum(arr);
    assert n * lo <= m * n <= n * hi;
  }

  // ---------------------------------------------------------------------------
  // sum3DMatrix

  function FoldPlane(acc: real, plane: seq<seq<real>>): real
    decreases |plane|
  {
    if plane == [] then acc else FoldPlane(acc + FoldSum(0.0, plane[0]), plane[1..])
  }

  function FoldCube(acc: real, cube: seq<seq<seq<real>>>): real
    decreases |cube|
  {
    if cube == [] then acc else FoldCube(acc + FoldPlane(0.0, cube[0]), cube[1..])
  }

  function Flatten2(plane: seq<seq<real>>): seq<real> {
    if plane == [] then [] else plane[0] + Flatten2(plane[1..])
  }

  function Flatten3(cube: seq<seq<seq<real>>>): seq<real> {
    if cube == [] then [] else Flatten2(cube[0]) + Flatten3(cube[1..])
  }

  lemma {:induction false} FoldPlaneIsSum(acc: real, plane: seq<seq<real>>)
    ensures FoldPlane(acc, plane) == acc + Sum(Flatten2(plane))
    decreases |plane|
  {
    if plane != [] {
      FoldSumIsSum(0.0, plane[0]);
      FoldPlaneIsSum(acc + FoldSum(0.0, plane[0]), plane[1..]);
      SumAppend(plane[0], Flatten2(plane[1..]));
    }
  }

  lemma {:induction false} FoldCubeIsSum(acc: real, cube: seq<seq<seq<real>>>)
    ensures FoldCube(acc, cube) == acc + Sum(Flatten3(cube))
    decreases |cube|
  {
    if cube != [] {
      FoldPlaneIsSum(0.0, cube[0]);
      FoldCubeIsSum(acc + FoldPlane(0.0, cube[0]), cube[1..]);
      SumAppend(Flatten2(cube[0]), Flatten3(cube[1..]));
    }
  }

  /** `sum3DMatrix`: the three nested `reduce`s add up every leaf of the
      three-level nest, and an empty nest sums to 0. */
  function Sum3DMatrix(matrix: seq<seq<seq<real>>>): (r: real)
    ensures r == Sum(Flatten3(matrix))
    ensures matrix == [] ==> r == 0.0
  {
    FoldCubeIsSum(0.0, matrix);
    FoldCube(0.0, matrix)
  }
}
