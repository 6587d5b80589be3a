/** The Python server's view of the parsed JSON values: subscripting, `len`,
    `dict.get`, `sum(x) / len(x)` and what `np.asarray` accepts, with the
    exceptions each of them raises. */
module PyValues {
  import opened Wrappers
  import opened JsValues
  import opened ArrayShape
  import opened Sums

  /** The exceptions the Python code in the model can raise. `PyError.NotModelled`
      stands for a computation the source performs but whose value this model
      does not represent (fancy indexing with a non-boolean mask, `squeeze`
      dropping a length-1 axis, a broadcast that succeeds with a reshaped
      result, `sum` over values that are not numbers). */
  datatype PyError =
    | KeyError
    | IndexError
    | TypeError
    | ValueError
    | ZeroDivisionError
    | AttributeError
    | NotModelled

  /** `v[key]` for a string key: a dict answers the value or raises KeyError,
      and every other value raises TypeError (a list or a string wants an
      integer index; `None`, booleans and numbers are not subscriptable). */
  function Subscript(v: JsValue, key: string): (r: Result<JsValue, PyError>)
    ensures r.Success? <==> v.Obj? && key in v.fields
    ensures r.Success? ==> r.value == v.fields[key]
    ensures r == Failure(KeyError) <==> v.Obj? && key !in v.fields
  {
    if !v.Obj? then Failure(PyError.TypeError)
    else if key in v.fields then Success(v.fields[key])
    else Failure(KeyError)
  }

  /** `d.get(key, default)`: only a dict has `get`. */
  function GetOr(v: JsValue, key: string, default: JsValue): (r: Result<JsValue, PyError>)
    ensures r.Success? <==> v.Obj?
    ensures v.Obj? ==> r.value == (if key in v.fields then v.fields[key] else default)
  {
    if !v.Obj? then Failure(AttributeError)
    else Success(if key in v.fields then v.fields[key] else default)
  }

  /** `len(v)`: the number of items of a list, characters of a string or keys
      of a dict; other values have no length. */
  function Len(v: JsValue): (r: Result<nat, PyError>)
    ensures r.Success? <==> v.Arr? || v.Text? || v.Obj?
    ensures v.Arr? ==> r == Success(|v.items|)
  {
    match v
    case Arr(xs) => Success(|xs|)
    case Text(s) => Success(|s|)
    case Obj(m) => Success(|m|)
    case _ => Failure(PyError.TypeError)
  }

  /** A nested list numpy can turn into an array: every level is as long as
      its first-child probe says. */
  predicate Rectangular(v: JsValue) {
    HasShape(v, Shape(v))
  }

  /** `np.asarray(v)`: a rectangular nest keeps its values and its extents,
      and a ragged one raises ValueError ("inhomogeneous shape"). */
  function AsArray(v: JsValue): (r: Result<JsValue, PyError>)
    ensures r.Success? <==> Rectangular(v)
    ensures r.Success? ==> r.value == v && HasShape(r.value, Shape(v))
    ensures r.Failure? ==> r.error == ValueError
  {
    if Rectangular(v) then Success(v) else Failure(ValueError)
  }

  /** An array of the given extents is rectangular. */
  lemma RectangularOfShape(v: JsValue, dims: seq<nat>)
    requires HasShape(v, dims)
    requires forall i :: 0 <= i < |dims| - 1 ==> dims[i] > 0
    ensures AsArray(v) == Success(v)
  {
    ShapeOfRectangular(v, dims);
  }

  /** `sum(v) / len(v)`. Summing a list of numbers and dividing by its length
      gives the mean, an empty list (or string or dict) divides by zero, and
      summing strings or dict keys raises TypeError. */
  function Mean(v: JsValue): (r: Result<real, PyError>)
    ensures v.Arr? && |v.items| == 0 ==> r == Failure(ZeroDivisionError)
    ensures v.Arr? && |v.items| > 0 && (forall i :: 0 <= i < |v.items| ==> v.items[i].Num?) ==>
              r.Success? && r.value * (|v.items| as real) == Sum(Numbers(v.items))
    ensures r.Success? ==> v.Arr? && |v.items| > 0
  {
    match v
    case Arr(xs) =>
      if |xs| == 0 then Failure(ZeroDivisionError)
      else if forall i :: 0 <= i < |xs| ==> xs[i].Num? then
        Success(ArrAverage(Numbers(xs)))
      else Failure(PyError.NotModelled)
    case Text(s) => if |s| == 0 then Failure(ZeroDivisionError) else Failure(PyError.TypeError)
    case Obj(m) => if |m| == 0 then Failure(ZeroDivisionError) else Failure(PyError.TypeError)
    case _ => Failure(PyError.TypeError)
  }

  /** The mean of numbers lies between any bounds of them. */
  lemma MeanWithinBounds(xs: seq<JsValue>, lo: real, hi: real)
    requires |xs| > 0
    requires forall i :: 0 <= i < |xs| ==> xs[i].Num? && lo <= xs[i].x <= hi
    ensures Mean(Arr(xs)).Success? && lo <= Mean(Arr(xs)).value <= hi
  {
    var ns := Numbers(xs);
    assert forall i :: 0 <= i < |ns| ==> lo <= ns[i] <= hi;
    AverageWithinBounds(ns, lo, hi);
  }
}
