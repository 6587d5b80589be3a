/** JSON values as the JavaScript server sees them after `JSON.parse`, plus
    `undefined`, and JavaScript's property access `v[key]`. The Python server
    uses the same values for what `json.load` returns (`Null` for `None`). */
module JsValues {
  import opened Wrappers
  import opened Strings

  datatype JsValue =
    | Undefined
    | Null
    | Bool(b: bool)
    | Num(x: real)
    | Text(s: string)
    | Arr(items: seq<JsValue>)
    | Obj(fields: map<string, JsValue>)

  /** A parsed JSON document whose top level is an object. */
  type Doc = map<string, JsValue>

  /** The exceptions JavaScript code in the model can raise. `NotModelled`
      stands for a computation the source performs but whose value this model
      does not represent (a `reduce` over elements that are not numbers, which
      JavaScript answers with string concatenation or `NaN`). */
  datatype JsError = TypeError | NotModelled

  /** `doc[key]` on a plain object: the value, or `undefined`. */
  function Get(doc: Doc, key: string): JsValue {
    if key in doc then doc[key] else Undefined
  }

  /** JavaScript `v[key]`. Reading a property of `undefined` or `null` throws a
      TypeError; an array or a string answers a canonical index inside its bounds
      and `length`; everything else is `undefined`. A number used as a key
      stands for its canonical numeral. */
  function Index(v: JsValue, key: string): (r: Result<JsValue, JsError>)
    ensures r.Failure? <==> v.Undefined? || v.Null?
  {
    match v
    case Undefined => Failure(TypeError)
    case Null => Failure(TypeError)
    case Arr(xs) =>
      if key == "length" then Success(Num(|xs| as real))
      else Success(match CanonicalIndex(key)
                   case Some(n) => if n < |xs| then xs[n] else Undefined
                   case None => Undefined)
    case Text(s) =>
      if key == "length" then Success(Num(|s| as real))
      else Success(match CanonicalIndex(key)
                   case Some(n) => if n < |s| then Text([s[n]]) else Undefined
                   case None => Undefined)
    case Obj(m) => Success(Get(m, key))
    case _ => Success(Undefined)
  }

  /** JavaScript `v[n]` for a number `n`, as the server's loops index: the
      number stands for its numeral, so an array or a string answers its
      element and an object its field named by the numeral. */
  function IndexNum(v: JsValue, n: nat): (r: Result<JsValue, JsError>)
    ensures r.Failure? <==> v.Undefined? || v.Null?
  {
    match v
    case Undefined => Failure(TypeError)
    case Null => Failure(TypeError)
    case Arr(xs) => Success(if n < |xs| then xs[n] else Undefined)
    case Text(s) => Success(if n < |s| then Text([s[n]]) else Undefined)
    case Obj(m) => Success(Get(m, NatToString(n)))
    case _ => Success(Undefined)
  }

  /** Indexing by a number is indexing by its numeral. */
  lemma IndexNumIsIndex(v: JsValue, n: nat)
    ensures IndexNum(v, n) == Index(v, NatToString(n))
  {
    CanonicalIndexOfNatToString(n);
    assert NatToString(n) != "length" by {
      assert AllDigits(NatToString(n));
      assert !IsDigit("length"[0]);
    }
  }

  /** `arr[n]` for a numeric index reaches exactly the n-th element, and past
      the end gives `undefined`. */
  lemma IndexArray(xs: seq<JsValue>, n: nat)
    ensures Index(Arr(xs), NatToString(n)) == Success(if n < |xs| then xs[n] else Undefined)
  {
    CanonicalIndexOfNatToString(n);
    assert NatToString(n) != "length" by {
      assert AllDigits(NatToString(n));
      assert !IsDigit("length"[0]);
    }
  }
}
