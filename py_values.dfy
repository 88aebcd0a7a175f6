/** The few pieces of Python's run-time behaviour the model needs: optional values,
    the exceptions the modelled code raises or catches, and the untyped values that
    travel in configuration dictionaries. */
module PyValues {

  datatype Option<+T> = None | Some(value: T)

  /** The Python exceptions that the modelled code raises, catches or lets escape. */
  datatype PyError =
    | TypeError
    | ValueError
    | KeyError
    | IndexError
    | AttributeError
    | ZeroDivisionError

  /** The result of a Python call: a returned value, or an exception that escapes it. */
  datatype Outcome<+T> = Ok(value: T) | Raised(error: PyError) {
    predicate IsFailure() { Raised? }
    function PropagateFailure<U>(): Outcome<U>
      requires Raised?
    {
      Raised(error)
    }
    function Extract(): T
      requires Ok?
    {
      value
    }
  }

  /** A value held in a configuration dictionary (a form's input, a stored record, a default). */
  datatype Value =
    | VNone
    | VBool(b: bool)
    | VInt(i: int)
    | VStr(s: string)
    | VList(items: seq<Value>)

  /** Python's truth test `bool(v)`. */
  predicate Truthy(v: Value) {
    match v
    case VNone => false
    case VBool(b) => b
    case VInt(i) => i != 0
    case VStr(s) => s != ""
    case VList(items) => items != []
  }

  /** A number as Python compares it: `True == 1` and `False == 0`. */
  function NumericValue(v: Value): Option<int> {
    match v
    case VBool(b) => Some(if b then 1 else 0)
    case VInt(i) => Some(i)
    case _ => None
  }

  /** Python's `==` on these values (booleans compare equal to the integers 1 and 0). */
  predicate PyEq(a: Value, b: Value)
    decreases a
  {
    if NumericValue(a).Some? || NumericValue(b).Some? then NumericValue(a) == NumericValue(b)
    else match a
      case VNone => b.VNone?
      case VStr(s) => b.VStr? && b.s == s
      case VList(xs) =>
        b.VList? && |xs| == |b.items| && forall k :: 0 <= k < |xs| ==> PyEq(xs[k], b.items[k])
      case _ => false
  }

  /** Python's `x in container` for a list container (`==` on each element). */
  predicate ListContains(items: seq<Value>, x: Value) {
    exists k :: 0 <= k < |items| && PyEq(items[k], x)
  }

  /** `len(v)`: strings and lists have a length; anything else raises TypeError. */
  function Len(v: Value): (r: Outcome<int>)
    ensures r.Ok? <==> v.VStr? || v.VList?
    ensures r.Ok? ==> r.value == (if v.VStr? then |v.s| else |v.items|)
  {
    match v
    case VStr(s) => Ok(|s|)
    case VList(items) => Ok(|items|)
    case _ => Raised(TypeError)
  }

  /** `d[k]`: KeyError when the key is missing. */
  function Lookup<K, V>(d: map<K, V>, k: K): (r: Outcome<V>)
    ensures r.Ok? <==> k in d
    ensures r.Ok? ==> r.value == d[k]
    ensures r.Raised? ==> r.error == KeyError
  {
    if k in d then Ok(d[k]) else Raised(KeyError)
  }
}
