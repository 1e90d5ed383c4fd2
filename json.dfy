/** Values as the server sees them after JSON decoding, plus the two small
    wrapper types the rest of the model uses for absent values and failures. */
module Json {

  datatype Option<+T> = None | Some(value: T)

  datatype Result<+R, +E> = Ok(value: R) | Err(error: E)

  /** A decoded JSON document. Objects are Python dicts keyed by strings;
      floating-point numbers are not modelled. */
  datatype Value =
    | Null
    | Bool(b: bool)
    | Int(i: int)
    | Str(s: string)
    | Arr(items: seq<Value>)
    | Obj(fields: map<string, Value>)

  /** Python's truth value of a decoded JSON value (`if not v`). */
  predicate Truthy(v: Value) {
    match v
    case Null => false
    case Bool(b) => b
    case Int(i) => i != 0
    case Str(s) => s != ""
    case Arr(items) => items != []
    case Obj(fields) => fields != map[]
  }

  /** A Python dict key, up to Python's key equality: `True == 1` and
      `False == 0` with equal hashes, so a boolean and the matching integer
      are the same key. */
  datatype Key = KNone | KInt(n: int) | KStr(s: string)

  /** The dict key a value becomes, or None when the value is unhashable
      (a list or a dict, for which Python raises TypeError). */
  function KeyOf(v: Value): (k: Option<Key>)
    ensures k.None? <==> v.Arr? || v.Obj?
    ensures v.Str? ==> k == Some(KStr(v.s))
    ensures v.Bool? ==> k == Some(KInt(if v.b then 1 else 0))
  {
    match v
    case Null => Some(KNone)
    case Bool(b) => Some(KInt(if b then 1 else 0))
    case Int(i) => Some(KInt(i))
    case Str(s) => Some(KStr(s))
    case Arr(_) => None
    case Obj(_) => None
  }

  /** Whether Python can hash the value: lists and dicts cannot. */
  predicate Hashable(v: Value) {
    !v.Arr? && !v.Obj?
  }

  /** The number a value stands for under Python's `==`: `bool` is a
      subclass of `int`, so `True` is 1 and `False` is 0. */
  function Numeric(v: Value): Option<int> {
    match v
    case Bool(b) => Some(if b then 1 else 0)
    case Int(i) => Some(i)
    case _ => None
  }

  /** Python's `==` on hashable decoded values: `None` equals only itself,
      strings compare by content, numbers and booleans by value, and values
      of different kinds are unequal. */
  predicate PyEq(a: Value, b: Value) {
    || (a.Null? && b.Null?)
    || (a.Str? && b.Str? && a.s == b.s)
    || (Numeric(a).Some? && Numeric(a) == Numeric(b))
  }

  /** Two hashable values are the same dict key exactly when Python finds
      them equal; an unhashable value has no key. */
  lemma KeyOfMatchesPyEq(a: Value, b: Value)
    ensures KeyOf(a).None? <==> !Hashable(a)
    ensures Hashable(a) && Hashable(b) ==> (KeyOf(a) == KeyOf(b) <==> PyEq(a, b))
  {
  }
}
