/** Python values as the YAML/JSON configuration files and request bodies
    carry them, with the few Python operations on them that the services use:
    `dict.get`, truthiness (`if x:`, `x or y`) and `==`. */
module Values {

  datatype Option<T> = None | Some(value: T)

  /** A `(success, data)` / `(False, message)` tuple of the services, with the
      error side kept structured. */
  datatype Result<T, E> = Ok(value: T) | Err(error: E)

  /** A YAML/JSON value other than a float. Mappings are keyed by strings;
      the insertion order of their keys is not part of the model. */
  datatype Value =
    | VNull
    | VBool(b: bool)
    | VInt(i: int)
    | VStr(s: string)
    | VList(items: seq<Value>)
    | VDict(fields: map<string, Value>)

  type Dict = map<string, Value>

  /** `d.get(key, default)` */
  function Get(d: Dict, key: string, default: Value): Value
  {
    if key in d then d[key] else default
  }

  /** Python truthiness: `None`, `False`, `0`, `''`, `[]` and `{}` are false. */
  predicate Truthy(v: Value)
  {
    match v
    case VNull => false
    case VBool(b) => b
    case VInt(i) => i != 0
    case VStr(s) => s != ""
    case VList(xs) => xs != []
    case VDict(m) => m != map[]
  }

  /** `x or y` on two values. */
  function Or(x: Value, y: Value): Value
  {
    if Truthy(x) then x else y
  }

  /** Python booleans are integers: `True == 1`, `True + 1 == 2`. */
  predicate IsNumber(v: Value)
  {
    v.VBool? || v.VInt?
  }

  function NumberOf(v: Value): int
    requires IsNumber(v)
  {
    if v.VBool? then (if v.b then 1 else 0) else v.i
  }

  /** Python `==` on values: booleans compare equal to the integers 0 and 1,
      containers compare element by element. */
  predicate PyEq(a: Value, b: Value)
  {
    if IsNumber(a) && IsNumber(b) then NumberOf(a) == NumberOf(b)
    else match a
      case VList(xs) =>
        b.VList? && |xs| == |b.items| &&
        forall i :: 0 <= i < |xs| ==> PyEq(xs[i], b.items[i])
      case VDict(m) =>
        b.VDict? && m.Keys == b.fields.Keys &&
        forall k :: k in m ==> PyEq(m[k], b.fields[k])
      case _ => a == b
  }

  /** Comparing a value with a Python string is plain equality. */
  lemma PyEqString(v: Value, s: string)
    ensures PyEq(v, VStr(s)) <==> v == VStr(s)
    ensures PyEq(VStr(s), v) <==> v == VStr(s)
  {
  }

  /** Every value equals itself under Python `==`. */
  lemma PyEqReflexive(v: Value)
    ensures PyEq(v, v)
    decreases v
  {
    match v
    case VList(xs) =>
      forall i | 0 <= i < |xs|
        ensures PyEq(xs[i], xs[i])
      {
        PyEqReflexive(xs[i]);
      }
    case VDict(m) =>
      forall k | k in m
        ensures PyEq(m[k], m[k])
      {
        PyEqReflexive(m[k]);
      }
    case _ =>
  }
}
