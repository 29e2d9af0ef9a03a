/** JavaScript values as the console's untyped (`any`) records hold them:
    the primitive kinds, truthiness, and plain objects as string-keyed maps. */
module Js {

  datatype Option<+T> = None | Some(value: T)

  /** The outcome of an awaited call: its value, or what it threw. */
  datatype Result<+T, +E> = Ok(value: T) | Err(error: E)

  /** A primitive JavaScript value. Numbers are integers here: every number
      the modelled code stores or compares is an id, a size or a count. */
  datatype JsValue =
    | Undefined
    | Null
    | Bool(b: bool)
    | Num(n: int)
    | Str(s: string)

  /** JavaScript truthiness (`!!v`, `.filter(Boolean)`, `if (v)`). */
  predicate Truthy(v: JsValue)
  {
    match v
    case Undefined => false
    case Null => false
    case Bool(b) => b
    case Num(n) => n != 0
    case Str(s) => s != ""
  }

  /** A plain object: its own enumerable properties. */
  type Obj = map<string, JsValue>

  /** Property read `o[k]`: a missing property reads as `undefined`. */
  function Get(o: Obj, k: string): (v: JsValue)
    ensures k !in o ==> v == Undefined
    ensures k in o ==> v == o[k]
  {
    if k in o then o[k] else Undefined
  }

  /** Object spread `{...a, ...b}`: every key of either, values of `b` win. */
  function Spread(a: Obj, b: Obj): (r: Obj)
    ensures r.Keys == a.Keys + b.Keys
    ensures forall k :: k in b ==> r[k] == b[k]
    ensures forall k :: k in a && k !in b ==> r[k] == a[k]
  {
    a + b
  }

  /** A string-or-null value (`localStorage.getItem`, a URL parameter) in a
      boolean position: null and "" are falsy. */
  predicate Present(s: Option<string>)
  {
    s.Some? && s.value != ""
  }
}
