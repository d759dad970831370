/** Optional values and results of operations that can throw, shared by the whole model. */
module Wrappers {

  /** A value that may be absent: JavaScript's `null`/`undefined` stand for `None`. */
  datatype Option<+T> = None | Some(value: T)

  /** The outcome of an operation that can throw. */
  datatype Result<+R, +E> = Success(value: R) | Failure(error: E)

  /** Looks a key up in a map, `None` when it is absent. */
  function Lookup<K, V>(m: map<K, V>, k: K): Option<V>
  {
    if k in m then Some(m[k]) else None
  }
}

/** The few JavaScript values the node passes around, and JavaScript truthiness. */
module Js {

  /** A JSON-like JavaScript value; `Undefined` is a missing property. */
  datatype JsValue =
    | Undefined
    | Null
    | Bool(b: bool)
    | Num(n: real)
    | Str(s: string)
    | Arr(items: seq<JsValue>)
    | Obj(fields: map<string, JsValue>)

  /** `!!v` in JavaScript (NaN is not modelled: numbers are reals). */
  predicate Truthy(v: JsValue)
  {
    match v
    case Undefined => false
    case Null => false
    case Bool(b) => b
    case Num(n) => n != 0.0
    case Str(s) => s != ""
    case Arr(_) => true
    case Obj(_) => true
  }

  /** Reads property `key` of an object; any other value, or a missing key, gives `undefined`. */
  function Get(v: JsValue, key: string): JsValue
  {
    if v.Obj? && key in v.fields then v.fields[key] else Undefined
  }
}
