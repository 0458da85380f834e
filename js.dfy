/** The part of JavaScript's value model that the server's envelopes and the
    client's decoder rely on: JSON-like values plus `undefined`, truthiness,
    nullishness and property access with optional chaining. */
module Js {

  datatype Option<T> = None | Some(value: T)

  /** A JavaScript value as it crosses the wire or reaches the client.
      Numbers are integers here; arrays are objects without named keys. */
  datatype Value =
    | Undefined
    | Null
    | Bool(b: bool)
    | Num(n: int)
    | Str(s: string)
    | Arr(items: seq<Value>)
    | Obj(fields: map<string, Value>)

  /** `!!v` */
  predicate Truthy(v: Value) {
    match v
    case Undefined => false
    case Null => false
    case Bool(b) => b
    case Num(n) => n != 0
    case Str(s) => s != ""
    case Arr(_) => true
    case Obj(_) => true
  }

  /** `v === null || v === undefined` */
  predicate Nullish(v: Value) {
    v.Undefined? || v.Null?
  }

  /** `typeof v === "object"` */
  predicate IsObjectType(v: Value) {
    v.Null? || v.Arr? || v.Obj?
  }

  /** `key in v`, for a value of object type other than null. */
  predicate Has(v: Value, key: string) {
    v.Obj? && key in v.fields
  }

  /** `v?.[key]`: reading a key that is not there, or reading from anything
      but an object, yields `undefined`. */
  function Get(v: Value, key: string): Value {
    if v.Obj? && key in v.fields then v.fields[key] else Undefined
  }

  /** `a || b` */
  function Or(a: Value, b: Value): Value {
    if Truthy(a) then a else b
  }

  /** `a ?? b` */
  function Coalesce(a: Value, b: Value): Value {
    if Nullish(a) then b else a
  }

  /** A request field that may be absent is falsy when it is absent or empty. */
  predicate Filled(s: Option<string>) {
    s.Some? && s.value != ""
  }
}
