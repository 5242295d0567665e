/**
  * Untyped JavaScript values as the admin content forms handle them: page props and
  * their `content` objects are dictionaries from field names to values, read with
  * property access and optional chaining, defaulted with `??` and `||`, and rebuilt
  * with object spread.
  */
module Js {

  datatype Value =
    | Undefined
    | Null
    | Bool(b: bool)
    | Num(n: int)
    | Str(s: string)
    | Obj(fields: map<string, Value>)

  /** A plain object: its own enumerable properties. */
  type Object = map<string, Value>

  /** The values `??` replaces. */
  predicate Nullish(v: Value) {
    v.Undefined? || v.Null?
  }

  /** The values `||` keeps. */
  predicate Truthy(v: Value) {
    match v
    case Undefined => false
    case Null => false
    case Bool(b) => b
    case Num(n) => n != 0
    case Str(s) => s != ""
    case Obj(_) => true
  }

  /** `a ?? b` */
  function Coalesce(a: Value, b: Value): Value {
    if Nullish(a) then b else a
  }

  /** `a || b` */
  function Or(a: Value, b: Value): Value {
    if Truthy(a) then a else b
  }

  /** `o.k`: a missing property reads as `undefined`. */
  function Get(o: Object, k: string): Value {
    if k in o then o[k] else Undefined
  }

  /** `v?.k`: `undefined` unless `v` is an object. */
  function Member(v: Value, k: string): Value {
    if v.Obj? then Get(v.fields, k) else Undefined
  }

  /** The properties of an object value; any other value has none of its own. */
  function ObjectOf(v: Value): Object {
    if v.Obj? then v.fields else map[]
  }

  /** `{ ...o, k1: v1, ..., kn: vn }`: every key of `o`, then the listed keys, the later one winning. */
  function Spread(o: Object, listed: Object): Object {
    o + listed
  }

  /** `??` keeps every non-nullish value, `||` only the truthy ones: they part on `false`, `0` and `""`. */
  lemma CoalesceKeepsFalsy(a: Value, b: Value)
    requires !Nullish(a) && !Truthy(a)
    ensures Coalesce(a, b) == a
    ensures Or(a, b) == b
  {
  }

  /** A spread keeps every key of the object that the literal does not list, and takes the listed ones. */
  lemma SpreadKeys(o: Object, listed: Object)
    ensures Spread(o, listed).Keys == o.Keys + listed.Keys
    ensures forall k | k in listed :: Spread(o, listed)[k] == listed[k]
    ensures forall k | k in o && k !in listed :: Spread(o, listed)[k] == o[k]
  {
  }
}
