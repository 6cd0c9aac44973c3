/** JSON-like JavaScript values, as `deepMerge` sees them. */
module Json {
  import opened Wrappers

  /** A JavaScript value: a primitive, an array, a function or a plain
      object (its own enumerable properties). */
  datatype Value =
    | Null
    | Bool(b: bool)
    | Num(n: int)
    | Str(s: string)
    | Arr(elems: seq<Value>)
    | Func
    | Obj(fields: map<string, Value>)

  /** `v instanceof Object && !v.hasOwnProperty('length')`: a plain object
      without an own `length`. Arrays and functions have an own `length`;
      primitives and `null` are not instances of `Object`. */
  predicate Mergeable(v: Value) {
    v.Obj? && "length" !in v.fields
  }

  /** `m[k]`, `undefined` when absent. */
  function Get(m: map<string, Value>, k: string): Option<Value> {
    if k in m then Some(m[k]) else None
  }

  /** The properties `v || {}` contributes as a merge target: those of an
      object, none for anything else. */
  function FieldsOr(v: Option<Value>): map<string, Value> {
    if v.Some? && v.value.Obj? then v.value.fields else map[]
  }

  /** The value reached from `v` by following the property names `p`. */
  function At(v: Value, p: seq<string>): Option<Value>
    decreases |p|
  {
    if p == [] then Some(v)
    else if v.Obj? && p[0] in v.fields then At(v.fields[p[0]], p[1..])
    else None
  }
}
