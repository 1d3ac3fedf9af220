/**
  Untyped JSON values as `JSON.parse` produces them, with the JavaScript reading rules the
  core applies to them: truthiness, property reads (`undefined` when absent) and
  `typeof x === 'number'`.
*/
module JsonValue {
  import opened Options

  /** A parsed JSON value. Object members are a map, so member order is not modelled. */
  datatype Json =
    | Null
    | Bool(b: bool)
    | Num(n: real)
    | Str(s: string)
    | Arr(items: seq<Json>)
    | Obj(fields: map<string, Json>)

  /** JavaScript truthiness: `null`, `false`, `0` and `""` are falsy, everything else is
      truthy (arrays and objects included). */
  predicate Truthy(v: Json) {
    match v
    case Null => false
    case Bool(b) => b
    case Num(n) => n != 0.0
    case Str(s) => s != ""
    case Arr(_) => true
    case Obj(_) => true
  }

  /** Truthiness of a property read, where `None` is `undefined`. */
  predicate Present(o: Option<Json>) {
    o.Some? && Truthy(o.value)
  }

  /** `typeof x === 'number'` for a property read. */
  predicate IsNumber(o: Option<Json>) {
    o.Some? && o.value.Num?
  }

  /** `v[key]` on a value other than `null`: an object's member, or `undefined`. Arrays,
      strings, numbers and booleans carry none of the keys the core reads. */
  function Get(v: Json, key: string): (r: Option<Json>)
    ensures r.Some? <==> v.Obj? && key in v.fields
  {
    if v.Obj? && key in v.fields then Some(v.fields[key]) else None
  }

  /** `v[key] = value` on an object. */
  function Set(v: Json, key: string, value: Json): (r: Json)
    requires v.Obj?
    ensures r.Obj? && r.fields == v.fields[key := value]
  {
    Obj(v.fields[key := value])
  }

  /** An object with no members, `{}`. */
  const EmptyObject: Json := Obj(map[])
}
