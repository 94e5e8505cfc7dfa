/**
 * The values `JSON.parse` can produce, and the two JavaScript operations the
 * normaliser applies to them: property reads and truthiness tests.
 * Numbers are integers; floating point is not modelled.
 */
module Json {
  import opened Wrappers

  datatype Json =
    | Null
    | Bool(b: bool)
    | Num(n: int)
    | Str(s: string)
    | Arr(items: seq<Json>)
    | Obj(fields: map<string, Json>)

  /** JavaScript truthiness of a parsed value. */
  predicate Truthy(v: Json) {
    match v
    case Null => false
    case Bool(b) => b
    case Num(n) => n != 0
    case Str(s) => s != ""
    case Arr(_) => true
    case Obj(_) => true
  }

  /** Truthiness of a property read, where `None` is `undefined`. */
  predicate Present(v: Option<Json>) {
    v.Some? && Truthy(v.value)
  }

  /**
   * `v[key]` for the schema's keys: an object yields its own field or
   * `undefined`; a boolean, number, string or array has no such property.
   * Reading a property of `null` throws, so callers rule that case out first.
   */
  function Prop(v: Json, key: string): (r: Option<Json>)
    requires !v.Null?
    ensures r.Some? <==> v.Obj? && key in v.fields
    ensures r.Some? ==> r.value == v.fields[key]
  {
    match v
    case Obj(m) => if key in m then Some(m[key]) else None
    case _ => None
  }

  /** `Array.isArray` of a property read. */
  predicate IsArray(v: Option<Json>) {
    v.Some? && v.value.Arr?
  }
}
