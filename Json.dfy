/**
 * A decoded JSON value, as the watchers receive it once a log line or a
 * session file has been parsed, together with the handful of accessors of
 * the JSON library that the watchers use (`get`, `as_str`, `as_bool`,
 * `as_array`, `as_i64`). Parsing text into a `Json` is not part of this
 * model; where the watchers parse, they receive the parser as a parameter.
 */
module Json {
  import opened Base

  /** A JSON number: an integer literal, or any other number (fraction or exponent). */
  datatype Number = Int(v: int) | Float(literal: string)

  datatype Json =
    | Null
    | Bool(b: bool)
    | Num(n: Number)
    | Str(s: string)
    | Arr(items: seq<Json>)
    | Obj(fields: map<string, Json>)

  const I64Min: int := -0x8000_0000_0000_0000
  const I64Max: int := 0x7fff_ffff_ffff_ffff

  predicate InI64(v: int) {
    I64Min <= v <= I64Max
  }

  /** `value.get(key)`: a member of an object; nothing for any other value. */
  function Get(v: Json, key: string): (r: Option<Json>)
    ensures r.Some? <==> v.Obj? && key in v.fields
    ensures r.Some? ==> r.value < v
  {
    if v.Obj? && key in v.fields then Some(v.fields[key]) else None
  }

  /** `as_str` applied through an optional value. */
  function AsStr(o: Option<Json>): Option<string> {
    if o.Some? && o.value.Str? then Some(o.value.s) else None
  }

  /** `as_bool` applied through an optional value. */
  function AsBool(o: Option<Json>): Option<bool> {
    if o.Some? && o.value.Bool? then Some(o.value.b) else None
  }

  /** `as_array` applied through an optional value. */
  function AsArray(o: Option<Json>): Option<seq<Json>> {
    if o.Some? && o.value.Arr? then Some(o.value.items) else None
  }

  /** `get(key).and_then(as_str)`. */
  function StrField(v: Json, key: string): Option<string> {
    AsStr(Get(v, key))
  }

  /** `as_i64`: integers that fit in 64 signed bits; nothing otherwise. */
  function AsI64(v: Json): (r: Option<int>)
    ensures r.Some? ==> InI64(r.value)
    ensures r.Some? <==> v.Num? && v.n.Int? && InI64(v.n.v)
  {
    if v.Num? && v.n.Int? && InI64(v.n.v) then Some(v.n.v) else None
  }
}
