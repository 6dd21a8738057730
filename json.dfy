/** The JSON payload carried by a record (`serde_json::Value`). */
module Json {
  import opened Wrappers

  /** JSON numbers are modelled as exact reals; `as_f64` is then the identity. */
  datatype Value =
    | Null
    | Bool(b: bool)
    | Num(n: real)
    | Str(s: string)
    | Arr(items: seq<Value>)
    | Obj(fields: map<string, Value>)

  /** `Value::get(&str)`: an object's member, or nothing for every other kind of value. */
  function Get(v: Value, field: string): (r: Option<Value>)
    ensures r.Some? <==> v.Obj? && field in v.fields
    ensures r.Some? ==> r.value == v.fields[field]
  {
    if v.Obj? && field in v.fields then Some(v.fields[field]) else None
  }
}
