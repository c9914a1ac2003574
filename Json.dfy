/** JSON values as they reach the protocol validators and the automation script. */
module Json {
  import opened Wrappers

  /** A JSON value. Numbers are `real`, so there is no NaN and no infinity:
      JSON text cannot carry NaN, and the overflowing literals `JSON.parse`
      turns into an infinity are outside the model. */
  datatype Value =
    | JNull
    | JBool(b: bool)
    | JNumber(n: real)
    | JString(s: string)
    | JArray(items: seq<Value>)
    | JObject(fields: map<string, Value>)

  /** Property read `o[key]`; `None` is JavaScript's `undefined`. */
  function Get(o: map<string, Value>, key: string): (r: Option<Value>)
    ensures r.Some? <==> key in o
    ensures r.Some? ==> r.value == o[key]
  {
    if key in o then Some(o[key]) else None
  }

  /** JavaScript truthiness of a value (`undefined` is modelled by `None`
      and is falsy). */
  predicate Truthy(v: Value) {
    match v
    case JNull => false
    case JBool(b) => b
    case JNumber(n) => n != 0.0
    case JString(s) => s != ""
    case JArray(_) => true
    case JObject(_) => true
  }
}
