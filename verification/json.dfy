/**
 * A parsed JSON value, as `JSON.parse` and `request.json()` produce it, together with the two
 * JavaScript operations the routes perform on such values: truthiness tests (`!x`, `x || d`)
 * and property access (`x.f`, `x?.f`).
 */
module Json {
  import opened Wrappers

  /** JSON numbers are modelled as integers; fractional numbers are not part of this model. */
  datatype Json =
    | JNull
    | JBool(b: bool)
    | JNumber(n: int)
    | JString(s: string)
    | JArray(items: seq<Json>)
    | JObject(fields: map<string, Json>)

  /** JavaScript truthiness of a JSON value: null, false, 0 and "" are falsy; arrays and objects are truthy. */
  predicate Truthy(v: Json) {
    match v
    case JNull => false
    case JBool(b) => b
    case JNumber(n) => n != 0
    case JString(s) => s != ""
    case JArray(_) => true
    case JObject(_) => true
  }

  /** Truthiness of a possibly-undefined value; `undefined` (None) is falsy. */
  predicate Present(v: Option<Json>) {
    v.Some? && Truthy(v.value)
  }

  /** The JavaScript `x || d`: the value itself when truthy, the default otherwise. */
  function OrElse(v: Option<Json>, default: Json): (r: Json)
    ensures Present(v) ==> r == v.value
    ensures !Present(v) ==> r == default
  {
    if Present(v) then v.value else default
  }

  /** An own property of a JSON object; undefined (None) when the key is absent. */
  function Field(fields: map<string, Json>, key: string): (r: Option<Json>)
    ensures r.Some? <==> key in fields
    ensures r.Some? ==> r.value == fields[key]
  {
    if key in fields then Some(fields[key]) else None
  }

  /**
   * Optional-chaining access `v?.key` on a possibly-undefined value: undefined for undefined
   * and null, the own property for objects, undefined for every other primitive or array
   * (none of the keys read by the application are array indices).
   */
  function OptionalMember(v: Option<Json>, key: string): (r: Option<Json>)
    ensures r.Some? ==> v.Some? && v.value.JObject? && key in v.value.fields
  {
    match v
    case Some(JObject(fields)) => Field(fields, key)
    case _ => None
  }
}
