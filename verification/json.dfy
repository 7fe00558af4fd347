/** JSON values as the dashboard's JavaScript sees them after `JSON.parse`,
    and the JavaScript truthiness rules the dashboard code relies on. The
    JSON text codec itself is a parameter. */
module JsonValues {
  import opened Wrappers

  datatype Json =
    | JNull
    | JBool(b: bool)
    | JNumber(n: real)
    | JString(s: string)
    | JArray(items: seq<Json>)
    | JObject(fields: map<string, Json>)

  /** `JSON.parse` (None when it throws) and `JSON.stringify`. */
  datatype JsonCodec = JsonCodec(parse: string -> Option<Json>, stringify: Json -> string)

  /** What the model assumes of the runtime's JSON: parsing a stringified
      value gives the value back, and the text is never empty. */
  ghost predicate Faithful(codec: JsonCodec) {
    forall v :: codec.stringify(v) != "" && codec.parse(codec.stringify(v)) == Some(v)
  }

  /** JavaScript truthiness of a present value (NaN is not modelled). */
  predicate Truthy(v: Json) {
    match v
    case JNull => false
    case JBool(b) => b
    case JNumber(n) => n != 0.0
    case JString(s) => s != ""
    case JArray(_) => true
    case JObject(_) => true
  }

  /** `obj?.name` on a possibly missing value: undefined unless the value is
      an object holding that key. */
  function Field(v: Option<Json>, name: string): Option<Json> {
    if v.Some? && v.value.JObject? && name in v.value.fields then Some(v.value.fields[name]) else None
  }

  /** `a ?? b`: `b` when `a` is undefined or null. */
  function Coalesce(a: Option<Json>, b: Option<Json>): (r: Option<Json>)
    ensures a.Some? && a.value != JNull ==> r == a
    ensures a.None? || a.value == JNull ==> r == b
  {
    if a.Some? && a.value != JNull then a else b
  }

  /** `a || b` on possibly undefined values. */
  function Or(a: Option<Json>, b: Option<Json>): (r: Option<Json>)
    ensures a.Some? && Truthy(a.value) ==> r == a
    ensures !(a.Some? && Truthy(a.value)) ==> r == b
  {
    if a.Some? && Truthy(a.value) then a else b
  }
}
