/**
 * JSON request bodies as the route handlers see them after `request.json()`,
 * together with the two pieces of JavaScript semantics the handlers rely on:
 * property access on a parsed value and truthiness (`!x`).
 */
module Json {

  datatype Option<+T> = None | Some(value: T)

  /** A parsed JSON value. JSON numbers are modelled as exact reals. */
  datatype Value =
    | JNull
    | JBool(b: bool)
    | JNumber(n: real)
    | JString(s: string)
    | JArray(items: seq<Value>)
    | JObject(fields: map<string, Value>)

  /** The outcome of `await request.json()`: a parse failure throws. */
  datatype Body = Malformed | Parsed(value: Value)

  /**
   * Reading property `key` of a parsed value. Only objects carry the keys
   * used by the handlers; on every other value the property is `undefined`
   * (None). Reading a property of `null` throws; callers check that first.
   */
  function Field(v: Value, key: string): (r: Option<Value>)
    ensures r.Some? <==> v.JObject? && key in v.fields
    ensures r.Some? ==> r.value == v.fields[key]
  {
    if v.JObject? && key in v.fields then Some(v.fields[key]) else None
  }

  /** JavaScript truthiness of a property value; `undefined` is None. */
  predicate Truthy(o: Option<Value>)
    ensures Truthy(o) ==> o.Some? && !o.value.JNull?
  {
    match o
    case None => false
    case Some(v) =>
      match v
      case JNull => false
      case JBool(b) => b
      case JNumber(n) => n != 0.0
      case JString(s) => s != ""
      case JArray(_) => true
      case JObject(_) => true
  }

  /** `const { a, b } = body` throws exactly when the body is malformed or null. */
  predicate Destructurable(body: Body) {
    body.Parsed? && !body.value.JNull?
  }
}
