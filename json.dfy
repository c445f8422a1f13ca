/**
 * JSON request values and the JavaScript conversions the handlers apply to
 * them: truthiness, `typeof`, and `Number(v)`. Turning a string into a
 * number (`Number("12.5")`) is left to a caller-supplied function, `None`
 * standing for `NaN`.
 */
module Json {
  import opened Wrappers

  /** A JSON value as a request body field holds it; arrays and objects keep only what JavaScript needs of them. */
  datatype Value =
    | JNull
    | JBool(b: bool)
    | JNum(n: real)
    | JStr(s: string)
    | JArray(asText: string)
    | JObject

  /** JavaScript truthiness of a field; an absent field is `undefined`, which is falsy. */
  predicate Truthy(v: Option<Value>)
  {
    v.Some? &&
    match v.value
    case JNull => false
    case JBool(b) => b
    case JNum(n) => n != 0.0
    case JStr(s) => s != ""
    case JArray(_) => true
    case JObject => true
  }

  /** The type name zod reports for a value it did not expect. */
  function TypeName(v: Value): string
  {
    match v
    case JNull => "null"
    case JBool(_) => "boolean"
    case JNum(_) => "number"
    case JStr(_) => "string"
    case JArray(_) => "array"
    case JObject => "object"
  }

  /**
   * `Number(v)`, `None` for `NaN`: `undefined` and plain objects are `NaN`,
   * `null` is 0, booleans are 0 or 1, and strings and arrays (through their
   * text) go through `parseNumber`.
   */
  function ToNumber(v: Option<Value>, parseNumber: string -> Option<real>): Option<real>
  {
    match v
    case None => None
    case Some(JNull) => Some(0.0)
    case Some(JBool(b)) => Some(if b then 1.0 else 0.0)
    case Some(JNum(n)) => Some(n)
    case Some(JStr(s)) => parseNumber(s)
    case Some(JArray(t)) => parseNumber(t)
    case Some(JObject) => None
  }
}
