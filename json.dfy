/** JSON values as the handlers see them after `JSON.parse`, and the
    JavaScript notions of truthiness, `typeof x === 'boolean'` and
    `Array.isArray` that the handlers test them with. */
module Json {

  datatype Option<+T> = None | Some(value: T)

  /** A parsed JSON value. Objects are maps from keys to values; the key
      order of a JavaScript object is not modelled. */
  datatype JsonValue =
    | JNull
    | JBool(b: bool)
    | JNumber(n: real)
    | JString(s: string)
    | JArray(items: seq<JsonValue>)
    | JObject(fields: map<string, JsonValue>)

  /** Property read `o.key`: `None` stands for `undefined`. */
  function Get(o: map<string, JsonValue>, key: string): Option<JsonValue>
  {
    if key in o then Some(o[key]) else None
  }

  /** JavaScript truthiness of a value that may be `undefined` (`None`).
      `JSON.parse` never yields `NaN`, so a number is falsy exactly when it is zero. */
  predicate Truthy(v: Option<JsonValue>)
  {
    match v
    case None => false
    case Some(JNull) => false
    case Some(JBool(b)) => b
    case Some(JNumber(n)) => n != 0.0
    case Some(JString(s)) => s != ""
    case Some(JArray(_)) => true
    case Some(JObject(_)) => true
  }

  /** `typeof v === 'boolean'` */
  predicate IsBoolean(v: Option<JsonValue>)
  {
    v.Some? && v.value.JBool?
  }

  /** `Array.isArray(v)` */
  predicate IsArray(v: Option<JsonValue>)
  {
    v.Some? && v.value.JArray?
  }

  /** Truthiness of a JavaScript string that may be `null` (`None`). */
  predicate TruthyString(s: Option<string>)
  {
    s.Some? && s.value != ""
  }
}
