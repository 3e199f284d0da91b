/** The JSON payloads the character API returns, and the outcome of one fetch. */
module Json {
  import opened Wrappers

  /** A payload field: JSON null (Python `None`), a string, or a list of
      resource URLs. */
  datatype Value = Null | Text(text: string) | Links(urls: seq<string>)

  /** A JSON object, as Python sees it after `response.json()`. */
  type Object = map<string, Value>

  /** Python truthiness of a field value: `None`, `""` and `[]` are false. */
  predicate Truthy(v: Value) {
    match v
    case Null => false
    case Text(s) => s != []
    case Links(us) => us != []
  }

  /** `o.get(key, default)` */
  function Get(o: Object, key: string, default: Value): Value {
    if key in o then o[key] else default
  }

  /** What one fetch leaves in a gathered result list: `None` (timeout,
      client error, JSON null body), an exception the fetcher did not catch
      (captured by `asyncio.gather(..., return_exceptions=True)`), or a
      decoded JSON object. */
  datatype Fetched = Missing | Raised(exc: Exception) | Payload(data: Object)

  /** Python truthiness of a gathered result: a missing result and an empty
      object are false, a captured exception is true. */
  predicate FetchedTruthy(f: Fetched) {
    match f
    case Missing => false
    case Raised(_) => true
    case Payload(o) => o != map[]
  }
}
