/** The values that cross the HTTP boundary: decoded JSON bodies and status codes. */
module Http {

  /** A decoded JSON document. Numbers are whole numbers in this model. */
  datatype Json =
    | JNull
    | JBool(b: bool)
    | JNumber(n: int)
    | JString(s: string)
    | JArray(items: seq<Json>)
    | JObject(members: map<string, Json>)

  /** The statuses for which `raise_for_status` raises: client errors (4xx) and server errors (5xx). */
  predicate RaisesForStatus(status: int)
  {
    400 <= status < 600
  }
}
