/** JSON values as the remote photo service sends them, and the HTTP
    exchanges the card and the integration take part in.  A network
    response is an input value, so that every operation of the model is
    one deterministic step. */
module Json {

  datatype Option<+T> = None | Some(value: T)

  datatype Result<+T, +E> = Ok(value: T) | Err(error: E)

  /** A parsed JSON document.  Numbers are integers here: counts, sizes and
      ids are what the model needs from them. */
  datatype Json =
    | JNull
    | JBool(b: bool)
    | JNum(n: int)
    | JStr(s: string)
    | JArr(items: seq<Json>)
    | JObj(fields: map<string, Json>)

  /** What one HTTP call can come back with: the request failed
      (connection refused, timeout, ...), or a status with a body that
      either parses as JSON (`Some`) or does not (`None`, so that reading
      it as JSON raises). */
  datatype Response =
    | NetErr
    | Http(status: int, body: Option<Json>)

  /** One request sent to the photo service: the verb, the full URL, the
      value of the `x-api-key` header and the JSON body, if any. */
  datatype Request = Request(verb: string, url: string, apiKey: string, body: Option<map<string, Json>>)

  function Lookup(m: map<string, Json>, key: string): Option<Json>
  {
    if key in m then Some(m[key]) else None
  }

  predicate StartsWith(s: string, prefix: string)
  {
    |prefix| <= |s| && s[..|prefix|] == prefix
  }

  predicate EndsWith(s: string, suffix: string)
  {
    |suffix| <= |s| && s[|s| - |suffix|..] == suffix
  }

  /** The product of two non-negative numbers is not negative, stated once
      so that callers need no non-linear reasoning. */
  lemma MulNonNegative(a: int, b: int)
    requires a >= 0 && b >= 0
    ensures a * b >= 0
  {
  }
}
