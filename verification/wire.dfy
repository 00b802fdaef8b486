/**
 * Shapes shared by both clients and by the remote handler: JSON values as the
 * HTTP library hands them back, the replies of one HTTP call, and the outcomes
 * that stand in for the clients' `sys.exit(1)`.
 */
module Wire {

  datatype Option<+T> = None | Some(value: T)

  datatype Result<+T, +E> = Ok(value: T) | Err(error: E)

  /** A parsed JSON value. Numbers are integers here (floating point is not modelled). */
  datatype Value =
    | Str(s: string)
    | Int(n: int)
    | Bool(b: bool)
    | Null
    | Arr(items: seq<Value>)
    | Obj(fields: map<string, Value>)

  /** A JSON object, as a Python dict of parsed JSON. */
  type Object = map<string, Value>

  /** `d.get(key)`: the value stored under `key`, or Python's `None` when it is absent. */
  function Lookup(d: Object, key: string): Option<Value>
  {
    if key in d then Some(d[key]) else None
  }

  /**
   * What one `requests.post` / `requests.get` produced: either the call itself
   * raised (connection refused, name resolution, ...), or a reply arrived with a
   * status code and a body that parses as a JSON object.
   */
  datatype Reply =
    | ConnectionError
    | Response(code: int, body: Object)

  /** `raise_for_status()` raises for client errors (4xx) and server errors (5xx) only. */
  predicate RaisesForStatus(code: int)
  {
    400 <= code < 600
  }

  /**
   * The front half of each `try` block: the call, `raise_for_status()` and
   * `.json()`. `Ok(body)` when the body can be used; otherwise the exception,
   * carrying the HTTP status code when the exception has a response.
   */
  function Received(reply: Reply): (r: Result<Object, Option<int>>)
    ensures r == Err(None) <==> reply == ConnectionError
    ensures r.Ok? <==> reply.Response? && !RaisesForStatus(reply.code)
    ensures r.Ok? ==> r.value == reply.body
    ensures reply.Response? && RaisesForStatus(reply.code) ==> r == Err(Some(reply.code))
  {
    match reply
    case ConnectionError => Err(None)
    case Response(code, body) => if RaisesForStatus(code) then Err(Some(code)) else Ok(body)
  }

  /** Every way a client run ends with exit status 1. */
  datatype Failure =
    | PlaceholderApiKey
    | PlaceholderEndpointId
    | SubmissionError(code: Option<int>)
    | StatusQueryError(code: Option<int>)
    | JobFailed(body: Object)
    | TimedOut

  /** A client operation either hands back a value or exits with status 1 for the given reason. */
  datatype Outcome<+T> = Done(value: T) | Exit(failure: Failure)
}
