/** Values that flow through the Agent Deck invocation router: JSON as Python's
    json module hands it over, the calls handed to the HTTP library and what
    comes back from them, and the exceptions the router raises. */
module Model {

  datatype Option<+T> = None | Some(value: T)

  datatype Result<+T, +E> = Ok(value: T) | Err(error: E)

  /** A decoded JSON value (numbers are integers only). */
  datatype Json =
    | JNull
    | JBool(b: bool)
    | JNum(n: int)
    | JStr(s: string)
    | JArr(items: seq<Json>)
    | JObj(fields: map<string, Json>)

  /** A Python dict decoded from a JSON object. */
  type Dict = map<string, Json>

  /** Python's truth value of a decoded JSON value, as `if x` and `x or y` use it. */
  predicate Truthy(j: Json) {
    match j
    case JNull => false
    case JBool(b) => b
    case JNum(n) => n != 0
    case JStr(s) => s != ""
    case JArr(items) => items != []
    case JObj(fields) => fields != map[]
  }

  /** `d.get(key, default)` */
  function Get(d: Dict, key: string, default: Json): Json {
    if key in d then d[key] else default
  }

  /** The URL an f-string builds: `str(base)` followed by `suffix`. */
  datatype Url = Url(base: Json, suffix: string)

  /** A header value as the router builds it. */
  datatype HeaderValue =
    | Text(s: string)        // a literal string
    | Bearer(key: Json)      // f'Bearer {key}'
    | Custom(value: Json)    // copied from the service's own `headers` entry

  type Headers = map<string, HeaderValue>

  datatype Verb = GET | POST

  /** One call handed to the HTTP library. `json` is the `json=` argument;
      JNull stands for Python's None, which is also what a GET passes. */
  datatype Request = Request(verb: Verb, url: Url, headers: Headers, json: Json)

  /** What the HTTP library reports for one call. */
  datatype Outcome =
    | Unreachable(reason: string)   // connection error, timeout, malformed URL, ...
    | Response(status: int, contentType: string, text: string)

  /** The remote side: the outcome of the n-th call made during one invocation.
      Indexing by position lets the world change between two calls. */
  type Network = (nat, Request) -> Outcome

  /** `json.loads`, left uninterpreted: None when the text is not JSON. */
  type Parser = string -> Option<Json>

  /** The `requests.exceptions.RequestException` a call can raise. */
  datatype Fault =
    | ConnectionFailed(reason: string)
    | HttpError(status: int)          // raised by raise_for_status
    | BodyNotJson                     // raised by response.json()

  /** `raise_for_status` raises for the 4xx and 5xx status codes. */
  predicate IsHttpError(status: int) {
    400 <= status < 600
  }

  /** `response.raise_for_status(); response.json()` */
  function Received(o: Outcome, parse: Parser): Result<Json, Fault> {
    match o
    case Unreachable(reason) => Err(ConnectionFailed(reason))
    case Response(status, _, text) =>
      if IsHttpError(status) then Err(HttpError(status))
      else match parse(text)
        case None => Err(BodyNotJson)
        case Some(j) => Ok(j)
  }

  /** The exceptions that leave the router, one constructor per message. */
  datatype Error =
    | ServiceNotFound                    // 'Service not found in active deck'
    | InvalidArguments                   // 'Invalid JSON in arguments'
    | MissingKey(key: string)            // KeyError on d[key]
    | WrongShape                         // TypeError or AttributeError on a value of the wrong JSON type
    | Transport(fault: Fault)            // a RequestException left unwrapped
    | McpRemoteError(error: Json)        // 'MCP service returned error: ...'
    | McpFailed(cause: Error)            // 'Failed to call MCP service: ...'
    | AgentCardUnavailable(fault: Fault) // 'Failed to fetch agent card from ...'
    | NoCommunicationEndpoint(card: Dict)// 'Agent card does not specify a communication endpoint ...'
    | A2ARemoteError(error: Json)        // 'A2A agent returned error: ...'
    | A2AFailed(fault: Fault)            // 'Failed to call A2A service: ...', carrying the primary call's fault
    | BackendUnreachable(fault: Fault)   // 'Failed to communicate with backend: ...'
    | BackendApiError(message: Json)     // 'API Error: ...'

  /** The text a successful invocation returns: `json.dumps(v)` or `str(v)`. */
  datatype Output = Dumped(value: Json) | Stringified(value: Json)

  /** `json.dumps(v) if isinstance(v, dict) else str(v)` */
  function Render(v: Json): (o: Output)
    ensures o.value == v
    ensures o.Dumped? <==> v.JObj?
  {
    if v.JObj? then Dumped(v) else Stringified(v)
  }
}
