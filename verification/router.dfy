/** `_call_service_internal`: find the service in the active deck, decode the
    arguments, and call the tool either directly over JSON-RPC (type 'mcp')
    or through the A2A agent protocol (every other type), with the REST
    fallback chain after a transport failure of the A2A call.

    Each invocation is described by the result and by `sent`, the calls handed
    to the HTTP library in order. The n-th call's outcome is `net(n, call)`. */
module Router {
  import opened Model
  import opened Scans
  import opened Backend

  datatype Invocation = Invocation(result: Result<Output, Error>, sent: seq<Request>)

  // ---------------------------------------------------------------- lookup

  /** The test of the lookup loop: `s["service_id"] == service_id`. */
  function ServiceTest(serviceId: string): Dict -> Result<bool, Error> {
    (s: Dict) =>
      if "service_id" in s then Ok(s["service_id"] == JStr(serviceId)) else Err(MissingKey("service_id"))
  }

  /** The service the invocation uses: the first entry of the active deck
      whose `service_id` is the requested id. */
  function ResolveService(deck: Json, serviceId: string): (r: Result<Dict, Error>)
    ensures DeckServices(deck).Err? ==> r == Err(DeckServices(deck).error)
    ensures DeckServices(deck).Ok? ==>
      var services := DeckServices(deck).value;
      && (r.Ok? || r == Err(ServiceNotFound))
      && (r == Err(ServiceNotFound) <==>
            forall i :: 0 <= i < |services| ==> services[i]["service_id"] != JStr(serviceId))
      && (r.Ok? ==>
            exists i :: 0 <= i < |services| && r.value == services[i] &&
              services[i]["service_id"] == JStr(serviceId) &&
              forall j :: 0 <= j < i ==> services[j]["service_id"] != JStr(serviceId))
  {
    match DeckServices(deck)
    case Err(e) => Err(e)
    case Ok(services) =>
      match FirstHit(services, ServiceTest(serviceId))
      case Err(e) => Err(e)
      case Ok(None) => Err(ServiceNotFound)
      case Ok(Some(i)) => Ok(services[i])
  }

  // ------------------------------------------------------------- arguments

  /** `json.loads(arguments) if arguments else {}`; a decoding error becomes
      'Invalid JSON in arguments'. */
  function ParseArguments(arguments: string, parse: Parser): (r: Result<Json, Error>)
    ensures arguments == "" ==> r == Ok(JObj(map[]))
    ensures arguments != "" ==> (r.Ok? <==> parse(arguments).Some?)
    ensures arguments != "" && r.Ok? ==> r.value == parse(arguments).value
    ensures r.Err? ==> r.error == InvalidArguments
  {
    if arguments == "" then Ok(JObj(map[]))
    else match parse(arguments)
      case None => Err(InvalidArguments)
      case Some(kwargs) => Ok(kwargs)
  }

  // ------------------------------------------------------- requests built

  /** The JSON-RPC 2.0 request object (section 4 of the JSON-RPC 2.0
      Specification) both protocols send, with the constant id 1. */
  function Envelope(tool: string, params: Json): Json {
    JObj(map["jsonrpc" := JStr("2.0"), "id" := JNum(1), "method" := JStr(tool), "params" := params])
  }

  /** `requests.get(url, timeout=...)`: no headers, no body. */
  function FetchRequest(url: Json): Request {
    Request(GET, Url(url, ""), map[], JNull)
  }

  /** `requests.post(url, headers=headers, json=<envelope>)` */
  function RpcRequest(url: Json, headers: Headers, tool: string, kwargs: Json): Request {
    Request(POST, Url(url, ""), headers, Envelope(tool, kwargs))
  }

  /** `requests.post(url=endpoint, headers=headers, json=kwargs)` */
  function RestRequest(url: Url, headers: Headers, kwargs: Json): Request {
    Request(POST, url, headers, kwargs)
  }

  /** `{'Content-Type': 'application/json', **(custom_headers or {})}`: a falsy
      `headers` entry adds nothing, a dict overlays its entries (winning over
      Content-Type), anything else cannot be unpacked. */
  function McpHeaders(custom: Json): (r: Result<Headers, Error>)
    ensures r.Ok? <==> !Truthy(custom) || custom.JObj?
    ensures r.Err? ==> r.error == WrongShape
    ensures r.Ok? ==> r.value.Keys == {"Content-Type"} + (if custom.JObj? then custom.fields.Keys else {})
    ensures r.Ok? && custom.JObj? ==> forall k :: k in custom.fields ==> r.value[k] == Custom(custom.fields[k])
    ensures r.Ok? && !(custom.JObj? && "Content-Type" in custom.fields) ==>
      r.value["Content-Type"] == Text("application/json")
  {
    if !Truthy(custom) then Ok(map["Content-Type" := Text("application/json")])
    else match custom
      case JObj(h) => Ok(map["Content-Type" := Text("application/json")] + map k | k in h :: Custom(h[k]))
      case _ => Err(WrongShape)
  }

  /** The A2A headers: Content-Type and an Authorization header that is always
      present, `Bearer <apiKey>` for a truthy key and the empty string otherwise. */
  function A2AHeaders(apiKey: Json): (h: Headers)
    ensures h.Keys == {"Content-Type", "Authorization"}
    ensures h["Content-Type"] == Text("application/json")
    ensures h["Authorization"].Bearer? <==> Truthy(apiKey)
    ensures h["Authorization"].Bearer? ==> h["Authorization"].key == apiKey
    ensures !Truthy(apiKey) ==> h["Authorization"] == Text("")
  {
    map["Content-Type" := Text("application/json"),
        "Authorization" := if Truthy(apiKey) then Bearer(apiKey) else Text("")]
  }

  // -------------------------------------------------------- JSON-RPC reply

  datatype RpcReply = RpcResult(value: Json) | RpcError(error: Json) | NotAnObject

  /** `if 'error' in r: raise ...(r["error"])` then `r.get('result', r)`
      (section 5 of the JSON-RPC 2.0 Specification). On anything but a dict
      one of these raises TypeError or AttributeError. */
  function ReadReply(reply: Json): RpcReply {
    match reply
    case JObj(m) =>
      if "error" in m then RpcError(m["error"]) else RpcResult(Get(m, "result", reply))
    case _ => NotAnObject
  }

  // ------------------------------------------------------ the direct path

  /** `call_mcp_service_async` once the call is made, with its exceptions
      wrapped twice ('Failed to call MCP service', lines 154 and 201). */
  function DirectAnswer(o: Outcome, parse: Parser): Result<Output, Error> {
    match Received(o, parse)
    case Err(f) => Err(McpFailed(McpFailed(Transport(f))))
    case Ok(reply) =>
      match ReadReply(reply)
      case RpcError(e) => Err(McpFailed(McpFailed(McpRemoteError(e))))
      case NotAnObject => Err(McpFailed(McpFailed(WrongShape)))
      case RpcResult(v) => Ok(Dumped(v))
  }

  /** The 'mcp' branch. Its log line reads `service['name']` before the call. */
  function CallDirect(service: Dict, tool: string, kwargs: Json, net: Network, parse: Parser): Invocation
    requires "url" in service
  {
    if "name" !in service then Invocation(Err(McpFailed(MissingKey("name"))), [])
    else match McpHeaders(Get(service, "headers", JObj(map[])))
      case Err(e) => Invocation(Err(McpFailed(McpFailed(e))), [])
      case Ok(headers) =>
        var request := RpcRequest(service["url"], headers, tool, kwargs);
        Invocation(DirectAnswer(net(0, request), parse), [request])
  }

  // --------------------------------------------------------- the A2A path

  /** `skill['name'].lower().replace(' ', '-')` (letters lowercased are A-Z). */
  function Slug(name: string): (r: string)
    ensures |r| == |name|
    ensures forall i :: 0 <= i < |r| ==> r[i] != ' ' && !('A' <= r[i] <= 'Z')
    ensures forall i :: 0 <= i < |r| && name[i] == ' ' ==> r[i] == '-'
    ensures forall i :: 0 <= i < |r| && 'A' <= name[i] <= 'Z' ==> r[i] as int == name[i] as int + 32
    ensures forall i :: 0 <= i < |r| && name[i] != ' ' && !('A' <= name[i] <= 'Z') ==> r[i] == name[i]
  {
    seq(|name|, i requires 0 <= i < |name| =>
      if name[i] == ' ' then '-'
      else if 'A' <= name[i] <= 'Z' then (name[i] as int + 32) as char
      else name[i])
  }

  /** An element of `skills` as the log line `[skill['id'] for skill in skills]`
      reads it. */
  function SkillEntry(skill: Json): Result<Dict, Error> {
    match skill
    case JObj(s) => if "id" in s then Ok(s) else Err(MissingKey("id"))
    case _ => Err(WrongShape)
  }

  /** The test of the skill loop: `skill['id'] == tool_name or
      skill['name'].lower().replace(' ', '-') == tool_name`; the name is read
      only when the id differs. */
  function SkillTest(tool: string): Dict -> Result<bool, Error> {
    (skill: Dict) =>
      if "id" !in skill then Err(MissingKey("id"))
      else if skill["id"] == JStr(tool) then Ok(true)
      else if "name" !in skill then Err(MissingKey("name"))
      else match skill["name"]
        case JStr(n) => Ok(Slug(n) == tool)
        case _ => Err(WrongShape)
  }

  /** Steps 4 and 5: list the skill ids, then find the first matching skill.
      The match itself is only logged. */
  function SkillMatch(skills: Json, tool: string): Result<Option<nat>, Error> {
    match SubscriptedItems(skills)
    case Err(e) => Err(e)
    case Ok(items) =>
      match Traverse(items, SkillEntry)
      case Err(e) => Err(e)
      case Ok(entries) => FirstHit(entries, SkillTest(tool))
  }

  /** The answer of a clean primary A2A call. Before returning, its log line
      reads `service['name']` (`named` says whether the service has one). */
  function AgentAnswer(reply: Json, named: bool): Result<Output, Error> {
    match ReadReply(reply)
    case RpcError(e) => Err(A2ARemoteError(e))
    case NotAnObject => Err(WrongShape)
    case RpcResult(v) => if named then Ok(Render(v)) else Err(MissingKey("name"))
  }

  /** The REST fallback endpoints, in the order they are tried. */
  function FallbackUrls(endpoint: Json, tool: string): seq<Url> {
    [Url(endpoint, "/analyze"), Url(endpoint, "/tool/process"), Url(endpoint, "/" + tool)]
  }

  predicate StartsWith(s: string, prefix: string) {
    prefix <= s
  }

  /** One REST fallback try: None when anything raised; otherwise the JSON
      body when the content type says JSON, else the raw text. The log line
      before the return reads `service['name']`, so without a name every try
      raises and counts as failed. */
  function RestAnswer(o: Outcome, parse: Parser, named: bool): Option<Output> {
    match o
    case Unreachable(_) => None
    case Response(status, contentType, text) =>
      if IsHttpError(status) then None
      else if StartsWith(contentType, "application/json") then
        match parse(text)
        case None => None
        case Some(body) => if named then Some(Render(body)) else None
      else if named then Some(Render(JStr(text))) else None
  }

  datatype FallbackRun = FallbackRun(answer: Option<Output>, sent: seq<Request>)

  /** What the j-th fallback try would answer, as the (step + j)-th call. */
  function TryAt(urls: seq<Url>, step: nat, headers: Headers, kwargs: Json, net: Network, parse: Parser, named: bool, j: nat): Option<Output>
    requires j < |urls|
  {
    RestAnswer(net(step + j, RestRequest(urls[j], headers, kwargs)), parse, named)
  }

  /** The REST fallback chain: the urls are tried in order, each with the raw
      arguments as body, and the first that answers ends the chain. */
  function Fallback(urls: seq<Url>, step: nat, headers: Headers, kwargs: Json, net: Network, parse: Parser, named: bool): FallbackRun
    decreases |urls|
  {
    if urls == [] then FallbackRun(None, [])
    else
      var request := RestRequest(urls[0], headers, kwargs);
      match RestAnswer(net(step, request), parse, named)
      case Some(out) => FallbackRun(Some(out), [request])
      case None =>
        var rest := Fallback(urls[1..], step + 1, headers, kwargs, net, parse, named);
        FallbackRun(rest.answer, [request] + rest.sent)
  }

  /** The chain POSTs the raw arguments to the urls strictly in order, and
      only sends no request at all past a try that answered. */
  lemma {:induction false} FallbackSendsInOrder(urls: seq<Url>, step: nat, headers: Headers, kwargs: Json, net: Network, parse: Parser, named: bool)
    ensures var run := Fallback(urls, step, headers, kwargs, net, parse, named);
      && |run.sent| <= |urls|
      && (forall j :: 0 <= j < |run.sent| ==> run.sent[j] == RestRequest(urls[j], headers, kwargs))
      && (run.answer.Some? ==> |run.sent| > 0)
      && (run.answer.None? ==> |run.sent| == |urls|)
    decreases |urls|
  {
    if urls != [] {
      FallbackSendsInOrder(urls[1..], step + 1, headers, kwargs, net, parse, named);
    }
  }

  /** Every try but the last failed; the chain stops at the first try that
      answers, whose answer it returns, and only runs out when every try
      failed. */
  lemma {:induction false} FallbackTriesInOrder(urls: seq<Url>, step: nat, headers: Headers, kwargs: Json, net: Network, parse: Parser, named: bool)
    ensures var run := Fallback(urls, step, headers, kwargs, net, parse, named);
      && |run.sent| <= |urls|
      && (forall j :: 0 <= j < |run.sent| - 1 ==> TryAt(urls, step, headers, kwargs, net, parse, named, j).None?)
      && (run.answer.Some? ==>
            |run.sent| > 0 && run.answer == TryAt(urls, step, headers, kwargs, net, parse, named, |run.sent| - 1))
      && (run.answer.None? ==>
            |run.sent| == |urls| && forall j :: 0 <= j < |urls| ==> TryAt(urls, step, headers, kwargs, net, parse, named, j).None?)
    decreases |urls|
  {
    if urls != [] && TryAt(urls, step, headers, kwargs, net, parse, named, 0).None? {
      FallbackTriesInOrder(urls[1..], step + 1, headers, kwargs, net, parse, named);
      forall j | 1 <= j < |urls|
        ensures TryAt(urls, step, headers, kwargs, net, parse, named, j) == TryAt(urls[1..], step + 1, headers, kwargs, net, parse, named, j - 1)
      {
        assert urls[1..][j - 1] == urls[j];
      }
    }
  }

  /** Step 6 onwards: the primary JSON-RPC call to the communication endpoint
      and, after a transport-level failure of it only, the REST fallback
      chain; when every fallback fails, the primary call's fault is raised.
      The calls are numbered from 2, after the card and the probe. */
  function PrimaryCall(endpoint: Json, headers: Headers, tool: string, kwargs: Json, net: Network, parse: Parser, named: bool): Invocation {
    var primary := RpcRequest(endpoint, headers, tool, kwargs);
    match Received(net(2, primary), parse)
    case Ok(reply) => Invocation(AgentAnswer(reply, named), [primary])
    case Err(fault) =>
      var run := Fallback(FallbackUrls(endpoint, tool), 3, headers, kwargs, net, parse, named);
      Invocation(if run.answer.Some? then Ok(run.answer.value) else Err(A2AFailed(fault)), [primary] + run.sent)
  }

  /** Steps 2 to 6 of the A2A branch, once the agent card is decoded: the
      endpoint check, the liveness probe (outcome ignored), the skill match
      (advisory) and the primary call. The calls listed follow the card fetch. */
  function AgentWithCard(agentCard: Dict, apiKey: Json, tool: string, kwargs: Json, net: Network, parse: Parser, named: bool): Invocation {
    var endpoint := Get(agentCard, "url", JNull);
    if !Truthy(endpoint) then Invocation(Err(NoCommunicationEndpoint(agentCard)), [])
    else
      var probe := FetchRequest(endpoint);
      match SkillMatch(Get(agentCard, "skills", JArr([])), tool)
      case Err(e) => Invocation(Err(e), [probe])
      case Ok(_) =>
        var rest := PrimaryCall(endpoint, A2AHeaders(apiKey), tool, kwargs, net, parse, named);
        Invocation(rest.result, [probe] + rest.sent)
  }

  /** The A2A branch: the agent card fetch (step 1), then the rest. */
  function CallAgent(url: Json, apiKey: Json, tool: string, kwargs: Json, net: Network, parse: Parser, named: bool): Invocation {
    var card := FetchRequest(url);
    match Received(net(0, card), parse)
    case Err(f) => Invocation(Err(AgentCardUnavailable(f)), [card])
    case Ok(JObj(agentCard)) =>
      var rest := AgentWithCard(agentCard, apiKey, tool, kwargs, net, parse, named);
      Invocation(rest.result, [card] + rest.sent)
    case Ok(_) => Invocation(Err(WrongShape), [card])
  }

  // ------------------------------------------------------------ the router

  /** `_call_service_internal(service_id, tool_name, arguments)` given the
      active deck the backend returned. */
  function Invoke(deck: Json, serviceId: string, tool: string, arguments: string, net: Network, parse: Parser): Invocation {
    match ResolveService(deck, serviceId)
    case Err(e) => Invocation(Err(e), [])
    case Ok(service) =>
      if "url" !in service then Invocation(Err(MissingKey("url")), [])
      else match ParseArguments(arguments, parse)
        case Err(e) => Invocation(Err(e), [])
        case Ok(kwargs) =>
          if "type" !in service then Invocation(Err(MissingKey("type")), [])
          else if service["type"] == JStr("mcp") then CallDirect(service, tool, kwargs, net, parse)
          else CallAgent(service["url"], Get(service, "apiKey", JNull), tool, kwargs, net, parse, "name" in service)
  }

  // ------------------------------------------------------------- methods

  /** One step of the fallback chain: the first url is tried, and the rest of
      the chain runs only when that try failed. */
  lemma FallbackStep(urls: seq<Url>, step: nat, headers: Headers, kwargs: Json, net: Network, parse: Parser, named: bool)
    requires urls != []
    ensures var request := RestRequest(urls[0], headers, kwargs);
      var answer := RestAnswer(net(step, request), parse, named);
      var rest := Fallback(urls[1..], step + 1, headers, kwargs, net, parse, named);
      Fallback(urls, step, headers, kwargs, net, parse, named) ==
        if answer.Some? then FallbackRun(answer, [request]) else FallbackRun(rest.answer, [request] + rest.sent)
  {
  }

  /** The `for endpoint in rest_endpoints` loop: `continue` on any failure,
      return on the first success. The tries are calls `step`, `step + 1`, … */
  method TryRestFallbacks(endpoints: seq<Url>, step: nat, headers: Headers, kwargs: Json, net: Network, parse: Parser, named: bool)
    returns (answer: Option<Output>, sent: seq<Request>)
    ensures FallbackRun(answer, sent) == Fallback(endpoints, step, headers, kwargs, net, parse, named)
  {
    sent := [];
    var i := 0;
    ghost var whole := Fallback(endpoints, step, headers, kwargs, net, parse, named);
    ghost var remaining := whole;
    while i < |endpoints|
      invariant 0 <= i <= |endpoints|
      invariant remaining == Fallback(endpoints[i..], step + i, headers, kwargs, net, parse, named)
      invariant whole == FallbackRun(remaining.answer, sent + remaining.sent)
    {
      var request := RestRequest(endpoints[i], headers, kwargs);
      var out := RestAnswer(net(step + i, request), parse, named);
      ghost var rest := Fallback(endpoints[i + 1..], step + i + 1, headers, kwargs, net, parse, named);
      assert remaining == if out.Some? then FallbackRun(out, [request]) else FallbackRun(rest.answer, [request] + rest.sent) by {
        FallbackStep(endpoints[i..], step + i, headers, kwargs, net, parse, named);
        assert endpoints[i..][0] == endpoints[i];
        assert endpoints[i..][1..] == endpoints[i + 1..];
      }
      if out.Some? {
        return out, sent + [request];
      }
      assert sent + ([request] + rest.sent) == (sent + [request]) + rest.sent;
      sent := sent + [request];
      i := i + 1;
      remaining := rest;
    }
    assert endpoints[i..] == [];
    return None, sent;
  }

  /** Lines 272-322: the primary call inside `try`, the fallback loop in its
      `except requests.exceptions.RequestException`. */
  method CallPrimary(endpoint: Json, headers: Headers, tool: string, kwargs: Json, net: Network, parse: Parser, named: bool)
    returns (result: Result<Output, Error>, sent: seq<Request>)
    ensures Invocation(result, sent) == PrimaryCall(endpoint, headers, tool, kwargs, net, parse, named)
  {
    var primary := RpcRequest(endpoint, headers, tool, kwargs);
    sent := [primary];
    var received := Received(net(2, primary), parse);
    if received.Ok? {
      return AgentAnswer(received.value, named), sent;
    }
    var answer, tried := TryRestFallbacks(FallbackUrls(endpoint, tool), 3, headers, kwargs, net, parse, named);
    sent := sent + tried;
    if answer.Some? {
      result := Ok(answer.value);
    } else {
      result := Err(A2AFailed(received.error));
    }
  }

  /** Steps 4 and 5: the log line listing every skill's id, then the
      `for skill in skills: … break` search. */
  method MatchSkill(skills: Json, tool: string) returns (r: Result<Option<nat>, Error>)
    ensures r == SkillMatch(skills, tool)
  {
    var items := SubscriptedItems(skills);
    if items.Err? {
      return Err(items.error);
    }
    var entries := Collect(items.value, SkillEntry);
    if entries.Err? {
      return Err(entries.error);
    }
    r := FindFirst(entries.value, SkillTest(tool));
  }

  /** The A2A branch of `_call_service_internal`, step by step. */
  method CallAgentService(url: Json, apiKey: Json, tool: string, kwargs: Json, net: Network, parse: Parser, named: bool)
    returns (result: Result<Output, Error>, sent: seq<Request>)
    ensures Invocation(result, sent) == CallAgent(url, apiKey, tool, kwargs, net, parse, named)
  {
    // Step 1: fetch the agent card.
    var card := FetchRequest(url);
    sent := [card];
    var fetched := Received(net(0, card), parse);
    if fetched.Err? {
      return Err(AgentCardUnavailable(fetched.error)), sent;
    }
    if !fetched.value.JObj? {
      return Err(WrongShape), sent;
    }
    var rest;
    result, rest := UseAgentCard(fetched.value.fields, apiKey, tool, kwargs, net, parse, named);
    sent := sent + rest;
  }

  /** Steps 2 to 6, given the decoded agent card. */
  method UseAgentCard(agentCard: Dict, apiKey: Json, tool: string, kwargs: Json, net: Network, parse: Parser, named: bool)
    returns (result: Result<Output, Error>, sent: seq<Request>)
    ensures Invocation(result, sent) == AgentWithCard(agentCard, apiKey, tool, kwargs, net, parse, named)
  {
    var headers := A2AHeaders(apiKey);
    // Step 2: the communication endpoint.
    var endpoint := Get(agentCard, "url", JNull);
    if !Truthy(endpoint) {
      return Err(NoCommunicationEndpoint(agentCard)), [];
    }
    // Step 3: the liveness probe; what it answers is only logged.
    var probe := FetchRequest(endpoint);
    sent := [probe];
    var liveness := net(1, probe);
    // Steps 4 and 5: list the skills and look for the tool among them.
    var target := MatchSkill(Get(agentCard, "skills", JArr([])), tool);
    if target.Err? {
      return Err(target.error), sent;
    }
    // Step 6: the primary call, with its fallback chain.
    var rest;
    result, rest := CallPrimary(endpoint, headers, tool, kwargs, net, parse, named);
    sent := sent + rest;
  }

  /** `_call_service_internal`, step by step. */
  method CallServiceInternal(deck: Json, serviceId: string, tool: string, arguments: string, net: Network, parse: Parser)
    returns (result: Result<Output, Error>, sent: seq<Request>)
    ensures Invocation(result, sent) == Invoke(deck, serviceId, tool, arguments, net, parse)
  {
    sent := [];
    var services := ActiveDeckServices(deck);
    if services.Err? {
      return Err(services.error), sent;
    }
    var found := FindFirst(services.value, ServiceTest(serviceId));
    if found.Err? {
      // every entry has a service_id, so the lookup test never raises
      assert false;
    }
    if found.value.None? {
      return Err(ServiceNotFound), sent;
    }
    var service := services.value[found.value.value];
    if "url" !in service {
      return Err(MissingKey("url")), sent;
    }
    var apiKey := Get(service, "apiKey", JNull);
    var kwargs := ParseArguments(arguments, parse);
    if kwargs.Err? {
      return Err(kwargs.error), sent;
    }
    if "type" !in service {
      return Err(MissingKey("type")), sent;
    }
    if service["type"] == JStr("mcp") {
      var direct := CallDirect(service, tool, kwargs.value, net, parse);
      return direct.result, direct.sent;
    }
    result, sent := CallAgentService(service["url"], apiKey, tool, kwargs.value, net, parse, "name" in service);
  }
}
