/** What the invocation router promises, stated over `Invoke` and the pieces
    of the A2A path: which calls are made, in which order, and what is
    raised or returned. */
module RouterProperties {
  import opened Model
  import opened Scans
  import opened Backend
  import opened Router

  // ------------------------------------------------------------ lookup

  /** An id absent from the active deck raises 'Service not found in active
      deck' with no call made, whatever the arguments (even undecodable ones:
      the lookup comes first). */
  lemma UnknownServiceMakesNoCall(deck: Json, serviceId: string, tool: string, arguments: string, net: Network, parse: Parser)
    requires DeckServices(deck).Ok?
    requires forall i :: 0 <= i < |DeckServices(deck).value| ==>
      DeckServices(deck).value[i]["service_id"] != JStr(serviceId)
    ensures Invoke(deck, serviceId, tool, arguments, net, parse) == Invocation(Err(ServiceNotFound), [])
  {
  }

  /** When the backend cannot be reached or reports an error, the active deck
      reads as None, it has no services, and every id is reported as not
      found, with no call made. */
  lemma BackendFailureFindsNoService(backend: Outcome, serviceId: string, tool: string, arguments: string, net: Network, parse: Parser)
    requires MakeRequest(backend, parse).Err?
    ensures Invoke(ActiveDeck(backend, parse), serviceId, tool, arguments, net, parse) == Invocation(Err(ServiceNotFound), [])
  {
    assert ActiveDeck(backend, parse) == JNull;
    assert ResolveService(JNull, serviceId) == Err(ServiceNotFound);
  }

  /** Undecodable arguments raise 'Invalid JSON in arguments' before any call. */
  lemma UndecodableArgumentsMakeNoCall(deck: Json, serviceId: string, tool: string, arguments: string, net: Network, parse: Parser)
    requires ResolveService(deck, serviceId).Ok? && "url" in ResolveService(deck, serviceId).value
    requires arguments != "" && parse(arguments).None?
    ensures Invoke(deck, serviceId, tool, arguments, net, parse) == Invocation(Err(InvalidArguments), [])
  {
  }

  // ---------------------------------------------------------- dispatch

  /** The branch is decided by `type == 'mcp'` alone: 'mcp' takes the direct
      path, every other type, known or not, the A2A path with the service's
      `url` as the card location and its `apiKey` (None when absent). */
  lemma DispatchOnTypeAlone(deck: Json, serviceId: string, tool: string, arguments: string, net: Network, parse: Parser)
    requires ResolveService(deck, serviceId).Ok?
    requires var service := ResolveService(deck, serviceId).value; "url" in service && "type" in service
    requires ParseArguments(arguments, parse).Ok?
    ensures var service := ResolveService(deck, serviceId).value;
      var kwargs := ParseArguments(arguments, parse).value;
      var run := Invoke(deck, serviceId, tool, arguments, net, parse);
      && (service["type"] == JStr("mcp") ==> run == CallDirect(service, tool, kwargs, net, parse))
      && (service["type"] != JStr("mcp") ==>
            run == CallAgent(service["url"], Get(service, "apiKey", JNull), tool, kwargs, net, parse, "name" in service))
  {
  }

  // ------------------------------------------------------- direct path

  /** The direct path makes at most one call: a JSON-RPC POST of the
      arguments to the service url. Every failure surfaces as 'Failed to
      call MCP service'. */
  lemma DirectSendsAtMostOneEnvelope(service: Dict, tool: string, kwargs: Json, net: Network, parse: Parser)
    requires "url" in service
    ensures var run := CallDirect(service, tool, kwargs, net, parse);
      && |run.sent| <= 1
      && (forall q :: q in run.sent ==> q.verb == POST && q.url == Url(service["url"], "") && q.json == Envelope(tool, kwargs))
      && (run.result.Err? ==> run.result.error.McpFailed?)
  {
  }

  /** With a `name` and unpackable `headers`, the direct path makes exactly
      one POST: the JSON-RPC envelope, with Content-Type overlaid by the
      service's own headers. A reply without `error` yields `json.dumps` of
      its `result` (or of the whole reply); every failure comes back wrapped
      twice. */
  lemma DirectCallIsOneJsonRpcPost(service: Dict, tool: string, kwargs: Json, net: Network, parse: Parser)
    requires "url" in service && "name" in service
    requires McpHeaders(Get(service, "headers", JObj(map[]))).Ok?
    ensures var headers := McpHeaders(Get(service, "headers", JObj(map[]))).value;
      var request := RpcRequest(service["url"], headers, tool, kwargs);
      var reply := Received(net(0, request), parse);
      var run := CallDirect(service, tool, kwargs, net, parse);
      && run.sent == [request]
      && (run.result.Ok? <==> reply.Ok? && reply.value.JObj? && "error" !in reply.value.fields)
      && (run.result.Ok? ==> run.result.value == Dumped(Get(reply.value.fields, "result", reply.value)))
      && (run.result.Err? ==> run.result.error.McpFailed? && run.result.error.cause.McpFailed?)
  {
  }

  // ---------------------------------------------------------- A2A path

  /** A card that cannot be fetched or decoded ends the flow after one call. */
  lemma AgentCardFailureIsFatal(url: Json, apiKey: Json, tool: string, kwargs: Json, net: Network, parse: Parser, named: bool)
    requires Received(net(0, FetchRequest(url)), parse).Err?
    ensures CallAgent(url, apiKey, tool, kwargs, net, parse, named) ==
      Invocation(Err(AgentCardUnavailable(Received(net(0, FetchRequest(url)), parse).error)), [FetchRequest(url)])
  {
  }

  /** A card without a truthy `url` ends the flow after the card fetch. */
  lemma MissingEndpointIsFatal(url: Json, apiKey: Json, tool: string, kwargs: Json, net: Network, parse: Parser, named: bool)
    requires Received(net(0, FetchRequest(url)), parse).Ok?
    requires Received(net(0, FetchRequest(url)), parse).value.JObj?
    requires !Truthy(Get(Received(net(0, FetchRequest(url)), parse).value.fields, "url", JNull))
    ensures CallAgent(url, apiKey, tool, kwargs, net, parse, named) ==
      Invocation(Err(NoCommunicationEndpoint(Received(net(0, FetchRequest(url)), parse).value.fields)), [FetchRequest(url)])
  {
  }

  /** Skill matching is advisory: once it has run without raising, the probe
      of the card's `url` is followed by the primary call to that same `url`
      with `method = tool`, whichever skill (if any) matched, and the rest of
      the invocation does not depend on the skills at all. */
  lemma SkillMatchIsAdvisory(agentCard: Dict, apiKey: Json, tool: string, kwargs: Json, net: Network, parse: Parser, named: bool)
    requires Truthy(Get(agentCard, "url", JNull))
    requires SkillMatch(Get(agentCard, "skills", JArr([])), tool).Ok?
    ensures var endpoint := Get(agentCard, "url", JNull);
      var run := AgentWithCard(agentCard, apiKey, tool, kwargs, net, parse, named);
      var rest := PrimaryCall(endpoint, A2AHeaders(apiKey), tool, kwargs, net, parse, named);
      && |run.sent| >= 2
      && run.sent[..2] == [FetchRequest(endpoint), RpcRequest(endpoint, A2AHeaders(apiKey), tool, kwargs)]
      && run.sent[1].json.fields["method"] == JStr(tool)
      && run == Invocation(rest.result, [FetchRequest(endpoint)] + rest.sent)
  {
    var endpoint := Get(agentCard, "url", JNull);
    var rest := PrimaryCall(endpoint, A2AHeaders(apiKey), tool, kwargs, net, parse, named);
    assert rest.sent[0] == RpcRequest(endpoint, A2AHeaders(apiKey), tool, kwargs);
  }

  /** A primary reply that decodes ends the call: no fallback is tried. An
      `error` member raises 'A2A agent returned error'; otherwise `result`
      (or the whole reply) is returned, `json.dumps`ed only when it is a dict,
      provided the service has a name for the log line to read. */
  lemma DecodedReplyStopsFallback(endpoint: Json, headers: Headers, tool: string, kwargs: Json, net: Network, parse: Parser, named: bool)
    requires Received(net(2, RpcRequest(endpoint, headers, tool, kwargs)), parse).Ok?
    ensures var reply := Received(net(2, RpcRequest(endpoint, headers, tool, kwargs)), parse).value;
      var run := PrimaryCall(endpoint, headers, tool, kwargs, net, parse, named);
      && run.sent == [RpcRequest(endpoint, headers, tool, kwargs)]
      && (reply.JObj? && "error" in reply.fields ==> run.result == Err(A2ARemoteError(reply.fields["error"])))
      && (reply.JObj? && "error" !in reply.fields && named ==>
            run.result.Ok? && run.result.value.value == Get(reply.fields, "result", reply) &&
            (run.result.value.Dumped? <==> Get(reply.fields, "result", reply).JObj?))
      && (reply.JObj? && "error" !in reply.fields && !named ==> run.result == Err(MissingKey("name")))
      && (!reply.JObj? ==> run.result == Err(WrongShape))
  {
  }

  /** Every call of the primary stage is, in order, the JSON-RPC POST to the
      endpoint and then POSTs of the raw arguments to the fallback urls in
      their order; there are at most four. */
  lemma PrimaryCallSendsInOrder(endpoint: Json, headers: Headers, tool: string, kwargs: Json, net: Network, parse: Parser, named: bool)
    ensures var run := PrimaryCall(endpoint, headers, tool, kwargs, net, parse, named);
      var urls := FallbackUrls(endpoint, tool);
      && 1 <= |run.sent| <= 4
      && run.sent[0] == RpcRequest(endpoint, headers, tool, kwargs)
      && (forall k :: 1 <= k < |run.sent| ==> run.sent[k] == RestRequest(urls[k - 1], headers, kwargs))
  {
    FallbackSendsInOrder(FallbackUrls(endpoint, tool), 3, headers, kwargs, net, parse, named);
  }

  /** After a transport-level failure of the primary call (call 2), the REST
      fallbacks `/analyze`, `/tool/process`, `/<tool>` are POSTed in that order
      with the raw arguments as body, as calls 3, 4, 5; every one before the
      last failed, the first that answers gives the result, and only when all
      three failed is the primary call's fault raised. */
  lemma TransportFailureFallsBackInOrder(endpoint: Json, headers: Headers, tool: string, kwargs: Json, net: Network, parse: Parser, named: bool)
    requires Received(net(2, RpcRequest(endpoint, headers, tool, kwargs)), parse).Err?
    ensures var fault := Received(net(2, RpcRequest(endpoint, headers, tool, kwargs)), parse).error;
      var run := PrimaryCall(endpoint, headers, tool, kwargs, net, parse, named);
      && 2 <= |run.sent| <= 4
      && (forall k :: 1 <= k < |run.sent| - 1 ==> RestAnswer(net(2 + k, run.sent[k]), parse, named).None?)
      && (run.result.Ok? ==>
            Some(run.result.value) == RestAnswer(net(1 + |run.sent|, run.sent[|run.sent| - 1]), parse, named))
      && (run.result.Err? ==>
            run.result == Err(A2AFailed(fault)) && |run.sent| == 4 &&
            forall k :: 1 <= k < 4 ==> RestAnswer(net(2 + k, run.sent[k]), parse, named).None?)
  {
    var urls := FallbackUrls(endpoint, tool);
    FallbackSendsInOrder(urls, 3, headers, kwargs, net, parse, named);
    FallbackTriesInOrder(urls, 3, headers, kwargs, net, parse, named);
    var fb := Fallback(urls, 3, headers, kwargs, net, parse, named);
    var run := PrimaryCall(endpoint, headers, tool, kwargs, net, parse, named);
    assert run.sent == [RpcRequest(endpoint, headers, tool, kwargs)] + fb.sent;
    forall k | 1 <= k < |run.sent|
      ensures TryAt(urls, 3, headers, kwargs, net, parse, named, k - 1) == RestAnswer(net(2 + k, run.sent[k]), parse, named)
    {
      assert run.sent[k] == fb.sent[k - 1];
    }
  }

  /** A service without a name never succeeds on the A2A path: the log line
      before each `return` raises KeyError, which leaves the call after a
      clean primary reply, and which the fallback loop swallows so that every
      fallback is tried and the primary call's fault is raised. */
  lemma UnnamedAgentNeverSucceeds(endpoint: Json, headers: Headers, tool: string, kwargs: Json, net: Network, parse: Parser)
    ensures var run := PrimaryCall(endpoint, headers, tool, kwargs, net, parse, false);
      && run.result.Err?
      && (Received(net(2, run.sent[0]), parse).Err? ==>
            |run.sent| == 4 && run.result == Err(A2AFailed(Received(net(2, run.sent[0]), parse).error)))
  {
    FallbackTriesInOrder(FallbackUrls(endpoint, tool), 3, headers, kwargs, net, parse, false);
    var fb := Fallback(FallbackUrls(endpoint, tool), 3, headers, kwargs, net, parse, false);
    assert forall o :: RestAnswer(o, parse, false).None?;
    assert fb.answer.None?;
  }

  /** Once the card is decoded, the A2A path makes at most five more calls,
      starting with the liveness probe; each POST carries the arguments
      unchanged, as the `params` of the JSON-RPC envelope or as the body of a
      REST fallback. */
  lemma AgentCardStageCalls(agentCard: Dict, apiKey: Json, tool: string, kwargs: Json, net: Network, parse: Parser, named: bool)
    ensures var rest := AgentWithCard(agentCard, apiKey, tool, kwargs, net, parse, named);
      && |rest.sent| <= 5
      && (rest.sent != [] ==> rest.sent[0] == FetchRequest(Get(agentCard, "url", JNull)))
      && (forall q :: q in rest.sent && q.verb == POST ==> q.json == Envelope(tool, kwargs) || q.json == kwargs)
  {
    var endpoint := Get(agentCard, "url", JNull);
    if Truthy(endpoint) && SkillMatch(Get(agentCard, "skills", JArr([])), tool).Ok? {
      var p := PrimaryCall(endpoint, A2AHeaders(apiKey), tool, kwargs, net, parse, named);
      assert |p.sent| <= 4 && forall q :: q in p.sent ==> q.json == Envelope(tool, kwargs) || q.json == kwargs by {
        PrimaryCallSendsInOrder(endpoint, A2AHeaders(apiKey), tool, kwargs, net, parse, named);
      }
      var rest := AgentWithCard(agentCard, apiKey, tool, kwargs, net, parse, named);
      assert rest.sent == [FetchRequest(endpoint)] + p.sent;
      forall q | q in rest.sent && q.verb == POST
        ensures q.json == Envelope(tool, kwargs) || q.json == kwargs
      {
        assert q in p.sent;
      }
    }
  }

  /** Every A2A invocation starts with the card fetch, makes at most six calls,
      and every POST it makes carries the JSON-RPC envelope or the bare
      arguments. */
  lemma AgentPathCalls(url: Json, apiKey: Json, tool: string, kwargs: Json, net: Network, parse: Parser, named: bool)
    ensures var run := CallAgent(url, apiKey, tool, kwargs, net, parse, named);
      && 1 <= |run.sent| <= 6
      && run.sent[0] == FetchRequest(url)
      && (forall q :: q in run.sent && q.verb == POST ==> q.json == Envelope(tool, kwargs) || q.json == kwargs)
  {
    var card := FetchRequest(url);
    var fetched := Received(net(0, card), parse);
    if fetched.Ok? && fetched.value.JObj? {
      var rest := AgentWithCard(fetched.value.fields, apiKey, tool, kwargs, net, parse, named);
      AgentCardStageCalls(fetched.value.fields, apiKey, tool, kwargs, net, parse, named);
      assert CallAgent(url, apiKey, tool, kwargs, net, parse, named).sent == [card] + rest.sent;
      assert card.verb == GET;
    }
  }

  // --------------------------------------------------- whole invocation

  /** Two networks that agree on every call from `step` on give the same
      fallback chain. */
  lemma {:induction false} FallbackCongruence(urls: seq<Url>, step: nat, headers: Headers, kwargs: Json, net1: Network, net2: Network, parse: Parser, named: bool)
    requires forall k: nat, q :: k >= step ==> net1(k, q) == net2(k, q)
    ensures Fallback(urls, step, headers, kwargs, net1, parse, named) == Fallback(urls, step, headers, kwargs, net2, parse, named)
    decreases |urls|
  {
    if urls != [] {
      FallbackCongruence(urls[1..], step + 1, headers, kwargs, net1, net2, parse, named);
    }
  }

  /** The primary stage depends only on the outcomes of calls 2 onwards. */
  lemma PrimaryCallCongruence(endpoint: Json, headers: Headers, tool: string, kwargs: Json, net1: Network, net2: Network, parse: Parser, named: bool)
    requires forall k: nat, q :: k >= 2 ==> net1(k, q) == net2(k, q)
    ensures PrimaryCall(endpoint, headers, tool, kwargs, net1, parse, named) == PrimaryCall(endpoint, headers, tool, kwargs, net2, parse, named)
  {
    assert net1(2, RpcRequest(endpoint, headers, tool, kwargs)) == net2(2, RpcRequest(endpoint, headers, tool, kwargs));
    FallbackCongruence(FallbackUrls(endpoint, tool), 3, headers, kwargs, net1, net2, parse, named);
  }

  /** The A2A path depends on the card fetch and on the primary stage only:
      nothing it does after the card depends on the liveness probe. */
  lemma AgentCallCongruence(url: Json, apiKey: Json, tool: string, kwargs: Json, net1: Network, net2: Network, parse: Parser, named: bool)
    requires net1(0, FetchRequest(url)) == net2(0, FetchRequest(url))
    requires forall endpoint ::
               PrimaryCall(endpoint, A2AHeaders(apiKey), tool, kwargs, net1, parse, named) ==
               PrimaryCall(endpoint, A2AHeaders(apiKey), tool, kwargs, net2, parse, named)
    ensures CallAgent(url, apiKey, tool, kwargs, net1, parse, named) == CallAgent(url, apiKey, tool, kwargs, net2, parse, named)
  {
  }

  /** Two networks that differ only in what the liveness probe (call 1)
      answers give the same A2A call. */
  lemma AgentCallIgnoresLiveness(url: Json, apiKey: Json, tool: string, kwargs: Json, net1: Network, net2: Network, parse: Parser, named: bool)
    requires forall k: nat, q :: k != 1 ==> net1(k, q) == net2(k, q)
    ensures CallAgent(url, apiKey, tool, kwargs, net1, parse, named) == CallAgent(url, apiKey, tool, kwargs, net2, parse, named)
  {
    forall endpoint
      ensures PrimaryCall(endpoint, A2AHeaders(apiKey), tool, kwargs, net1, parse, named) ==
        PrimaryCall(endpoint, A2AHeaders(apiKey), tool, kwargs, net2, parse, named)
    {
      PrimaryCallCongruence(endpoint, A2AHeaders(apiKey), tool, kwargs, net1, net2, parse, named);
    }
    AgentCallCongruence(url, apiKey, tool, kwargs, net1, net2, parse, named);
  }

  /** The liveness probe never decides anything: two networks that differ
      only in its answer give the same invocation. */
  lemma LivenessNeverDecides(deck: Json, serviceId: string, tool: string, arguments: string, net1: Network, net2: Network, parse: Parser)
    requires forall k: nat, q :: k != 1 ==> net1(k, q) == net2(k, q)
    ensures Invoke(deck, serviceId, tool, arguments, net1, parse) == Invoke(deck, serviceId, tool, arguments, net2, parse)
  {
    var service := ResolveService(deck, serviceId);
    var kwargs := ParseArguments(arguments, parse);
    if service.Ok? && "url" in service.value && kwargs.Ok? && "type" in service.value {
      var s := service.value;
      if s["type"] == JStr("mcp") {
        var headers := McpHeaders(Get(s, "headers", JObj(map[])));
        if headers.Ok? {
          var request := RpcRequest(s["url"], headers.value, tool, kwargs.value);
          assert net1(0, request) == net2(0, request);
        }
      } else {
        AgentCallIgnoresLiveness(s["url"], Get(s, "apiKey", JNull), tool, kwargs.value, net1, net2, parse, "name" in s);
      }
    }
  }

  /** No invocation makes more than six calls, and the decoded arguments
      reach every POST unchanged. */
  lemma InvocationCalls(deck: Json, serviceId: string, tool: string, arguments: string, net: Network, parse: Parser)
    ensures var run := Invoke(deck, serviceId, tool, arguments, net, parse);
      && |run.sent| <= 6
      && (run.sent != [] ==> ParseArguments(arguments, parse).Ok?)
      && (forall q :: q in run.sent && q.verb == POST ==>
            var kwargs := ParseArguments(arguments, parse).value;
            q.json == Envelope(tool, kwargs) || q.json == kwargs)
  {
    var service := ResolveService(deck, serviceId);
    var kwargs := ParseArguments(arguments, parse);
    if service.Ok? && "url" in service.value && kwargs.Ok? && "type" in service.value {
      var s := service.value;
      if s["type"] == JStr("mcp") {
        DirectSendsAtMostOneEnvelope(s, tool, kwargs.value, net, parse);
      } else {
        AgentPathCalls(s["url"], Get(s, "apiKey", JNull), tool, kwargs.value, net, parse, "name" in s);
      }
    }
  }

  // ------------------------------------------------------------ examples

  /** A deck of one service with an `id` and no `service_id` of its own. */
  function SingleServiceDeck(service: Dict): Json {
    JObj(map["services" := JArr([JObj(service)])])
  }

  /** Looking up the id of the only service of a deck finds it. */
  lemma OnlyServiceIsFound(service: Dict, serviceId: string)
    requires "id" in service && service["id"] == JStr(serviceId) && "service_id" !in service
    ensures ResolveService(SingleServiceDeck(service), serviceId) == Ok(service["service_id" := JStr(serviceId)])
  {
    var deck := SingleServiceDeck(service);
    assert "services" in deck.fields;
    var entry := map["service_id" := JStr(serviceId)] + service;
    assert entry == service["service_id" := JStr(serviceId)];
    assert ServiceEntry(JObj(service)) == Ok(entry);
    var entries := Traverse([JObj(service)], ServiceEntry);
    assert entries.Ok? && |entries.value| == 1 && entries.value[0] == entry;
    assert entries.value == [entry];
    assert DeckServices(deck) == Ok([entry]);
    assert FirstHit([entry], ServiceTest(serviceId)) == Ok(Some(0));
  }

  /** The 'mcp' service of the direct example, once found in the deck. */
  function PingService(): Dict {
    map["id" := JStr("s1"), "name" := JStr("Ping"), "type" := JStr("mcp"), "url" := JStr("http://h/rpc")]
  }

  /** The call the direct example makes. */
  function PingRequest(): Request {
    RpcRequest(JStr("http://h/rpc"), map["Content-Type" := Text("application/json")], "ping", JObj(map[]))
  }

  lemma PingServiceAnswers(net: Network, parse: Parser)
    requires net(0, PingRequest()) == Response(200, "application/json", "R")
    requires parse("R") == Some(JObj(map["result" := JStr("pong")]))
    ensures CallDirect(PingService()["service_id" := JStr("s1")], "ping", JObj(map[]), net, parse) ==
      Invocation(Ok(Dumped(JStr("pong"))), [PingRequest()])
  {
    var entry := PingService()["service_id" := JStr("s1")];
    assert "name" in entry && "headers" !in entry && entry["url"] == JStr("http://h/rpc");
    assert McpHeaders(JObj(map[])) == Ok(map["Content-Type" := Text("application/json")]);
  }

  /** Tool `ping` of an 'mcp' service at http://h/rpc, with arguments `{}`:
      one POST of `{"jsonrpc": "2.0", "id": 1, "method": "ping", "params": {}}`
      and the remote `result` returned. */
  lemma DirectPingExample(net: Network, parse: Parser)
    requires parse("{}") == Some(JObj(map[]))
    requires net(0, PingRequest()) == Response(200, "application/json", "R")
    requires parse("R") == Some(JObj(map["result" := JStr("pong")]))
    ensures Invoke(SingleServiceDeck(PingService()), "s1", "ping", "{}", net, parse) ==
      Invocation(Ok(Dumped(JStr("pong"))), [PingRequest()])
  {
    var entry := PingService()["service_id" := JStr("s1")];
    OnlyServiceIsFound(PingService(), "s1");
    assert entry["type"] == JStr("mcp") && "url" in entry;
    PingServiceAnswers(net, parse);
  }

  /** The agent service of the A2A example, once found in the deck. */
  function AgentService(): Dict {
    map["id" := JStr("s2"), "name" := JStr("Agent"), "type" := JStr("a2a"), "url" := JStr("http://h/card")]
  }

  /** The fields of the agent service's deck entry that the router reads. */
  lemma AgentEntryFields()
    ensures var entry := AgentService()["service_id" := JStr("s2")];
      && "url" in entry && entry["url"] == JStr("http://h/card")
      && "type" in entry && entry["type"] == JStr("a2a")
      && "apiKey" !in entry && "name" in entry
  {
  }

  /** Tool `run` of the agent service, with empty arguments, goes to the A2A
      path with the card at http://h/card, no API key and `{}` as arguments. */
  lemma AgentServiceIsCalled(net: Network, parse: Parser)
    ensures Invoke(SingleServiceDeck(AgentService()), "s2", "run", "", net, parse) ==
      CallAgent(JStr("http://h/card"), JNull, "run", JObj(map[]), net, parse, true)
  {
    var entry := AgentService()["service_id" := JStr("s2")];
    assert ResolveService(SingleServiceDeck(AgentService()), "s2") == Ok(entry) by {
      OnlyServiceIsFound(AgentService(), "s2");
    }
    AgentEntryFields();
    assert ParseArguments("", parse) == Ok(JObj(map[]));
  }

  lemma AgentCardWithoutSkills(net: Network, parse: Parser)
    requires net(0, FetchRequest(JStr("http://h/card"))) == Response(200, "application/json", "C")
    requires parse("C") == Some(JObj(map["url" := JStr("http://h/agent")]))
    ensures var run := CallAgent(JStr("http://h/card"), JNull, "run", JObj(map[]), net, parse, true);
      |run.sent| >= 3 && run.sent[2] == RpcRequest(JStr("http://h/agent"), A2AHeaders(JNull), "run", JObj(map[]))
  {
    var card := map["url" := JStr("http://h/agent")];
    assert "skills" !in card && Get(card, "url", JNull) == JStr("http://h/agent");
    assert SkillMatch(JArr([]), "run") == Ok(None);
    SkillMatchIsAdvisory(card, JNull, "run", JObj(map[]), net, parse, true);
    var rest := AgentWithCard(card, JNull, "run", JObj(map[]), net, parse, true);
    assert CallAgent(JStr("http://h/card"), JNull, "run", JObj(map[]), net, parse, true).sent == [FetchRequest(JStr("http://h/card"))] + rest.sent;
  }

  /** An agent service whose card at http://h/card gives only
      `{"url": "http://h/agent"}`: no skills, no error, and the third call is
      the JSON-RPC POST of method `run` to http://h/agent, with no arguments
      and an empty Authorization header. */
  lemma AgentWithoutSkillsExample(net: Network, parse: Parser)
    requires net(0, FetchRequest(JStr("http://h/card"))) == Response(200, "application/json", "C")
    requires parse("C") == Some(JObj(map["url" := JStr("http://h/agent")]))
    ensures var run := Invoke(SingleServiceDeck(AgentService()), "s2", "run", "", net, parse);
      |run.sent| >= 3 && run.sent[2] == RpcRequest(JStr("http://h/agent"), A2AHeaders(JNull), "run", JObj(map[]))
  {
    AgentServiceIsCalled(net, parse);
    AgentCardWithoutSkills(net, parse);
  }
}
