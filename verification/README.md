# Agent Deck: the service invocation router

This project models the core of Agent Deck's MCP front service
(`app_mcp.py`) in Dafny and proves properties of the model. The core is
`_call_service_internal`, which takes a service id, a tool name and a JSON
argument string. It goes through these steps:

- It finds the service among the services of the active deck.
- It decodes the arguments.
- For a service of type `mcp`, it calls the tool directly with one JSON-RPC
  POST.
- For every other type, it goes through the A2A agent protocol:
  - it fetches the agent card;
  - it checks that the card names a communication endpoint;
  - it probes that endpoint (liveness);
  - it logs the skills and looks for a matching one;
  - it makes the primary JSON-RPC call;
  - after a transport-level failure of that call only, it tries a fixed chain
    of three REST fallbacks in order.

The model also covers the pieces around the router:

- the backend client (`AgentDeckAPIClient`: the base-URL normalisation and
  the unwrapping of `{success, data, error}` answers);
- the active-deck service list;
- the two read-only tools `list_active_deck_services` and
  `list_service_tools`.

## How the model is built

- `model.dfy` (`Model`) defines the shared values:
  - decoded JSON (`Json`, with dicts as maps);
  - the calls handed to the HTTP library (`Request`) and what comes back
    (`Outcome`);
  - the exceptions, one constructor per message (`Error`);
  - the text a call returns (`Output`: `json.dumps` or `str` of a value).
- The remote side is a parameter `net: Network`. `net(n, call)` is the outcome
  of the n-th call of one invocation:
  - on the A2A path: 0 is the card fetch, 1 the liveness probe, 2 the primary
    call, and 3 to 5 the fallbacks;
  - on the direct path: 0.
- `json.loads` is a parameter `parse: Parser`. It is left uninterpreted.
- What the backend answered for the active deck is an input `deck: Json`.
  JNull stands for the None that `get_active_deck` returns on failure;
  `ActiveDeck` computes that input from the backend's answer, and
  `BackendFailureFindsNoService` follows a failed answer through `Invoke`.
- Every operation is a specification function. The router's functions
  (`Invoke`, `CallDirect`, `CallAgent`, `PrimaryCall`, `Fallback`) also
  return `sent`, the calls made, in order.
- The operations that contain a loop also have a method with that loop,
  proved equal to their function (`CallServiceInternal`,
  `CallAgentService`, `UseAgentCard`, `CallPrimary`, `TryRestFallbacks`,
  `MatchSkill`, `ActiveDeckServices`, `ListActiveDeckServices`,
  `ListServiceTools`).
- The two loop shapes of the source are written once, in `scans.dfy`:
  - the `append` loop is `Traverse` / `Collect`;
  - the `for … break` search whose test may raise is `FirstHit` /
    `FindFirst`.
- The properties of the router are lemmas in `properties.dfy`
  (`RouterProperties`).

Python exceptions that are not messages of the router are modelled too:

- a `KeyError` on `d[key]` is `MissingKey(key)`;
- a `TypeError` or `AttributeError` on a value of the wrong JSON type is
  `WrongShape`.

Log lines count where they read a key that may be absent:

- `service['name']` at line 195 on the direct path, and at lines 288 and
  314 on the A2A path;
- `skill['id']` for every skill at line 246;
- `s['name']` for every entry visited in `list_service_tools`.

### Behaviour of the code worth knowing

- **Authorization header.** When the service has no API key, the A2A path
  still sends `Authorization` with the empty string as its value.
  `A2AHeaders` shows this.
- **Unknown types.** A type other than `mcp`, known or not, takes the A2A
  path. No "unsupported protocol" error exists. See `DispatchOnTypeAlone`.
- **Direct-path errors.** Every failure on the direct path reaches the
  caller wrapped as "Failed to call MCP service", with the cause inside.
  There is no separate transport-error kind.
  - A service without a `name` raises its `KeyError` in the log line at
    line 195, before the call: it is wrapped once (line 201), and no call
    is made.
  - Every other failure happens inside `call_mcp_service_async` and is
    wrapped twice (lines 154 and 201).
- **Card endpoint.** Only the card's `url` key is read as the communication
  endpoint.
- **Skills.** Skill matching can abort the invocation:
  - a skill without an `id` (line 246) raises;
  - a skill whose id differs and that has no `name`, or a non-string name
    (line 251), raises.

  When matching completes, it does not influence anything
  (`SkillMatchIsAdvisory`).
- **Liveness probe.** The probe never influences the result
  (`LivenessNeverDecides`).
- **Services without a name.** A service without a `name` never succeeds on
  the A2A path (`UnnamedAgentNeverSucceeds`):
  - after a clean primary reply, the log line raises `KeyError`;
  - in the fallback chain, the same `KeyError` is caught as a failed try.

## Model

Specification functions without a contract of their own (`CallDirect`,
`DirectAnswer`, `AgentAnswer`, `RestAnswer`, `PrimaryCall`, `CallAgent`,
`AgentWithCard`, `Fallback`, `Invoke`, …) are covered by the rows of the
lemmas and methods about them, which cite the same lines.

| member | source | states |
|---|---|---|
| Model.Render | app_mcp.py:289 | the returned text is `json.dumps` of the value exactly when the value is a dict, `str` of it otherwise, and it is about that value |
| Scans.Traverse | app_mcp.py:107-114 | building a list by appending `f` of each element succeeds exactly when `f` succeeds on every element, gives `f` of each element in order, and otherwise fails with the error of the first element that raises |
| Scans.Collect | app_mcp.py:107-114 | the append loop computes `Traverse` |
| Scans.FirstHit | app_mcp.py:172-175 | the search answers the first accepted position with every earlier test false, None exactly when every test is false, or the error of the first test that raises before any hit |
| Scans.FindFirst | app_mcp.py:171-175 | the `for … break` loop computes `FirstHit` |
| Backend.StripTrailingSlashes | app_mcp.py:27-28 | `rstrip('/')`: the result is a prefix of the URL, does not end in '/', and everything removed is '/' |
| Backend.TrailingSlashIgnored | app_mcp.py:27-32 | a base URL given with a trailing slash makes the client call the same URLs as without it |
| Backend.DefaultClientUrl | app_mcp.py:21-32 | the client built with no argument calls `http://localhost:8000` followed by the endpoint |
| Backend.MakeRequest | app_mcp.py:47-59 | a transport failure becomes 'Failed to communicate with backend' with its fault; a dict answer gives its `data` exactly when its `success` is truthy, and 'API Error' with `error` or 'Unknown API error' exactly when `success` is falsy or absent; a non-dict answer raises |
| Backend.ActiveDeck | app_mcp.py:61-67 | a successful answer gives its `data`, and any failure gives None |
| Backend.ServiceEntry | app_mcp.py:109-112 | an entry exists exactly for a dict with an `id`; it has the service's keys plus `service_id`, keeps every value of the service, and its `service_id` is the service's own one if present, else its `id` |
| Backend.DeckServices | app_mcp.py:100-114 | no active deck gives no services; a deck that is not a dict raises; a list produced has one entry per service of the deck, entry i being `{"service_id": id, **service}` of service i, so every entry carries a `service_id` |
| Backend.ActiveDeckServices | app_mcp.py:100-114 | `get_active_deck_services` with its append loop computes `DeckServices` |
| Backend.DeckServicesKeepOrder | app_mcp.py:106-114 | a deck whose services all have an id lists them all, in order, entry i being `{"service_id": id, **service}` of service i |
| Router.ResolveService | app_mcp.py:170-178 | the service used is the first entry whose `service_id` equals the requested id; 'Service not found in active deck' is raised exactly when no entry has it; a failure of the service list is passed on |
| Router.ParseArguments | app_mcp.py:184-187 | empty arguments are `{}`; otherwise the arguments decode exactly when `json.loads` accepts them, to what it returns; the only error is 'Invalid JSON in arguments' |
| Router.McpHeaders | app_mcp.py:127-130 | the direct-path headers are Content-Type plus the service's own headers, which win, including over Content-Type; a falsy `headers` adds nothing; a truthy non-dict cannot be unpacked |
| Router.A2AHeaders | app_mcp.py:204-207 | the A2A headers are exactly Content-Type and Authorization; Authorization is `Bearer <key>` exactly when the key is truthy, and the empty string otherwise |
| Router.Slug | app_mcp.py:251 | `lower().replace(' ', '-')` keeps the length, maps spaces to '-' and A-Z to a-z, keeps every other character, and leaves no space or capital |
| Router.FallbackSendsInOrder | app_mcp.py:296-310 | the fallback chain POSTs the raw arguments to its URLs strictly in order, one per URL at most, and tries every URL when none answers |
| Router.FallbackTriesInOrder | app_mcp.py:302-319 | every try before the last failed; the chain stops at the first try that answers and returns its answer; it runs out only when every try failed |
| Router.TryRestFallbacks | app_mcp.py:302-319 | the `for endpoint in rest_endpoints` loop with `continue` and early `return` computes the fallback chain over `/analyze`, `/tool/process`, `/<tool>` |
| Router.CallPrimary | app_mcp.py:272-322 | the primary call with its `except RequestException` fallback computes `PrimaryCall` |
| Router.MatchSkill | app_mcp.py:238-253 | listing the card's skills and searching them for the tool computes `SkillMatch` |
| Router.UseAgentCard | app_mcp.py:218-322 | the A2A branch after the card fetch, step by step, computes `AgentWithCard` |
| Router.CallAgentService | app_mcp.py:203-322 | the A2A branch, step by step, computes `CallAgent` |
| Router.CallServiceInternal | app_mcp.py:165-322 | `_call_service_internal` computes `Invoke`: same result, same calls in the same order |
| RouterProperties.BackendFailureFindsNoService | app_mcp.py:61-67 | when the backend's answer about the active deck fails, the deck reads as None and any id raises 'Service not found in active deck' with no call |
| RouterProperties.UnknownServiceMakesNoCall | app_mcp.py:170-178 | an id absent from the active deck raises 'Service not found in active deck' with no call, whatever the arguments |
| RouterProperties.UndecodableArgumentsMakeNoCall | app_mcp.py:180-187 | undecodable arguments raise 'Invalid JSON in arguments' with no call |
| RouterProperties.DispatchOnTypeAlone | app_mcp.py:189-207 | type `mcp` takes the direct path; every other type, known or not, takes the A2A path with the service's `url` and `apiKey` |
| RouterProperties.DirectSendsAtMostOneEnvelope | app_mcp.py:190-201 | the direct path makes at most one call, a JSON-RPC POST of the arguments to the service url, and every failure surfaces as 'Failed to call MCP service' |
| RouterProperties.DirectCallIsOneJsonRpcPost | app_mcp.py:122-154 | with a name and usable headers, exactly one POST of the envelope is made; the call succeeds exactly when the reply decodes to a dict without `error`, with `json.dumps` of its `result` or of the whole reply; failures are wrapped twice |
| RouterProperties.AgentCardFailureIsFatal | app_mcp.py:209-216 | a card that cannot be fetched or decoded raises 'Failed to fetch agent card' after that one call |
| RouterProperties.MissingEndpointIsFatal | app_mcp.py:218-221 | a card without a truthy `url` raises 'Agent card does not specify a communication endpoint' after the card fetch only |
| RouterProperties.SkillMatchIsAdvisory | app_mcp.py:223-270 | once skill matching completes, the probe of the card's `url` is followed by the primary call to that url with method = tool, and the rest does not depend on which skill matched |
| RouterProperties.DecodedReplyStopsFallback | app_mcp.py:272-289 | a primary reply that decodes ends the call with no fallback: an `error` member gives 'A2A agent returned error', otherwise `result` (or the reply) is returned |
| RouterProperties.PrimaryCallSendsInOrder | app_mcp.py:272-310 | the primary stage sends the JSON-RPC POST and then POSTs of the raw arguments to the fallback URLs in order, at most four calls |
| RouterProperties.TransportFailureFallsBackInOrder | app_mcp.py:291-322 | after a transport failure of the primary call, `/analyze`, `/tool/process`, `/<tool>` are tried in order; the first that answers gives the result; only when all three failed is the original fault raised, after four calls |
| RouterProperties.UnnamedAgentNeverSucceeds | app_mcp.py:288-319 | for a service without a name the A2A path always fails, and after a transport failure all three fallbacks are tried and the primary fault is raised |
| RouterProperties.AgentCardStageCalls | app_mcp.py:218-322 | after the card fetch the A2A path makes at most five calls, the first being the probe of the card's `url`, and every POST carries the arguments unchanged |
| RouterProperties.AgentPathCalls | app_mcp.py:203-322 | the A2A path starts with the card fetch, makes at most six calls, and every POST carries the arguments unchanged |
| RouterProperties.FallbackCongruence | app_mcp.py:302-319 | the fallback chain depends only on the outcomes of its own calls |
| RouterProperties.PrimaryCallCongruence | app_mcp.py:272-322 | the primary stage depends only on the outcomes of calls from the primary call on |
| RouterProperties.AgentCallCongruence | app_mcp.py:209-322 | two networks that agree on the card fetch and give the same primary stage for every endpoint give the same A2A call |
| RouterProperties.AgentCallIgnoresLiveness | app_mcp.py:223-236 | two networks differing only in the liveness probe's answer give the same A2A call |
| RouterProperties.LivenessNeverDecides | app_mcp.py:223-236 | two networks differing only in the liveness probe's answer give the same invocation |
| RouterProperties.InvocationCalls | app_mcp.py:165-322 | no invocation makes more than six calls, none before the arguments decoded, and every POST carries the decoded arguments as envelope `params` or as the body |
| RouterProperties.OnlyServiceIsFound | app_mcp.py:170-178 | the only service of a deck is found under its id |
| RouterProperties.PingServiceAnswers | app_mcp.py:122-154 | a direct call of `ping` whose reply carries `result: "pong"` returns it after one POST |
| RouterProperties.DirectPingExample | app_mcp.py:165-201 | invoking `ping` on an `mcp` service with `{}` makes one POST of the envelope and returns the remote result |
| RouterProperties.AgentServiceIsCalled | app_mcp.py:170-207 | tool `run` of the agent service, with empty arguments, takes the A2A path with the card url, no API key and `{}` |
| RouterProperties.AgentCardWithoutSkills | app_mcp.py:209-270 | a card with only a `url` leads to the primary call to that url, with no skill error |
| RouterProperties.AgentWithoutSkillsExample | app_mcp.py:202-270 | invoking `run` on an agent whose card has only `url: http://h/agent` makes, as its third call, the JSON-RPC POST of method `run` to that url |
| Listing.RowOf | app_mcp.py:382-388 | a listing row exists exactly when the entry has `service_id`, `name`, `type` and `url`, and holds those values; otherwise the KeyError names a missing key |
| Listing.DeckName | app_mcp.py:392 | `active_deck['name']` is the deck's name, a KeyError without one, a TypeError on a non-dict |
| Listing.DeckListingOf | app_mcp.py:373-393 | the empty listing with its message is given exactly when there is no active deck; a listing of services has one row per service of the deck, in order, and the deck's name |
| Listing.BackendFailureListsNoDeck | app_mcp.py:61-67 | when the backend's answer about the active deck fails, the listing is the 'No active deck found' answer |
| Listing.ListActiveDeckServices | app_mcp.py:373-393 | `list_active_deck_services` with its row loop computes `DeckListingOf` |
| Listing.ListingShowsEveryService | app_mcp.py:380-393 | a named deck whose services are complete lists every service, in order, under the id the router looks it up by |
| Listing.Discover | app_mcp.py:432-449 | tools are reported exactly when the backend answers with a value that has a length and the service has a url; every other outcome is 'Failed to discover tools' for that service's name, with the backend's error when it failed |
| Listing.ServiceTools | app_mcp.py:408-449 | a failure of the service list or of the lookup's log line is passed on; an unknown id is reported exactly when the lookup finds no entry, and only when no service has the id; for the entry found, a missing `type` raises, a type other than `mcp` is reported with that entry's name and type, and an `mcp` entry gives the discovery answer for that entry |
| Listing.ListServiceTools | app_mcp.py:408-449 | `list_service_tools` with its lookup loop computes `ServiceTools` |
| Listing.SameLookupAsRouter | app_mcp.py:411-422 | when every service has a name, `list_service_tools` reports an unknown id exactly when the router raises 'Service not found in active deck', and finds the same entry otherwise |
| Listing.SameHits | app_mcp.py:411-416 | two lookup tests that agree on every entry find the same first hit |
| Listing.SameHitsWhenNamed | app_mcp.py:411-416 | wherever the listing's lookup completes, the router's lookup finds the same entry |
| Listing.BackendAskedOnlyForMcp | app_mcp.py:418-435 | the backend's answer about tools changes the reply only when the router resolves the id to an `mcp` service |

## Left out

- The HTTP layer is not modelled: `requests`, the per-call `API_TIMEOUT`, and the choice of verb in `_make_request` (lines 36-45). A timeout is one kind of transport failure (`Unreachable`). The outcomes of the router's calls come from the `net` parameter; the outcome of a backend client call is the `Outcome` parameter of `MakeRequest`, `ActiveDeck` and `ServiceTools`.
- A body that is not JSON is treated as a `RequestException` (`BodyNotJson`), which is how `requests` 2.27 and later raise from `response.json()`. With an older `requests`, such a 2xx reply to the primary A2A call (line 282) would raise without any fallback being tried. The model does not capture that older behaviour.
- JSON text is not modelled. `json.loads` is the `parse` parameter. `json.dumps`, `str()` and the f-string URLs and headers stay symbolic (`Output`, `Url`, `HeaderValue`). Numbers are integers only.
- Dict key order is not modelled. It only affects the text `json.dumps` produces.
- Router.Slug: `lower()` is modelled for the ASCII letters A-Z only.
- The synchronous wrapper `call_mcp_service_sync` is not modelled. It runs the async call on a thread pool and returns its result, so the model calls the direct path directly.
- The FastMCP application, its decorators, `call_service`, `get_active_deck_info` and the `__main__` block are outside the router.
- Logging is not modelled. The exception is the log lines that read a key that may be absent; those are modelled.
- The backend's HTTP call for the active deck is an input, not a call in `sent`. `list_active_deck_services` asks the backend twice; the model takes both answers as inputs.
- `get_all_services`, `get_service` and `call_service_tool` of the backend client are not used by the router.
- test_mcp_tools.py is not part of this model. It drives a running server.
