/** The two read-only MCP tools beside the router: `list_active_deck_services`
    and `list_service_tools`. Both answer with a JSON document; the ones that
    describe a problem (no active deck, unknown service, wrong type, failed
    discovery) are answers, not exceptions. */
module Listing {
  import opened Model
  import opened Scans
  import opened Backend
  import opened Router

  // ------------------------------------------------ list_active_deck_services

  /** One entry of the `services` list: `service_id`, `name`, `type`, `url`. */
  datatype ServiceRow = ServiceRow(serviceId: Json, name: Json, kind: Json, url: Json)

  datatype DeckListing =
    | NoActiveDeck                                      // 'No active deck found. ...' with no services
    | ActiveServices(services: seq<ServiceRow>, deckName: Json)

  /** The row of one service; the keys are read in the order the dict
      display lists them, so the first one missing is the KeyError raised. */
  function RowOf(s: Dict): (r: Result<ServiceRow, Error>)
    ensures r.Ok? <==> "service_id" in s && "name" in s && "type" in s && "url" in s
    ensures r.Ok? ==> r.value == ServiceRow(s["service_id"], s["name"], s["type"], s["url"])
    ensures r.Err? ==> r.error.MissingKey? && r.error.key !in s
  {
    if "service_id" !in s then Err(MissingKey("service_id"))
    else if "name" !in s then Err(MissingKey("name"))
    else if "type" !in s then Err(MissingKey("type"))
    else if "url" !in s then Err(MissingKey("url"))
    else Ok(ServiceRow(s["service_id"], s["name"], s["type"], s["url"]))
  }

  /** `active_deck['name']` on a deck that is truthy. */
  function DeckName(deck: Json): (r: Result<Json, Error>)
    ensures r.Ok? <==> deck.JObj? && "name" in deck.fields
    ensures r.Ok? ==> r.value == deck.fields["name"]
    ensures deck.JObj? && "name" !in deck.fields ==> r == Err(MissingKey("name"))
    ensures !deck.JObj? ==> r == Err(WrongShape)
  {
    match deck
    case JObj(d) => if "name" in d then Ok(d["name"]) else Err(MissingKey("name"))
    case _ => Err(WrongShape)
  }

  /** `list_active_deck_services`. The backend is asked for the active deck
      twice: `first` is what the tool's own `get_active_deck()` returned,
      `second` what the one inside `get_active_deck_services()` returned. */
  function DeckListingOf(first: Json, second: Json): (r: Result<DeckListing, Error>)
    ensures r == Ok(NoActiveDeck) <==> !Truthy(first)
    ensures r.Ok? && r.value.ActiveServices? ==>
      DeckServices(second).Ok? && DeckName(first) == Ok(r.value.deckName) &&
      var services := DeckServices(second).value;
      |r.value.services| == |services| &&
      forall i :: 0 <= i < |services| ==> RowOf(services[i]) == Ok(r.value.services[i])
  {
    if !Truthy(first) then Ok(NoActiveDeck)
    else match DeckServices(second)
      case Err(e) => Err(e)
      case Ok(services) =>
        match Traverse(services, RowOf)
        case Err(e) => Err(e)
        case Ok(rows) =>
          match DeckName(first)
          case Err(e) => Err(e)
          case Ok(name) => Ok(ActiveServices(rows, name))
  }

  /** `list_active_deck_services`, with its row-building loop. */
  method ListActiveDeckServices(first: Json, second: Json) returns (r: Result<DeckListing, Error>)
    ensures r == DeckListingOf(first, second)
  {
    if !Truthy(first) {
      return Ok(NoActiveDeck);
    }
    var services := ActiveDeckServices(second);
    if services.Err? {
      return Err(services.error);
    }
    var rows := Collect(services.value, RowOf);
    if rows.Err? {
      return Err(rows.error);
    }
    var name := DeckName(first);
    if name.Err? {
      return Err(name.error);
    }
    return Ok(ActiveServices(rows.value, name.value));
  }

  /** When the backend fails on the tool's own request for the active deck,
      the listing is the 'No active deck found' answer. */
  lemma BackendFailureListsNoDeck(backend: Outcome, second: Json, parse: Parser)
    requires MakeRequest(backend, parse).Err?
    ensures DeckListingOf(ActiveDeck(backend, parse), second) == Ok(NoActiveDeck)
  {
    assert !Truthy(ActiveDeck(backend, parse));
  }

  /** When the backend answers both questions with the same named deck whose
      services all carry `id`, `name`, `type` and `url`, the listing shows
      every service, in order, under the id the router looks it up by. */
  lemma {:induction false} ListingShowsEveryService(deck: Json)
    requires deck.JObj? && "name" in deck.fields && "services" in deck.fields && deck.fields["services"].JArr?
    requires var items := deck.fields["services"].items;
      forall i :: 0 <= i < |items| ==>
        items[i].JObj? && "id" in items[i].fields && "name" in items[i].fields &&
        "type" in items[i].fields && "url" in items[i].fields
    ensures var items := deck.fields["services"].items;
      var r := DeckListingOf(deck, deck);
      && r.Ok? && r.value.ActiveServices? && r.value.deckName == deck.fields["name"]
      && |r.value.services| == |items|
      && forall i :: 0 <= i < |items| ==>
           r.value.services[i].serviceId == DeckServices(deck).value[i]["service_id"] &&
           r.value.services[i].name == items[i].fields["name"] &&
           r.value.services[i].kind == items[i].fields["type"] &&
           r.value.services[i].url == items[i].fields["url"]
  {
    var items := deck.fields["services"].items;
    assert forall i :: 0 <= i < |items| ==> ServiceEntry(items[i]).Ok?;
    DeckServicesKeepOrder(deck);
    assert Truthy(deck);
    var services := DeckServices(deck).value;
    assert forall i :: 0 <= i < |services| ==> services[i] == ServiceEntry(items[i]).value;
    assert forall i :: 0 <= i < |services| ==> RowOf(services[i]).Ok?;
  }

  // ------------------------------------------------------ list_service_tools

  datatype ToolsReply =
    | UnknownService(serviceId: string)                           // "Service with ID '...' not found in active deck"
    | NotAnMcpService(name: Json, kind: Json)                    // "Service '...' is not an MCP service (type: ...)"
    | ToolsDiscovered(serviceId: string, name: Json, url: Json, tools: Json)
    | DiscoveryFailed(name: Json, cause: Error)                  // "Failed to discover tools for service '...': ..."

  /** The test of the lookup loop. Its log line reads `service_id` and `name`
      of every entry it visits, so an entry without a name raises. */
  function ListingTest(serviceId: string): Dict -> Result<bool, Error> {
    (s: Dict) =>
      if "service_id" !in s then Err(MissingKey("service_id"))
      else if "name" !in s then Err(MissingKey("name"))
      else Ok(s["service_id"] == JStr(serviceId))
  }

  /** Values `len()` accepts. */
  predicate HasLength(v: Json) {
    v.JStr? || v.JArr? || v.JObj?
  }

  /** The `try` block of `list_service_tools`: the backend's tool list, whose
      length is logged, and the reply built from it. Every exception inside
      becomes the 'Failed to discover tools' answer. */
  function Discover(service: Dict, serviceId: string, backend: Outcome, parse: Parser): (r: ToolsReply)
    requires "name" in service
    ensures r.ToolsDiscovered? <==>
      MakeRequest(backend, parse).Ok? && HasLength(MakeRequest(backend, parse).value) && "url" in service
    ensures r.ToolsDiscovered? ==>
      r == ToolsDiscovered(serviceId, service["name"], service["url"], MakeRequest(backend, parse).value)
    ensures !r.ToolsDiscovered? ==> r.DiscoveryFailed? && r.name == service["name"]
    ensures MakeRequest(backend, parse).Err? ==> r == DiscoveryFailed(service["name"], MakeRequest(backend, parse).error)
  {
    match MakeRequest(backend, parse)
    case Err(e) => DiscoveryFailed(service["name"], e)
    case Ok(tools) =>
      if !HasLength(tools) then DiscoveryFailed(service["name"], WrongShape)
      else if "url" !in service then DiscoveryFailed(service["name"], MissingKey("url"))
      else ToolsDiscovered(serviceId, service["name"], service["url"], tools)
  }

  /** `list_service_tools(service_id)` given the active deck and the backend's
      answer to the tool-discovery request. */
  function ServiceTools(deck: Json, serviceId: string, backend: Outcome, parse: Parser): (r: Result<ToolsReply, Error>)
    ensures DeckServices(deck).Err? ==> r == Err(DeckServices(deck).error)
    ensures r.Ok? && r.value.UnknownService? ==>
      r.value.serviceId == serviceId && DeckServices(deck).Ok? &&
      forall i :: 0 <= i < |DeckServices(deck).value| ==> DeckServices(deck).value[i]["service_id"] != JStr(serviceId)
    ensures r.Ok? && r.value.NotAnMcpService? ==> r.value.kind != JStr("mcp")
    ensures r.Ok? && r.value.ToolsDiscovered? ==> r.value.serviceId == serviceId && MakeRequest(backend, parse).Ok?
    ensures DeckServices(deck).Ok? && FirstHit(DeckServices(deck).value, ListingTest(serviceId)).Err? ==>
      r == Err(FirstHit(DeckServices(deck).value, ListingTest(serviceId)).error)
    ensures DeckServices(deck).Ok? && FirstHit(DeckServices(deck).value, ListingTest(serviceId)) == Ok(None) ==>
      r == Ok(UnknownService(serviceId))
    ensures DeckServices(deck).Ok? && FirstHit(DeckServices(deck).value, ListingTest(serviceId)).Ok? &&
            FirstHit(DeckServices(deck).value, ListingTest(serviceId)).value.Some? ==>
      var s := DeckServices(deck).value[FirstHit(DeckServices(deck).value, ListingTest(serviceId)).value.value];
      && s["service_id"] == JStr(serviceId) && "name" in s
      && ("type" !in s ==> r == Err(MissingKey("type")))
      && ("type" in s && s["type"] != JStr("mcp") ==> r == Ok(NotAnMcpService(s["name"], s["type"])))
      && ("type" in s && s["type"] == JStr("mcp") ==> r == Ok(Discover(s, serviceId, backend, parse)))
  {
    match DeckServices(deck)
    case Err(e) => Err(e)
    case Ok(services) =>
      match FirstHit(services, ListingTest(serviceId))
      case Err(e) => Err(e)
      case Ok(None) => Ok(UnknownService(serviceId))
      case Ok(Some(i)) =>
        var service := services[i];
        if "type" !in service then Err(MissingKey("type"))
        else if service["type"] != JStr("mcp") then Ok(NotAnMcpService(service["name"], service["type"]))
        else Ok(Discover(service, serviceId, backend, parse))
  }

  /** `list_service_tools`, with its lookup loop. */
  method ListServiceTools(deck: Json, serviceId: string, backend: Outcome, parse: Parser) returns (r: Result<ToolsReply, Error>)
    ensures r == ServiceTools(deck, serviceId, backend, parse)
  {
    var services := ActiveDeckServices(deck);
    if services.Err? {
      return Err(services.error);
    }
    var found := FindFirst(services.value, ListingTest(serviceId));
    if found.Err? {
      return Err(found.error);
    }
    if found.value.None? {
      return Ok(UnknownService(serviceId));
    }
    var service := services.value[found.value.value];
    if "type" !in service {
      return Err(MissingKey("type"));
    }
    if service["type"] != JStr("mcp") {
      return Ok(NotAnMcpService(service["name"], service["type"]));
    }
    r := Ok(Discover(service, serviceId, backend, parse));
  }

  /** When every service of the deck has a name, `list_service_tools` looks
      up the same service as the router, and reports an unknown id exactly
      when the router raises 'Service not found in active deck'. */
  lemma {:induction false} SameLookupAsRouter(deck: Json, serviceId: string, backend: Outcome, parse: Parser)
    requires DeckServices(deck).Ok?
    requires forall i :: 0 <= i < |DeckServices(deck).value| ==> "name" in DeckServices(deck).value[i]
    ensures ServiceTools(deck, serviceId, backend, parse) == Ok(UnknownService(serviceId)) <==>
      ResolveService(deck, serviceId) == Err(ServiceNotFound)
    ensures ResolveService(deck, serviceId).Ok? ==>
      FirstHit(DeckServices(deck).value, ListingTest(serviceId)) == FirstHit(DeckServices(deck).value, ServiceTest(serviceId))
  {
    var services := DeckServices(deck).value;
    SameHits(services, ListingTest(serviceId), ServiceTest(serviceId));
  }

  /** Two tests that agree on every element find the same first hit. */
  lemma {:induction false} SameHits<A>(xs: seq<A>, t1: A -> Result<bool, Error>, t2: A -> Result<bool, Error>)
    requires forall i :: 0 <= i < |xs| ==> t1(xs[i]) == t2(xs[i])
    ensures FirstHit(xs, t1) == FirstHit(xs, t2)
    decreases |xs|
  {
    if xs != [] {
      assert forall i :: 0 <= i < |xs[1..]| ==> xs[1..][i] == xs[i + 1];
      SameHits(xs[1..], t1, t2);
    }
  }

  /** The backend is asked for tools only about an 'mcp' service: unless the
      router resolves the id to an 'mcp' service, the backend's answer
      changes nothing. */
  lemma BackendAskedOnlyForMcp(deck: Json, serviceId: string, b1: Outcome, b2: Outcome, parse: Parser)
    ensures || ServiceTools(deck, serviceId, b1, parse) == ServiceTools(deck, serviceId, b2, parse)
            || (ResolveService(deck, serviceId).Ok? && "type" in ResolveService(deck, serviceId).value &&
                ResolveService(deck, serviceId).value["type"] == JStr("mcp"))
  {
    if DeckServices(deck).Ok? {
      var services := DeckServices(deck).value;
      var hit := FirstHit(services, ListingTest(serviceId));
      if hit.Ok? && hit.value.Some? {
        var s := services[hit.value.value];
        if "type" in s && s["type"] == JStr("mcp") {
          SameHitsWhenNamed(services, serviceId);
          assert ResolveService(deck, serviceId) == Ok(s);
        }
      }
    }
  }

  /** Wherever the listing's lookup finds an entry, the router's finds the same. */
  lemma {:induction false} SameHitsWhenNamed(services: seq<Dict>, serviceId: string)
    requires forall i :: 0 <= i < |services| ==> "service_id" in services[i]
    requires FirstHit(services, ListingTest(serviceId)).Ok?
    ensures FirstHit(services, ServiceTest(serviceId)) == FirstHit(services, ListingTest(serviceId))
    decreases |services|
  {
    if services != [] && ListingTest(serviceId)(services[0]) == Ok(false) {
      assert forall i :: 0 <= i < |services[1..]| ==> services[1..][i] == services[i + 1];
      SameHitsWhenNamed(services[1..], serviceId);
    }
  }
}
