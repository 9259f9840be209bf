/** The Agent Deck backend client (`AgentDeckAPIClient`) and the active-deck
    service list built from its answer (`get_active_deck_services`). The HTTP
    call to the backend itself is an input: its Outcome. */
module Backend {
  import opened Model
  import opened Scans

  const DefaultBaseUrl: string := "http://localhost:8000"

  /** `base_url.rstrip('/')`: every trailing slash removed, nothing else. */
  function StripTrailingSlashes(url: string): (r: string)
    ensures r <= url
    ensures r == [] || r[|r| - 1] != '/'
    ensures forall i :: |r| <= i < |url| ==> url[i] == '/'
    decreases |url|
  {
    if url != [] && url[|url| - 1] == '/' then StripTrailingSlashes(url[..|url| - 1]) else url
  }

  /** The URL `_make_request` calls: the stripped base followed by the endpoint. */
  function EndpointUrl(baseUrl: string, endpoint: string): string {
    StripTrailingSlashes(baseUrl) + endpoint
  }

  /** A trailing slash given with the base URL does not change any URL the
      client calls. */
  lemma TrailingSlashIgnored(baseUrl: string, endpoint: string)
    ensures EndpointUrl(baseUrl + "/", endpoint) == EndpointUrl(baseUrl, endpoint)
  {
    assert (baseUrl + "/")[..|baseUrl|] == baseUrl;
  }

  /** The client built with no argument calls the backend at localhost:8000. */
  lemma DefaultClientUrl(endpoint: string)
    ensures EndpointUrl(DefaultBaseUrl, endpoint) == "http://localhost:8000" + endpoint
  {
  }

  /** The answer of `_make_request` once the call has been made: transport
      failures become 'Failed to communicate with backend', a body whose
      `success` is falsy (or absent) becomes 'API Error' with the body's
      `error` or 'Unknown API error', and otherwise `data` (None if absent). */
  function MakeRequest(o: Outcome, parse: Parser): (r: Result<Json, Error>)
    ensures Received(o, parse).Err? ==> r == Err(BackendUnreachable(Received(o, parse).error))
    ensures r.Ok? ==>
      Received(o, parse).Ok? && Received(o, parse).value.JObj? &&
        var body := Received(o, parse).value.fields;
        Truthy(Get(body, "success", JBool(false))) && r.value == Get(body, "data", JNull)
    ensures r.Err? && r.error.BackendApiError? ==>
      Received(o, parse).Ok? && Received(o, parse).value.JObj? &&
        var body := Received(o, parse).value.fields;
        !Truthy(Get(body, "success", JBool(false))) &&
        r.error.message == (if "error" in body then body["error"] else JStr("Unknown API error"))
    ensures Received(o, parse).Ok? && !Received(o, parse).value.JObj? ==> r == Err(WrongShape)
    ensures Received(o, parse).Ok? && Received(o, parse).value.JObj? ==>
      var body := Received(o, parse).value.fields;
      && (Truthy(Get(body, "success", JBool(false))) ==> r == Ok(Get(body, "data", JNull)))
      && (!Truthy(Get(body, "success", JBool(false))) ==> r == Err(BackendApiError(Get(body, "error", JStr("Unknown API error")))))
  {
    match Received(o, parse)
    case Err(f) => Err(BackendUnreachable(f))
    case Ok(JObj(body)) =>
      if !Truthy(Get(body, "success", JBool(false))) then
        Err(BackendApiError(Get(body, "error", JStr("Unknown API error"))))
      else Ok(Get(body, "data", JNull))
    case Ok(_) => Err(WrongShape)
  }

  /** `get_active_deck`: any exception is swallowed and reads as None. */
  function ActiveDeck(o: Outcome, parse: Parser): (deck: Json)
    ensures MakeRequest(o, parse).Err? ==> deck == JNull
    ensures MakeRequest(o, parse).Ok? ==> deck == MakeRequest(o, parse).value
    ensures Truthy(deck) ==> MakeRequest(o, parse) == Ok(deck)
  {
    match MakeRequest(o, parse)
    case Ok(data) => data
    case Err(_) => JNull
  }

  /** The elements a `for` loop yields from `v`, when each element is then
      subscripted with a string key: iterating a non-empty dict or string
      yields strings, whose subscript raises TypeError, and None, numbers and
      booleans are not iterable at all. */
  function SubscriptedItems(v: Json): Result<seq<Json>, Error> {
    match v
    case JArr(items) => Ok(items)
    case JObj(fields) => if fields == map[] then Ok([]) else Err(WrongShape)
    case JStr(s) => if s == "" then Ok([]) else Err(WrongShape)
    case _ => Err(WrongShape)
  }

  /** `{"service_id": service["id"], **service}`: the service's own keys win,
      so an entry that already has a `service_id` keeps it. */
  function ServiceEntry(service: Json): (r: Result<Dict, Error>)
    ensures r.Ok? <==> service.JObj? && "id" in service.fields
    ensures !service.JObj? ==> r == Err(WrongShape)
    ensures service.JObj? && "id" !in service.fields ==> r == Err(MissingKey("id"))
    ensures r.Ok? ==>
      var s := service.fields;
      r.value.Keys == s.Keys + {"service_id"} &&
      r.value["service_id"] == (if "service_id" in s then s["service_id"] else s["id"]) &&
      forall k :: k in s ==> r.value[k] == s[k]
  {
    match service
    case JObj(s) =>
      if "id" in s then Ok(map["service_id" := s["id"]] + s) else Err(MissingKey("id"))
    case _ => Err(WrongShape)
  }

  /** `get_active_deck_services()` given what `get_active_deck()` returned. */
  function DeckServices(deck: Json): (r: Result<seq<Dict>, Error>)
    ensures !Truthy(deck) ==> r == Ok([])
    ensures Truthy(deck) && !deck.JObj? ==> r == Err(WrongShape)
    ensures r.Ok? ==> forall i :: 0 <= i < |r.value| ==> "service_id" in r.value[i]
    ensures r.Ok? && Truthy(deck) ==>
      deck.JObj? && SubscriptedItems(Get(deck.fields, "services", JArr([]))).Ok? &&
      var items := SubscriptedItems(Get(deck.fields, "services", JArr([]))).value;
      |r.value| == |items| && forall i :: 0 <= i < |items| ==> ServiceEntry(items[i]) == Ok(r.value[i])
  {
    if !Truthy(deck) then Ok([])
    else match deck
      case JObj(d) =>
        (match SubscriptedItems(Get(d, "services", JArr([])))
         case Err(e) => Err(e)
         case Ok(items) => Traverse(items, ServiceEntry))
      case _ => Err(WrongShape)
  }

  /** `get_active_deck_services`: one entry appended per service of the deck. */
  method ActiveDeckServices(deck: Json) returns (r: Result<seq<Dict>, Error>)
    ensures r == DeckServices(deck)
  {
    if !Truthy(deck) {
      return Ok([]);
    }
    if !deck.JObj? {
      return Err(WrongShape);
    }
    var items := SubscriptedItems(Get(deck.fields, "services", JArr([])));
    if items.Err? {
      return Err(items.error);
    }
    r := Collect(items.value, ServiceEntry);
  }

  /** Every service of a deck whose services all have an `id` shows up, in
      order, as `{"service_id": id, **service}`. */
  lemma {:induction false} DeckServicesKeepOrder(deck: Json)
    requires deck.JObj? && "services" in deck.fields && deck.fields["services"].JArr?
    requires forall i :: 0 <= i < |deck.fields["services"].items| ==> ServiceEntry(deck.fields["services"].items[i]).Ok?
    ensures var items := deck.fields["services"].items;
      DeckServices(deck).Ok? && |DeckServices(deck).value| == |items| &&
      forall i :: 0 <= i < |items| ==>
        DeckServices(deck).value[i] == ServiceEntry(items[i]).value
  {
    var items := deck.fields["services"].items;
    if items == [] {
      assert !Truthy(deck) || DeckServices(deck) == Ok([]);
    } else {
      assert Truthy(deck);
    }
  }
}
