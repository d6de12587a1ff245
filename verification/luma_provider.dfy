/**
 * The Luma adapter (providers/luma/provider.py) over the Luma transport:
 * the endpoint each operation calls, the parameters or body it builds,
 * and how it unwraps the reply.
 */
module LumaAdapter {
  import opened Json
  import opened Errors
  import opened Providers
  import opened LumaTransport

  const Name := "luma"

  /**
   * The capability set names `LIST_EVENTS`, which the enum does not
   * define, so reading it raises AttributeError (the first missing member
   * of the set display).
   */
  const CapabilitiesError := Fault("AttributeError: LIST_EVENTS")

  const NoGetMessage := "AttributeError: response has no attribute 'get'"

  function View(client: LumaClient): (p: ProviderView)
    ensures p.name == Name && p.authenticated == client.IsAuthenticated()
    ensures p.capabilities == Err(CapabilitiesError)
  {
    ProviderView(Name, client.IsAuthenticated(), Err(CapabilitiesError))
  }

  /** `data.get(key, data)`: the entry when the reply is an object holding it, else the whole reply. */
  function Unwrap(r: Result<Value>, key: string): (u: Result<Value>)
    ensures r.Err? ==> u == r
    ensures r.Ok? && r.value.Obj? && key in r.value.fields ==> u == Ok(r.value.fields[key])
    ensures r.Ok? && r.value.Obj? && key !in r.value.fields ==> u == r
    ensures r.Ok? && !r.value.Obj? ==> u == Err(Fault(NoGetMessage))
  {
    match r
    case Err(_) => r
    case Ok(Obj(f)) => if key in f then Ok(f[key]) else r
    case Ok(_) => Err(Fault(NoGetMessage))
  }

  /** The exchange with its result unwrapped. */
  function Unwrapped(x: Exchange, key: string): Exchange {
    Exchange(x.sent, Unwrap(x.result, key))
  }

  /** The pagination parameters: each key only when its argument is given, and `None` for an empty dict. */
  predicate IsPageParams(params: Option<Object>, after: Option<string>, limit: Option<int>) {
    && (params.None? <==> after.None? && limit.None?)
    && (params.Some? ==>
          && params.value.Keys == Present("pagination_cursor", after.Some?) + Present("limit", limit.Some?)
          && OptField(params.value, "pagination_cursor", OptStr(after))
          && OptField(params.value, "limit", OptInt(limit)))
  }

  /** `list_events` / `list_people`: fill `params`, then pass `params or None`. */
  method PageParams(after: Option<string>, limit: Option<int>) returns (params: Option<Object>)
    ensures IsPageParams(params, after, limit)
  {
    var p: Object := map[];
    if after.Some? {
      p := p["pagination_cursor" := Str(after.value)];
    }
    if limit.Some? {
      p := p["limit" := Int(limit.value)];
    }
    assert after.Some? ==> "pagination_cursor" in p;
    assert limit.Some? ==> "limit" in p;
    params := if p == map[] then None else Some(p);
  }

  /** A single-page GET with pagination parameters; the reply is returned as it is. */
  method ListPage(client: LumaClient, path: string, after: Option<string>, limit: Option<int>,
                  reply: HttpReply, show: Value -> string) returns (x: Exchange)
    ensures x.sent.Some? <==> client.IsAuthenticated()
    ensures x.sent.Some? ==>
              && x.sent.value.verb == GET && x.sent.value.url == client.Url(path)
              && IsPageParams(x.sent.value.data, after, limit)
    ensures x.result == client.Get(path, None, reply, show).result
  {
    var params := PageParams(after, limit);
    x := client.Get(path, params, reply, show);
  }

  method ListEvents(client: LumaClient, after: Option<string>, limit: Option<int>, reply: HttpReply, show: Value -> string)
    returns (x: Exchange)
    ensures x.sent.Some? <==> client.IsAuthenticated()
    ensures x.sent.Some? ==>
              && x.sent.value.verb == GET && x.sent.value.url == client.Url("/calendar/list-events")
              && IsPageParams(x.sent.value.data, after, limit)
    ensures x.result == client.Get("/calendar/list-events", None, reply, show).result
  {
    x := ListPage(client, "/calendar/list-events", after, limit, reply, show);
  }

  method ListPeople(client: LumaClient, after: Option<string>, limit: Option<int>, reply: HttpReply, show: Value -> string)
    returns (x: Exchange)
    ensures x.sent.Some? <==> client.IsAuthenticated()
    ensures x.sent.Some? ==>
              && x.sent.value.verb == GET && x.sent.value.url == client.Url("/calendar/list-people")
              && IsPageParams(x.sent.value.data, after, limit)
    ensures x.result == client.Get("/calendar/list-people", None, reply, show).result
  {
    x := ListPage(client, "/calendar/list-people", after, limit, reply, show);
  }

  /** `list_guests`: the event id is always present, so the parameters are never `None`. */
  method ListGuests(client: LumaClient, eventId: string, after: Option<string>, limit: Option<int>,
                    reply: HttpReply, show: Value -> string) returns (x: Exchange)
    ensures x.sent.Some? <==> client.IsAuthenticated()
    ensures x.sent.Some? ==>
              var p := x.sent.value.data;
              && x.sent.value.verb == GET && x.sent.value.url == client.Url("/event/get-guests")
              && p.Some?
              && p.value.Keys == {"event_api_id"} + Present("pagination_cursor", after.Some?) + Present("limit", limit.Some?)
              && p.value["event_api_id"] == Str(eventId)
              && OptField(p.value, "pagination_cursor", OptStr(after))
              && OptField(p.value, "limit", OptInt(limit))
    ensures x.result == client.Get("/event/get-guests", None, reply, show).result
  {
    var params: Object := map["event_api_id" := Str(eventId)];
    if after.Some? {
      params := params["pagination_cursor" := Str(after.value)];
    }
    if limit.Some? {
      params := params["limit" := Int(limit.value)];
    }
    x := client.Get("/event/get-guests", Some(params), reply, show);
  }

  function GetSelf(client: LumaClient, reply: HttpReply, show: Value -> string): Exchange {
    Unwrapped(client.Get("/user/get-self", None, reply, show), "user")
  }

  /** `get_event`: a GET of exactly `{api_id}`, the reply's `event` entry returned. */
  function GetEvent(client: LumaClient, eventId: string, reply: HttpReply, show: Value -> string): (x: Exchange)
    ensures x.sent.Some? <==> client.IsAuthenticated()
    ensures x.sent.Some? ==>
              && x.sent.value.verb == GET && x.sent.value.url == client.Url("/event/get")
              && x.sent.value.data == Some(map["api_id" := Str(eventId)])
    ensures x.result == Unwrap(client.Get("/event/get", None, reply, show).result, "event")
  {
    Unwrapped(client.Get("/event/get", Some(map["api_id" := Str(eventId)]), reply, show), "event")
  }

  /** `create_event`: a POST of the fields as given, the reply's `event` entry returned. */
  function CreateEventOp(client: LumaClient, kwargs: Object, reply: HttpReply, show: Value -> string): (x: Exchange)
    ensures x.sent.Some? <==> client.IsAuthenticated()
    ensures x.sent.Some? ==>
              && x.sent.value.verb == POST && x.sent.value.url == client.Url("/event/create")
              && x.sent.value.data == Some(kwargs)
    ensures x.result == Unwrap(client.Post("/event/create", None, reply, show).result, "event")
  {
    Unwrapped(client.Post("/event/create", Some(kwargs), reply, show), "event")
  }

  /** `update_event`: `kwargs["event_id"] = event_id` overrides any caller value. */
  method UpdateEventOp(client: LumaClient, eventId: string, kwargs: Object, reply: HttpReply, show: Value -> string)
    returns (x: Exchange)
    ensures x.sent.Some? <==> client.IsAuthenticated()
    ensures x.sent.Some? ==>
              var body := x.sent.value.data;
              && x.sent.value.verb == POST && x.sent.value.url == client.Url("/event/update")
              && body.Some?
              && body.value.Keys == kwargs.Keys + {"event_id"}
              && body.value["event_id"] == Str(eventId)
              && (forall k :: k in kwargs && k != "event_id" ==> body.value[k] == kwargs[k])
    ensures x.result == Unwrap(client.Post("/event/update", None, reply, show).result, "event")
  {
    var body := kwargs;
    body := body["event_id" := Str(eventId)];
    x := Unwrapped(client.Post("/event/update", Some(body), reply, show), "event");
  }

  /** `cancel_event`: posts exactly the event id and returns the reply unchanged. */
  function CancelEvent(client: LumaClient, eventId: string, reply: HttpReply, show: Value -> string): (x: Exchange)
    ensures x.sent.Some? <==> client.IsAuthenticated()
    ensures x.sent.Some? ==>
              && x.sent.value.verb == POST && x.sent.value.url == client.Url("/event/cancel")
              && x.sent.value.data == Some(map["event_id" := Str(eventId)])
    ensures x.result == client.Post("/event/cancel", None, reply, show).result
  {
    client.Post("/event/cancel", Some(map["event_id" := Str(eventId)]), reply, show)
  }

  // -----------------------------------------------------------------------
  // Properties
  // -----------------------------------------------------------------------

  /** No pagination argument means no parameters at all, not an empty dict. */
  lemma NoPageArgumentsNoParams(params: Option<Object>)
    requires IsPageParams(params, None, None)
    ensures params == None
  {
  }

  /** Single-event reads and writes return the `event` entry when the reply has one, else the whole reply. */
  lemma EventUnwrapped(client: LumaClient, eventId: string, reply: HttpReply, show: Value -> string, f: Object)
    requires client.IsAuthenticated() && reply.status < 400 && reply.body == Some(Obj(f))
    ensures GetEvent(client, eventId, reply, show).result == Ok(if "event" in f then f["event"] else Obj(f))
    ensures GetEvent(client, eventId, reply, show).sent ==
              Some(LumaRequest(GET, client.Url("/event/get"), Some(map["api_id" := Str(eventId)]), map[KeyHeader := client.apiKey]))
  {
  }

  /** Cancelling sends `{event_id: id}` and hands back the decoded reply without unwrapping. */
  lemma CancelPassesReplyThrough(client: LumaClient, eventId: string, reply: HttpReply, show: Value -> string, v: Value)
    requires client.IsAuthenticated() && reply.status < 400 && reply.body == Some(v)
    ensures CancelEvent(client, eventId, reply, show).result == Ok(v)
    ensures CancelEvent(client, eventId, reply, show).sent.value.data == Some(map["event_id" := Str(eventId)])
  {
  }

  /** A Luma error reply reaches the caller as a provider error, through the unwrap. */
  lemma ErrorNotUnwrapped(client: LumaClient, kwargs: Object, reply: HttpReply, show: Value -> string)
    requires client.IsAuthenticated() && reply.status >= 400
    ensures CreateEventOp(client, kwargs, reply, show).result.Err?
    ensures IsProviderError(CreateEventOp(client, kwargs, reply, show).result.error)
  {
  }
}
