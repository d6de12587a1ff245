/**
 * The Luma tools (tools/luma_tools.py): the body each write tool builds
 * from its optional arguments, the adapter operation it calls, and the
 * conversion of provider errors at the tool boundary.
 */
module LumaTools {
  import opened Json
  import opened Errors
  import opened LumaTransport
  import opened LumaAdapter

  /** The arguments of `luma_create_event` in the order it writes them; the first four are always given. */
  function CreateArgs(name: string, startAt: string, endAt: string, visibility: string,
                      description: Option<string>, timezone: Option<string>, geoAddressJson: Option<Object>,
                      geoLatitude: Option<string>, geoLongitude: Option<string>, meetingUrl: Option<string>): seq<Arg> {
    [("name", Some(Str(name))), ("start_at", Some(Str(startAt))), ("end_at", Some(Str(endAt))),
     ("visibility", Some(Str(visibility))),
     ("description_md", OptStr(description)), ("timezone", OptStr(timezone)),
     ("geo_address_json", OptObj(geoAddressJson)), ("geo_latitude", OptStr(geoLatitude)),
     ("geo_longitude", OptStr(geoLongitude)), ("meeting_url", OptStr(meetingUrl))]
  }

  /** The arguments of `luma_update_event` in the order it writes them; none is required. */
  function UpdateArgs(name: Option<string>, description: Option<string>, startAt: Option<string>,
                      endAt: Option<string>, timezone: Option<string>, geoAddressJson: Option<Object>,
                      geoLatitude: Option<string>, geoLongitude: Option<string>, meetingUrl: Option<string>,
                      visibility: Option<string>): seq<Arg> {
    [("name", OptStr(name)), ("description_md", OptStr(description)), ("start_at", OptStr(startAt)),
     ("end_at", OptStr(endAt)), ("timezone", OptStr(timezone)), ("geo_address_json", OptObj(geoAddressJson)),
     ("geo_latitude", OptStr(geoLatitude)), ("geo_longitude", OptStr(geoLongitude)),
     ("meeting_url", OptStr(meetingUrl)), ("visibility", OptStr(visibility))]
  }

  /** The four-entry dict display of `luma_create_event` is the run of its entries, each given. */
  lemma DisplayIsGiven(args: seq<Arg>)
    requires |args| == 4 && forall i :: 0 <= i < 4 ==> args[i].1.Some?
    ensures Given(args) == map[args[0].0 := args[0].1.value, args[1].0 := args[1].1.value,
                               args[2].0 := args[2].1.value, args[3].0 := args[3].1.value]
  {
    GivenAppend(args[..0], args[0]);
    assert args[..0] + [args[0]] == args[..1];
    GivenAppend(args[..1], args[1]);
    assert args[..1] + [args[1]] == args[..2];
    GivenAppend(args[..2], args[2]);
    assert args[..2] + [args[2]] == args[..3];
    GivenAppend(args[..3], args[3]);
    assert args[..3] + [args[3]] == args;
  }

  /** The `input_data` of `luma_create_event`: name, times and visibility, then each optional field when given. */
  method CreateEventInput(name: string, startAt: string, endAt: string, description: Option<string> := None,
                          timezone: Option<string> := None, geoAddressJson: Option<Object> := None,
                          geoLatitude: Option<string> := None, geoLongitude: Option<string> := None,
                          meetingUrl: Option<string> := None, visibility: string := "public")
    returns (input: Object)
    ensures input == Given(CreateArgs(name, startAt, endAt, visibility, description, timezone, geoAddressJson,
                                      geoLatitude, geoLongitude, meetingUrl))
  {
    ghost var args: seq<Arg> := [("name", Some(Str(name))), ("start_at", Some(Str(startAt))),
                                 ("end_at", Some(Str(endAt))), ("visibility", Some(Str(visibility)))];
    input := map["name" := Str(name), "start_at" := Str(startAt), "end_at" := Str(endAt),
                 "visibility" := Str(visibility)];
    DisplayIsGiven(args);
    input := Put(input, "description_md", OptStr(description), args);
    args := args + [("description_md", OptStr(description))];
    input := Put(input, "timezone", OptStr(timezone), args);
    args := args + [("timezone", OptStr(timezone))];
    input := Put(input, "geo_address_json", OptObj(geoAddressJson), args);
    args := args + [("geo_address_json", OptObj(geoAddressJson))];
    input := Put(input, "geo_latitude", OptStr(geoLatitude), args);
    args := args + [("geo_latitude", OptStr(geoLatitude))];
    input := Put(input, "geo_longitude", OptStr(geoLongitude), args);
    args := args + [("geo_longitude", OptStr(geoLongitude))];
    input := Put(input, "meeting_url", OptStr(meetingUrl), args);
    args := args + [("meeting_url", OptStr(meetingUrl))];
    assert args == CreateArgs(name, startAt, endAt, visibility, description, timezone, geoAddressJson,
                              geoLatitude, geoLongitude, meetingUrl);
  }

  /** The `kwargs` of `luma_update_event`: exactly the fields given. */
  method UpdateEventKwargs(name: Option<string> := None, description: Option<string> := None,
                           startAt: Option<string> := None, endAt: Option<string> := None,
                           timezone: Option<string> := None, geoAddressJson: Option<Object> := None,
                           geoLatitude: Option<string> := None, geoLongitude: Option<string> := None,
                           meetingUrl: Option<string> := None, visibility: Option<string> := None)
    returns (kwargs: Object)
    ensures kwargs == Given(UpdateArgs(name, description, startAt, endAt, timezone, geoAddressJson,
                                       geoLatitude, geoLongitude, meetingUrl, visibility))
  {
    ghost var args: seq<Arg> := [];
    kwargs := map[];
    kwargs := Put(kwargs, "name", OptStr(name), args);
    args := args + [("name", OptStr(name))];
    kwargs := Put(kwargs, "description_md", OptStr(description), args);
    args := args + [("description_md", OptStr(description))];
    kwargs := Put(kwargs, "start_at", OptStr(startAt), args);
    args := args + [("start_at", OptStr(startAt))];
    kwargs := Put(kwargs, "end_at", OptStr(endAt), args);
    args := args + [("end_at", OptStr(endAt))];
    kwargs := Put(kwargs, "timezone", OptStr(timezone), args);
    args := args + [("timezone", OptStr(timezone))];
    kwargs := Put(kwargs, "geo_address_json", OptObj(geoAddressJson), args);
    args := args + [("geo_address_json", OptObj(geoAddressJson))];
    kwargs := Put(kwargs, "geo_latitude", OptStr(geoLatitude), args);
    args := args + [("geo_latitude", OptStr(geoLatitude))];
    kwargs := Put(kwargs, "geo_longitude", OptStr(geoLongitude), args);
    args := args + [("geo_longitude", OptStr(geoLongitude))];
    kwargs := Put(kwargs, "meeting_url", OptStr(meetingUrl), args);
    args := args + [("meeting_url", OptStr(meetingUrl))];
    kwargs := Put(kwargs, "visibility", OptStr(visibility), args);
    args := args + [("visibility", OptStr(visibility))];
    assert args == UpdateArgs(name, description, startAt, endAt, timezone, geoAddressJson,
                              geoLatitude, geoLongitude, meetingUrl, visibility);
  }

  // -----------------------------------------------------------------------
  // The tools
  // -----------------------------------------------------------------------

  method LumaListEvents(client: LumaClient, after: Option<string>, limit: Option<int>, reply: HttpReply,
                        show: Value -> string) returns (x: Exchange, r: Result<Value>)
    ensures x.sent.Some? <==> client.IsAuthenticated()
    ensures x.sent.Some? ==>
              && x.sent.value.verb == GET && x.sent.value.url == client.Url("/calendar/list-events")
              && IsPageParams(x.sent.value.data, after, limit)
    ensures r == ToolBoundary(client.Get("/calendar/list-events", None, reply, show).result)
  {
    x := ListEvents(client, after, limit, reply, show);
    r := ToolBoundary(x.result);
  }

  method LumaCreateEvent(client: LumaClient, name: string, startAt: string, endAt: string,
                         description: Option<string>, timezone: Option<string>, geoAddressJson: Option<Object>,
                         geoLatitude: Option<string>, geoLongitude: Option<string>, meetingUrl: Option<string>,
                         visibility: string, reply: HttpReply, show: Value -> string)
    returns (x: Exchange, r: Result<Value>)
    ensures x == LumaAdapter.CreateEventOp(client, Given(CreateArgs(name, startAt, endAt, visibility, description, timezone,
                                                       geoAddressJson, geoLatitude, geoLongitude, meetingUrl)), reply, show)
    ensures r == ToolBoundary(x.result)
  {
    var input := CreateEventInput(name, startAt, endAt, description, timezone, geoAddressJson,
                                  geoLatitude, geoLongitude, meetingUrl, visibility);
    x := LumaAdapter.CreateEventOp(client, input, reply, show);
    r := ToolBoundary(x.result);
  }

  method LumaUpdateEvent(client: LumaClient, eventId: string, name: Option<string>, description: Option<string>,
                         startAt: Option<string>, endAt: Option<string>, timezone: Option<string>,
                         geoAddressJson: Option<Object>, geoLatitude: Option<string>, geoLongitude: Option<string>,
                         meetingUrl: Option<string>, visibility: Option<string>, reply: HttpReply, show: Value -> string)
    returns (x: Exchange, r: Result<Value>)
    ensures x.sent.Some? <==> client.IsAuthenticated()
    ensures var kwargs := Given(UpdateArgs(name, description, startAt, endAt, timezone, geoAddressJson,
                                           geoLatitude, geoLongitude, meetingUrl, visibility));
            x.sent.Some? ==>
              var body := x.sent.value.data;
              && x.sent.value.verb == POST && x.sent.value.url == client.Url("/event/update")
              && body.Some?
              && body.value.Keys == kwargs.Keys + {"event_id"}
              && body.value["event_id"] == Str(eventId)
              && (forall k :: k in kwargs && k != "event_id" ==> body.value[k] == kwargs[k])
    ensures r == ToolBoundary(Unwrap(client.Post("/event/update", None, reply, show).result, "event"))
  {
    var kwargs := UpdateEventKwargs(name, description, startAt, endAt, timezone, geoAddressJson,
                                    geoLatitude, geoLongitude, meetingUrl, visibility);
    x := UpdateEventOp(client, eventId, kwargs, reply, show);
    r := ToolBoundary(x.result);
  }

  method LumaCancelEvent(client: LumaClient, eventId: string, reply: HttpReply, show: Value -> string)
    returns (x: Exchange, r: Result<Value>)
    ensures x == CancelEvent(client, eventId, reply, show)
    ensures r == ToolBoundary(x.result)
  {
    x := CancelEvent(client, eventId, reply, show);
    r := ToolBoundary(x.result);
  }

  method LumaListPeople(client: LumaClient, after: Option<string>, limit: Option<int>, reply: HttpReply,
                        show: Value -> string) returns (x: Exchange, r: Result<Value>)
    ensures x.sent.Some? <==> client.IsAuthenticated()
    ensures x.sent.Some? ==>
              && x.sent.value.verb == GET && x.sent.value.url == client.Url("/calendar/list-people")
              && IsPageParams(x.sent.value.data, after, limit)
    ensures r == ToolBoundary(client.Get("/calendar/list-people", None, reply, show).result)
  {
    x := ListPeople(client, after, limit, reply, show);
    r := ToolBoundary(x.result);
  }

  method LumaListGuests(client: LumaClient, eventId: string, after: Option<string>, limit: Option<int>,
                        reply: HttpReply, show: Value -> string) returns (x: Exchange, r: Result<Value>)
    ensures x.sent.Some? <==> client.IsAuthenticated()
    ensures x.sent.Some? ==>
              var p := x.sent.value.data;
              && x.sent.value.verb == GET && x.sent.value.url == client.Url("/event/get-guests")
              && p.Some?
              && p.value.Keys == {"event_api_id"} + Present("pagination_cursor", after.Some?) + Present("limit", limit.Some?)
              && p.value["event_api_id"] == Str(eventId)
              && OptField(p.value, "pagination_cursor", OptStr(after))
              && OptField(p.value, "limit", OptInt(limit))
    ensures r == ToolBoundary(client.Get("/event/get-guests", None, reply, show).result)
  {
    x := ListGuests(client, eventId, after, limit, reply, show);
    r := ToolBoundary(x.result);
  }

  // -----------------------------------------------------------------------
  // Properties
  // -----------------------------------------------------------------------

  const CreateKeys: set<string> := {
    "name", "start_at", "end_at", "visibility", "description_md", "timezone", "geo_address_json",
    "geo_latitude", "geo_longitude", "meeting_url"}

  lemma CreateKeysDistinct(args: seq<Arg>)
    requires |args| == 10
    requires args[0].0 == "name" && args[1].0 == "start_at" && args[2].0 == "end_at" && args[3].0 == "visibility"
    requires args[4].0 == "description_md" && args[5].0 == "timezone" && args[6].0 == "geo_address_json"
    requires args[7].0 == "geo_latitude" && args[8].0 == "geo_longitude" && args[9].0 == "meeting_url"
    ensures DistinctKeys(args)
  {
  }

  /**
   * The create body always carries name, times and visibility; the
   * description travels as `description_md`, and each other optional field
   * is present exactly when given.
   */
  lemma CreateInputFields(name: string, startAt: string, endAt: string, visibility: string,
                          description: Option<string>, timezone: Option<string>, geoAddressJson: Option<Object>,
                          geoLatitude: Option<string>, geoLongitude: Option<string>, meetingUrl: Option<string>)
    ensures var d := Given(CreateArgs(name, startAt, endAt, visibility, description, timezone, geoAddressJson,
                                      geoLatitude, geoLongitude, meetingUrl));
            && OptField(d, "name", Some(Str(name))) && OptField(d, "start_at", Some(Str(startAt)))
            && OptField(d, "end_at", Some(Str(endAt))) && OptField(d, "visibility", Some(Str(visibility)))
            && OptField(d, "description_md", OptStr(description)) && OptField(d, "timezone", OptStr(timezone))
            && OptField(d, "geo_address_json", OptObj(geoAddressJson))
            && OptField(d, "geo_latitude", OptStr(geoLatitude)) && OptField(d, "geo_longitude", OptStr(geoLongitude))
            && OptField(d, "meeting_url", OptStr(meetingUrl))
  {
    var args := CreateArgs(name, startAt, endAt, visibility, description, timezone, geoAddressJson,
                           geoLatitude, geoLongitude, meetingUrl);
    CreateKeysDistinct(args);
    AllFieldsGiven(args);
  }

  /** The create body never holds a plain `description` key, nor anything outside its ten fields. */
  lemma CreateInputKeys(name: string, startAt: string, endAt: string, visibility: string,
                        description: Option<string>, timezone: Option<string>, geoAddressJson: Option<Object>,
                        geoLatitude: Option<string>, geoLongitude: Option<string>, meetingUrl: Option<string>)
    ensures var d := Given(CreateArgs(name, startAt, endAt, visibility, description, timezone, geoAddressJson,
                                      geoLatitude, geoLongitude, meetingUrl));
            d.Keys <= CreateKeys && "description" !in d
  {
    var args := CreateArgs(name, startAt, endAt, visibility, description, timezone, geoAddressJson,
                           geoLatitude, geoLongitude, meetingUrl);
    forall k | k in Given(args) ensures k in CreateKeys {
      GivenKeys(args, k);
    }
  }

  /** Left to its default, a new Luma event is public. */
  method CreateEventDefaults(name: string, startAt: string, endAt: string) returns (input: Object)
    ensures input.Keys == {"name", "start_at", "end_at", "visibility"}
    ensures input["visibility"] == Str("public")
  {
    input := CreateEventInput(name, startAt, endAt);
    CreateInputFields(name, startAt, endAt, "public", None, None, None, None, None, None);
    CreateInputKeys(name, startAt, endAt, "public", None, None, None, None, None, None);
  }

  lemma UpdateKeysDistinct(args: seq<Arg>)
    requires |args| == 10
    requires args[0].0 == "name" && args[1].0 == "description_md" && args[2].0 == "start_at" && args[3].0 == "end_at"
    requires args[4].0 == "timezone" && args[5].0 == "geo_address_json" && args[6].0 == "geo_latitude"
    requires args[7].0 == "geo_longitude" && args[8].0 == "meeting_url" && args[9].0 == "visibility"
    ensures DistinctKeys(args)
  {
  }

  /** An update changes visibility only when asked to; the description travels as `description_md`. */
  lemma UpdateKwargsFields(name: Option<string>, description: Option<string>, startAt: Option<string>,
                           endAt: Option<string>, timezone: Option<string>, geoAddressJson: Option<Object>,
                           geoLatitude: Option<string>, geoLongitude: Option<string>, meetingUrl: Option<string>,
                           visibility: Option<string>)
    ensures var d := Given(UpdateArgs(name, description, startAt, endAt, timezone, geoAddressJson,
                                      geoLatitude, geoLongitude, meetingUrl, visibility));
            && OptField(d, "name", OptStr(name)) && OptField(d, "description_md", OptStr(description))
            && OptField(d, "start_at", OptStr(startAt)) && OptField(d, "end_at", OptStr(endAt))
            && OptField(d, "timezone", OptStr(timezone)) && OptField(d, "geo_address_json", OptObj(geoAddressJson))
            && OptField(d, "geo_latitude", OptStr(geoLatitude)) && OptField(d, "geo_longitude", OptStr(geoLongitude))
            && OptField(d, "meeting_url", OptStr(meetingUrl)) && OptField(d, "visibility", OptStr(visibility))
  {
    var args := UpdateArgs(name, description, startAt, endAt, timezone, geoAddressJson,
                           geoLatitude, geoLongitude, meetingUrl, visibility);
    UpdateKeysDistinct(args);
    AllFieldsGiven(args);
  }

  /** The update kwargs never name the event id, which the adapter sets, nor a plain `description`. */
  lemma UpdateKwargsKeys(name: Option<string>, description: Option<string>, startAt: Option<string>,
                         endAt: Option<string>, timezone: Option<string>, geoAddressJson: Option<Object>,
                         geoLatitude: Option<string>, geoLongitude: Option<string>, meetingUrl: Option<string>,
                         visibility: Option<string>)
    ensures var d := Given(UpdateArgs(name, description, startAt, endAt, timezone, geoAddressJson,
                                      geoLatitude, geoLongitude, meetingUrl, visibility));
            "event_id" !in d && "description" !in d
  {
    var args := UpdateArgs(name, description, startAt, endAt, timezone, geoAddressJson,
                           geoLatitude, geoLongitude, meetingUrl, visibility);
    GivenKeys(args, "event_id");
    GivenKeys(args, "description");
  }
}
