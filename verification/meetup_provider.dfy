/**
 * The Meetup adapter (providers/meetup/provider.py). Every operation makes
 * at most one `execute(query, variables)` call on the GraphQL client; the
 * model records that call and takes what `execute` returned for it (the
 * `data` value, or the error it raised) as an input, so the adapter's own
 * logic is what is stated: the dispatch tables, the variables it sends,
 * the keys it reads back and the mutation-error check.
 */
module MeetupAdapter {
  import opened Json
  import opened Errors
  import opened Providers
  import MeetupTransport

  /** The query documents of queries.py, kept opaque. */
  datatype Query =
    | SelfQuery | GroupByUrlname | SearchGroupsQuery | ListMyGroupsQuery | EventById | SearchEventsQuery
    | CreateEventMutation | UpdateEventMutation | DeleteEventMutation | PublishEventMutation
    | AnnounceEventMutation | CloseEventRsvpsMutation | OpenEventRsvpsMutation | CreateVenueMutation
    | NetworkByUrlname | NetworkSearchEvents | NetworkSearchGroups | NetworkSearchMembers

  /** One `execute(query, variables)` call; `None` variables is the call without them. */
  datatype Call = Call(query: Query, variables: Option<Object>)

  /** What an adapter operation did: the call it made, if any, and what it returned or raised. */
  datatype Step = Step(call: Option<Call>, result: Result<Value>)

  const Name := "meetup"
  const MutationPrefix := "Mutation failed: "
  const MissingKeyMessage := "KeyError: key not in response data"
  const NotSubscriptableMessage := "TypeError: response data is not subscriptable by key"
  const ResultNoGetMessage := "AttributeError: mutation result has no attribute 'get'"
  const UnhashableMessage := "TypeError: unhashable search_type"
  const ActionChoices := "['delete', 'publish', 'announce', 'close_rsvps', 'open_rsvps']"
  const SearchChoices := "['events', 'groups', 'members']"

  const MeetupCapabilities: set<Capability> := {
    SearchEvents, SearchGroups, ListGroups, CreateEvent, EditEvent, DeleteEvent,
    PublishEvent, AnnounceEvent, ManageRsvps, CreateVenue, NetworkSearch, UserProfile}

  /**
   * The provider as the registry and `list_platforms` see it: authentication
   * is delegated to the client, hence to whether the token store holds a record.
   */
  function View(client: MeetupTransport.MeetupGraphQLClient): (p: ProviderView)
    reads client.store
    ensures p.name == Name
    ensures p.authenticated <==> client.store.tokenData.Some?
    ensures p.capabilities == Ok(MeetupCapabilities)
  {
    ProviderView(Name, client.IsAuthenticated(), Ok(MeetupCapabilities))
  }

  /** `data[key]`: a dict holding the key, or a KeyError / TypeError. */
  function Pick(v: Value, key: string): (r: Result<Value>)
    ensures r.Ok? <==> v.Obj? && key in v.fields
    ensures r.Ok? ==> r.value == v.fields[key]
    ensures r.Err? ==> r.error.Fault?
  {
    match v
    case Obj(f) => if key in f then Ok(f[key]) else Err(Fault(MissingKeyMessage))
    case _ => Err(Fault(NotSubscriptableMessage))
  }

  /** `Pick` after a call that may itself have raised. */
  function PickFrom(r: Result<Value>, key: string): Result<Value> {
    match r
    case Err(e) => Err(e)
    case Ok(v) => Pick(v, key)
  }

  /**
   * `_check_mutation_errors`: a falsy `errors` entry (absent, `None`, an
   * empty list) passes; a truthy one is raised with its messages joined.
   */
  function CheckMutationErrors(result: Value, show: Value -> string): (e: Option<Error>)
    ensures e.None? <==> result.Obj? && !Truthy(Get(result.fields, "errors", Null))
    ensures !result.Obj? ==> e == Some(Fault(ResultNoGetMessage))
  {
    match result
    case Obj(f) =>
      var errors := Get(f, "errors", Null);
      if !Truthy(errors) then None
      else
        (match MeetupTransport.ErrorTexts(errors, show)
         case Err(x) => Some(x)
         case Ok(texts) => Some(GraphQLError(MutationPrefix + Join(texts, "; "), errors)))
    case _ => Some(Fault(ResultNoGetMessage))
  }

  /** Read `data[resultKey]`, check it for mutation errors, then return it or its `unwrap` entry. */
  function Mutated(data: Result<Value>, resultKey: string, unwrap: Option<string>, show: Value -> string): (r: Result<Value>)
    ensures r.Ok? <==>
              && data.Ok? && data.value.Obj? && resultKey in data.value.fields
              && data.value.fields[resultKey].Obj?
              && !Truthy(Get(data.value.fields[resultKey].fields, "errors", Null))
              && (unwrap.Some? ==> unwrap.value in data.value.fields[resultKey].fields)
    ensures r.Ok? ==> var result := data.value.fields[resultKey];
                      r.value == if unwrap.Some? then result.fields[unwrap.value] else result
    ensures data.Err? ==> r == data
  {
    match PickFrom(data, resultKey)
    case Err(e) => Err(e)
    case Ok(result) =>
      match CheckMutationErrors(result, show)
      case Some(e) => Err(e)
      case None => if unwrap.Some? then Pick(result, unwrap.value) else Ok(result)
  }

  function InputOf(fields: Object): Object {
    map["input" := Obj(fields)]
  }

  // -----------------------------------------------------------------------
  // Lookups
  // -----------------------------------------------------------------------

  function GetSelf(data: Result<Value>): Step {
    Step(Some(Call(SelfQuery, None)), PickFrom(data, "self"))
  }

  function GetGroup(urlname: string, data: Result<Value>): Step {
    Step(Some(Call(GroupByUrlname, Some(map["urlname" := Str(urlname)]))), PickFrom(data, "groupByUrlname"))
  }

  function SearchGroupsOp(kwargs: Object, data: Result<Value>): Step {
    Step(Some(Call(SearchGroupsQuery, Some(kwargs))), PickFrom(data, "searchGroups"))
  }

  function ListMyGroups(kwargs: Object, data: Result<Value>): Step {
    Step(Some(Call(ListMyGroupsQuery, Some(kwargs))), PickFrom(PickFrom(data, "self"), "memberships"))
  }

  function GetEvent(eventId: string, data: Result<Value>): Step {
    Step(Some(Call(EventById, Some(map["eventId" := Str(eventId)]))), PickFrom(data, "event"))
  }

  function SearchEventsOp(kwargs: Object, data: Result<Value>): Step {
    Step(Some(Call(SearchEventsQuery, Some(kwargs))), PickFrom(data, "searchEvents"))
  }

  function GetNetwork(urlname: string, data: Result<Value>): Step {
    Step(Some(Call(NetworkByUrlname, Some(map["urlname" := Str(urlname)]))), PickFrom(data, "proNetworkByUrlname"))
  }

  /** Every lookup sends its call and returns exactly the entry it names, failing when the entry is missing. */
  lemma LookupsReadTheirKey(data: Value, urlname: string, eventId: string, kwargs: Object)
    ensures GetSelf(Ok(data)).result.Ok? <==> data.Obj? && "self" in data.fields
    ensures GetGroup(urlname, Ok(data)).result.Ok? ==> GetGroup(urlname, Ok(data)).result.value == data.fields["groupByUrlname"]
    ensures GetEvent(eventId, Ok(data)).result.Ok? ==> GetEvent(eventId, Ok(data)).result.value == data.fields["event"]
    ensures ListMyGroups(kwargs, Ok(data)).result.Ok? <==>
              data.Obj? && "self" in data.fields && data.fields["self"].Obj? && "memberships" in data.fields["self"].fields
  {
  }

  // -----------------------------------------------------------------------
  // Mutations
  // -----------------------------------------------------------------------

  /** `create_event`: sends `{input: kwargs}` and returns the checked `createEvent.event`. */
  function CreateEventOp(kwargs: Object, data: Result<Value>, show: Value -> string): (step: Step)
    ensures step.call == Some(Call(CreateEventMutation, Some(map["input" := Obj(kwargs)])))
    ensures step.result.Ok? <==>
              && data.Ok? && data.value.Obj? && "createEvent" in data.value.fields
              && data.value.fields["createEvent"].Obj?
              && !Truthy(Get(data.value.fields["createEvent"].fields, "errors", Null))
              && "event" in data.value.fields["createEvent"].fields
    ensures step.result.Ok? ==> step.result.value == data.value.fields["createEvent"].fields["event"]
  {
    Step(Some(Call(CreateEventMutation, Some(InputOf(kwargs)))), Mutated(data, "createEvent", Some("event"), show))
  }

  /** `create_venue`: sends `{input: kwargs}` and returns the checked `createVenue.venue`. */
  function CreateVenueOp(kwargs: Object, data: Result<Value>, show: Value -> string): (step: Step)
    ensures step.call == Some(Call(CreateVenueMutation, Some(map["input" := Obj(kwargs)])))
    ensures step.result.Ok? <==>
              && data.Ok? && data.value.Obj? && "createVenue" in data.value.fields
              && data.value.fields["createVenue"].Obj?
              && !Truthy(Get(data.value.fields["createVenue"].fields, "errors", Null))
              && "venue" in data.value.fields["createVenue"].fields
    ensures step.result.Ok? ==> step.result.value == data.value.fields["createVenue"].fields["venue"]
  {
    Step(Some(Call(CreateVenueMutation, Some(InputOf(kwargs)))), Mutated(data, "createVenue", Some("venue"), show))
  }

  /** `edit_event`: `kwargs["eventId"] = event_id` overrides any caller value, then the input is sent. */
  method EditEventOp(eventId: string, kwargs: Object, data: Result<Value>, show: Value -> string) returns (step: Step)
    ensures step.call.Some? && step.call.value.query == UpdateEventMutation
    ensures step.call.value.variables.Some? && step.call.value.variables.value.Keys == {"input"}
    ensures var input := step.call.value.variables.value["input"];
            && input.Obj?
            && input.fields.Keys == kwargs.Keys + {"eventId"}
            && input.fields["eventId"] == Str(eventId)
            && (forall k :: k in kwargs && k != "eventId" ==> input.fields[k] == kwargs[k])
    ensures step.result == Mutated(data, "editEvent", Some("event"), show)
  {
    var input := kwargs;
    input := input["eventId" := Str(eventId)];
    step := Step(Some(Call(UpdateEventMutation, Some(InputOf(input)))), Mutated(data, "editEvent", Some("event"), show));
  }

  /** The `action_map` of `event_action`: the mutation and the key its result is read from. */
  function ActionFor(action: string): Option<(Query, string)> {
    if action == "delete" then Some((DeleteEventMutation, "deleteEvent"))
    else if action == "publish" then Some((PublishEventMutation, "publishEvent"))
    else if action == "announce" then Some((AnnounceEventMutation, "announceEvent"))
    else if action == "close_rsvps" then Some((CloseEventRsvpsMutation, "closeEventRsvps"))
    else if action == "open_rsvps" then Some((OpenEventRsvpsMutation, "openEventRsvps"))
    else None
  }

  function UnknownActionMessage(action: string): string {
    "Unknown action: " + action + ". Must be one of " + ActionChoices
  }

  /** `event_action`: an unknown action is refused before any call; a known one returns the whole result. */
  function EventAction(eventId: string, action: string, data: Result<Value>, show: Value -> string): (step: Step)
    ensures ActionFor(action).None? ==> step == Step(None, Err(ValueError(UnknownActionMessage(action))))
    ensures ActionFor(action).Some? ==>
              var (query, key) := ActionFor(action).value;
              && step.call == Some(Call(query, Some(map["input" := Obj(map["eventId" := Str(eventId)])])))
              && (step.result.Ok? <==>
                    data.Ok? && data.value.Obj? && key in data.value.fields && data.value.fields[key].Obj?
                    && !Truthy(Get(data.value.fields[key].fields, "errors", Null)))
              && (step.result.Ok? ==> step.result.value == data.value.fields[key])
  {
    match ActionFor(action)
    case None => Step(None, Err(ValueError(UnknownActionMessage(action))))
    case Some((query, key)) =>
      Step(Some(Call(query, Some(InputOf(map["eventId" := Str(eventId)])))), Mutated(data, key, None, show))
  }

  // -----------------------------------------------------------------------
  // Network search
  // -----------------------------------------------------------------------

  /** The `query_map` of `network_search`, keyed by the popped `search_type` value. */
  function SearchFor(searchType: Value, show: Value -> string): (r: Result<(Query, string)>)
    ensures r.Ok? <==> searchType in {Str("events"), Str("groups"), Str("members")}
    ensures r.Ok? ==> r.value.1 == searchType.s + "Search"
    ensures r.Err? && (searchType.List? || searchType.Obj?) ==> r.error.Fault?
    ensures r.Err? && !searchType.List? && !searchType.Obj? ==> r.error.ValueError?
  {
    match searchType
    case Str(s) =>
      if s == "events" then Ok((NetworkSearchEvents, "eventsSearch"))
      else if s == "groups" then Ok((NetworkSearchGroups, "groupsSearch"))
      else if s == "members" then Ok((NetworkSearchMembers, "membersSearch"))
      else Err(ValueError("Unknown search_type: " + s + ". Must be one of " + SearchChoices))
    case List(_) => Err(Fault(UnhashableMessage))
    case Obj(_) => Err(Fault(UnhashableMessage))
    case _ => Err(ValueError("Unknown search_type: " + show(searchType) + ". Must be one of " + SearchChoices))
  }

  /**
   * `network_search`: pops `search_type` (default "events"), builds
   * `{"urlname": network_urlname, **kwargs}`, and reads
   * `data["proNetworkByUrlname"][result_key]`.
   */
  method NetworkSearchOp(networkUrlname: string, kwargs: Object, data: Result<Value>, show: Value -> string)
    returns (step: Step)
    ensures var searchType := Get(kwargs, "search_type", Str("events"));
            match SearchFor(searchType, show)
            case Err(e) => step == Step(None, Err(e))
            case Ok((query, key)) =>
              && step.call.Some? && step.call.value.query == query
              && step.result == PickFrom(PickFrom(data, "proNetworkByUrlname"), key)
    ensures step.call.Some? ==>
              var vars := step.call.value.variables;
              && vars.Some?
              && vars.value.Keys == (kwargs.Keys - {"search_type"}) + {"urlname"}
              && vars.value["urlname"] == (if "urlname" in kwargs then kwargs["urlname"] else Str(networkUrlname))
              && (forall k :: k in kwargs && k != "search_type" ==> vars.value[k] == kwargs[k])
  {
    var searchType := Get(kwargs, "search_type", Str("events"));
    var rest := kwargs - {"search_type"};
    var variables := map["urlname" := Str(networkUrlname)] + rest;
    match SearchFor(searchType, show)
    case Err(e) =>
      step := Step(None, Err(e));
    case Ok((query, key)) =>
      step := Step(Some(Call(query, Some(variables))), PickFrom(PickFrom(data, "proNetworkByUrlname"), key));
  }

  // -----------------------------------------------------------------------
  // Properties
  // -----------------------------------------------------------------------

  /** `event_action` accepts exactly the five actions of its table. */
  lemma ActionTableExact(action: string)
    ensures ActionFor(action).Some? <==> action in {"delete", "publish", "announce", "close_rsvps", "open_rsvps"}
  {
  }

  /** An unknown action raises `ValueError` and makes no call, whatever the server would answer. */
  lemma UnknownActionSendsNothing(eventId: string, action: string, data: Result<Value>, show: Value -> string)
    requires action !in {"delete", "publish", "announce", "close_rsvps", "open_rsvps"}
    ensures EventAction(eventId, action, data, show) == Step(None, Err(ValueError(UnknownActionMessage(action))))
  {
  }

  /** A known action sends `{input: {eventId: id}}` and returns the whole result once it passes the check. */
  lemma ActionReturnsWholeResult(eventId: string, action: string, d: Object, show: Value -> string)
    requires ActionFor(action).Some?
    requires var key := ActionFor(action).value.1;
             key in d && d[key].Obj? && !Truthy(Get(d[key].fields, "errors", Null))
    ensures var step := EventAction(eventId, action, Ok(Obj(d)), show);
            && step.call == Some(Call(ActionFor(action).value.0, Some(map["input" := Obj(map["eventId" := Str(eventId)])])))
            && step.result == Ok(d[ActionFor(action).value.1])
  {
  }

  /** Unlike a top-level `errors` entry, an empty mutation `errors` list is not a failure. */
  lemma EmptyMutationErrorsPass(f: Object, show: Value -> string)
    requires "errors" in f && f["errors"] == List([])
    ensures CheckMutationErrors(Obj(f), show).None?
  {
  }

  /** Non-empty mutation errors with string messages are raised as one provider error naming them. */
  lemma MutationErrorsJoined(f: Object, texts: seq<string>, show: Value -> string)
    requires "errors" in f && Truthy(f["errors"]) && MeetupTransport.ErrorTexts(f["errors"], show) == Ok(texts)
    ensures CheckMutationErrors(Obj(f), show) == Some(GraphQLError(MutationPrefix + Join(texts, "; "), f["errors"]))
    ensures IsProviderError(CheckMutationErrors(Obj(f), show).value)
  {
  }

  /** A mutation that passes the check returns the named entry of its result. */
  lemma MutationUnwraps(kwargs: Object, d: Object, show: Value -> string)
    requires "createEvent" in d && d["createEvent"].Obj?
    requires !Truthy(Get(d["createEvent"].fields, "errors", Null)) && "event" in d["createEvent"].fields
    ensures CreateEventOp(kwargs, Ok(Obj(d)), show).result == Ok(d["createEvent"].fields["event"])
    ensures CreateEventOp(kwargs, Ok(Obj(d)), show).call == Some(Call(CreateEventMutation, Some(map["input" := Obj(kwargs)])))
  {
  }

  /** A failed mutation is never unwrapped: the provider error is what the caller sees. */
  lemma FailedMutationNotUnwrapped(kwargs: Object, d: Object, texts: seq<string>, show: Value -> string)
    requires "createVenue" in d && d["createVenue"].Obj?
    requires var f := d["createVenue"].fields;
             "errors" in f && Truthy(f["errors"]) && MeetupTransport.ErrorTexts(f["errors"], show) == Ok(texts)
    ensures CreateVenueOp(kwargs, Ok(Obj(d)), show).result ==
              Err(GraphQLError(MutationPrefix + Join(texts, "; "), d["createVenue"].fields["errors"]))
  {
    MutationErrorsJoined(d["createVenue"].fields, texts, show);
  }

  /** `network_search` accepts exactly three search types, and "events" when none is given. */
  lemma SearchTableExact(searchType: Value, show: Value -> string)
    ensures SearchFor(searchType, show).Ok? <==> searchType in {Str("events"), Str("groups"), Str("members")}
  {
  }
}
