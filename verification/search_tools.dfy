/**
 * The search tools (tools/search_tools.py): the variables each builds,
 * step by step, before calling the Meetup adapter, and the conversion of
 * provider errors at the tool boundary.
 */
module SearchTools {
  import opened Json
  import opened Errors
  import opened MeetupAdapter

  /** The filter and variables of `meetup_search_events`. */
  method SearchEventsVariables(query: string, lat: real, lon: real,
                               startDate: Option<string> := None, endDate: Option<string> := None,
                               eventType: Option<string> := None, first: int := 20, after: Option<string> := None)
    returns (variables: Object)
    ensures variables.Keys == {"filter", "first"} + Present("after", after.Some?)
    ensures variables["first"] == Int(first)
    ensures OptField(variables, "after", OptStr(after))
    ensures variables["filter"].Obj?
    ensures var f := variables["filter"].fields;
            && f.Keys == {"query", "lat", "lon"} + Present("startDateRange", startDate.Some?)
                           + Present("endDateRange", endDate.Some?) + Present("eventType", eventType.Some?)
            && f["query"] == Str(query) && f["lat"] == Real(lat) && f["lon"] == Real(lon)
            && OptField(f, "startDateRange", OptStr(startDate))
            && OptField(f, "endDateRange", OptStr(endDate))
            && OptField(f, "eventType", OptStr(eventType))
  {
    var searchFilter: Object := map["query" := Str(query), "lat" := Real(lat), "lon" := Real(lon)];
    if startDate.Some? {
      searchFilter := searchFilter["startDateRange" := Str(startDate.value)];
    }
    if endDate.Some? {
      searchFilter := searchFilter["endDateRange" := Str(endDate.value)];
    }
    if eventType.Some? {
      searchFilter := searchFilter["eventType" := Str(eventType.value)];
    }
    variables := map["filter" := Obj(searchFilter), "first" := Int(first)];
    if after.Some? {
      variables := variables["after" := Str(after.value)];
    }
  }

  /** `meetup_search_events`: the adapter's search with the built variables, behind the tool boundary. */
  method MeetupSearchEvents(query: string, lat: real, lon: real, startDate: Option<string>, endDate: Option<string>,
                            eventType: Option<string>, first: int, after: Option<string>, data: Result<Value>)
    returns (call: Option<Call>, r: Result<Value>)
    ensures call.Some? && call.value.query == SearchEventsQuery && call.value.variables.Some?
    ensures var v := call.value.variables.value;
            && "first" in v && v["first"] == Int(first) && OptField(v, "after", OptStr(after))
            && "filter" in v && v["filter"].Obj? && "query" in v["filter"].fields
            && v["filter"].fields["query"] == Str(query)
    ensures r == ToolBoundary(PickFrom(data, "searchEvents"))
  {
    var variables := SearchEventsVariables(query, lat, lon, startDate, endDate, eventType, first, after);
    var step := SearchEventsOp(variables, data);
    call, r := step.call, ToolBoundary(step.result);
  }

  /** With only the required arguments, the search asks for 20 results and sends no optional key. */
  method SearchEventsDefaults(query: string, lat: real, lon: real) returns (variables: Object)
    ensures variables.Keys == {"filter", "first"} && variables["first"] == Int(20)
    ensures variables["filter"] == Obj(map["query" := Str(query), "lat" := Real(lat), "lon" := Real(lon)])
  {
    variables := SearchEventsVariables(query, lat, lon);
  }

  // -----------------------------------------------------------------------
  // Network search
  // -----------------------------------------------------------------------

  const MissingSettingMessage := "AttributeError: 'Settings' object has no attribute 'meetup_pro_network_urlname'"

  /**
   * `network_urlname or settings.meetup_pro_network_urlname` as written:
   * the settings define no such field, so the fallback raises.
   */
  function NetworkUrlnameAsWritten(networkUrlname: Option<string>): Result<string> {
    if networkUrlname.Some? && networkUrlname.value != "" then Ok(networkUrlname.value)
    else Err(Fault(MissingSettingMessage))
  }

  /** Omitting the network, or passing an empty name, fails instead of falling back. */
  lemma AsWrittenFallbackFails()
    ensures NetworkUrlnameAsWritten(None) == Err(Fault(MissingSettingMessage))
    ensures NetworkUrlnameAsWritten(Some("")) == Err(Fault(MissingSettingMessage))
  {
  }

  /** The evidently intended resolution: a truthy argument, else the configured network. */
  function NetworkUrlname(networkUrlname: Option<string>, configured: string): (u: string)
    ensures networkUrlname.Some? && networkUrlname.value != "" ==> u == networkUrlname.value
    ensures networkUrlname.None? || networkUrlname.value == "" ==> u == configured
  {
    if networkUrlname.Some? && networkUrlname.value != "" then networkUrlname.value else configured
  }

  /** The corrected resolution agrees with the code as written wherever the latter succeeds. */
  lemma CorrectedAgreesWhenGiven(networkUrlname: Option<string>, configured: string)
    ensures NetworkUrlnameAsWritten(networkUrlname).Ok? ==>
              NetworkUrlnameAsWritten(networkUrlname).value == NetworkUrlname(networkUrlname, configured)
    ensures NetworkUrlnameAsWritten(networkUrlname).Err? ==> NetworkUrlname(networkUrlname, configured) == configured
  {
  }

  /** The member filter is sent only when at least one of its three fields is given. */
  predicate MemberFilterGiven(query: Option<string>, roles: Option<seq<string>>, eventsAttendedMin: Option<int>) {
    query.Some? || roles.Some? || eventsAttendedMin.Some?
  }

  /** The member filter holds exactly the given fields among `query`, `roles` and `eventsAttendedMin`. */
  predicate IsMemberFilter(f: Object, query: Option<string>, roles: Option<seq<string>>, eventsAttendedMin: Option<int>) {
    && f.Keys == Present("query", query.Some?) + Present("roles", roles.Some?)
                 + Present("eventsAttendedMin", eventsAttendedMin.Some?)
    && OptField(f, "query", OptStr(query))
    && OptField(f, "roles", OptStrList(roles))
    && OptField(f, "eventsAttendedMin", OptInt(eventsAttendedMin))
  }

  /** The keys every network search sends, whatever its type. */
  predicate CommonVariables(v: Object, searchType: string, first: int, after: Option<string>) {
    && "search_type" in v && v["search_type"] == Str(searchType)
    && "first" in v && v["first"] == Int(first)
    && OptField(v, "after", OptStr(after))
    && "urlname" !in v
  }

  /** A members search: the filter only when non-empty, and `sort` only together with `desc`. */
  predicate MemberSearchVariables(v: Object, query: Option<string>, roles: Option<seq<string>>,
                                  eventsAttendedMin: Option<int>, sort: Option<string>, desc: bool, after: Option<string>) {
    var given := MemberFilterGiven(query, roles, eventsAttendedMin);
    && v.Keys == {"search_type", "first"} + Present("after", after.Some?) + Present("filter", given)
                 + Present("sort", sort.Some?) + Present("desc", sort.Some?)
    && (given ==> v["filter"].Obj? && IsMemberFilter(v["filter"].fields, query, roles, eventsAttendedMin))
    && (sort.Some? ==> v["sort"] == Str(sort.value) && v["desc"] == Bool(desc))
  }

  /** An events or groups search: only `query` besides the common keys. */
  predicate OtherSearchVariables(v: Object, query: Option<string>, after: Option<string>) {
    && v.Keys == {"search_type", "first"} + Present("after", after.Some?) + Present("query", query.Some?)
    && OptField(v, "query", OptStr(query))
  }

  method MemberFilter(query: Option<string>, roles: Option<seq<string>>, eventsAttendedMin: Option<int>)
    returns (f: Object)
    ensures IsMemberFilter(f, query, roles, eventsAttendedMin)
    ensures f != map[] <==> MemberFilterGiven(query, roles, eventsAttendedMin)
  {
    f := map[];
    if query.Some? {
      f := f["query" := Str(query.value)];
    }
    if roles.Some? {
      f := f["roles" := List(StrList(roles.value))];
    }
    if eventsAttendedMin.Some? {
      f := f["eventsAttendedMin" := Int(eventsAttendedMin.value)];
    }
    assert query.Some? ==> "query" in f;
    assert roles.Some? ==> "roles" in f;
  }

  /** The members branch of `meetup_network_search`, on top of the common keys. */
  method MemberVariables(base: Object, searchType: string, first: int, after: Option<string>,
                         query: Option<string>, roles: Option<seq<string>>,
                         eventsAttendedMin: Option<int>, sort: Option<string>, desc: bool)
    returns (variables: Object)
    requires base.Keys == {"search_type", "first"} + Present("after", after.Some?)
    requires CommonVariables(base, searchType, first, after)
    ensures CommonVariables(variables, searchType, first, after)
    ensures MemberSearchVariables(variables, query, roles, eventsAttendedMin, sort, desc, after)
  {
    variables := base;
    var memberFilter := MemberFilter(query, roles, eventsAttendedMin);
    if memberFilter != map[] {
      variables := variables["filter" := Obj(memberFilter)];
    }
    if sort.Some? {
      variables := variables["sort" := Str(sort.value)];
      variables := variables["desc" := Bool(desc)];
    }
  }

  /** The variables of `meetup_network_search`, `search_type` included for the adapter to pop. */
  method NetworkSearchVariables(searchType: string, query: Option<string> := None, roles: Option<seq<string>> := None,
                                eventsAttendedMin: Option<int> := None, sort: Option<string> := None,
                                desc: bool := true, first: int := 20, after: Option<string> := None)
    returns (variables: Object)
    ensures CommonVariables(variables, searchType, first, after)
    ensures searchType == "members" ==> MemberSearchVariables(variables, query, roles, eventsAttendedMin, sort, desc, after)
    ensures searchType != "members" ==> OtherSearchVariables(variables, query, after)
  {
    // `after` is inserted last in the source; maps keep no order, so inserting it first gives the same dict.
    variables := map["search_type" := Str(searchType), "first" := Int(first)];
    if after.Some? {
      variables := variables["after" := Str(after.value)];
    }
    if searchType == "members" {
      variables := MemberVariables(variables, searchType, first, after, query, roles, eventsAttendedMin, sort, desc);
    } else if query.Some? {
      variables := variables["query" := Str(query.value)];
    }
  }

  /**
   * `meetup_network_search` with the network name resolved as intended.
   * The adapter pops `search_type` and puts the resolved `urlname` first,
   * so the call carries exactly the variables built here with `urlname` in
   * place of `search_type`; the result is the search type's entry of
   * `proNetworkByUrlname`, behind the tool boundary. An unknown search
   * type raises `ValueError` before any call, and the boundary lets it through.
   */
  method MeetupNetworkSearch(searchType: string, networkUrlname: Option<string>, configured: string,
                             query: Option<string>, roles: Option<seq<string>>, eventsAttendedMin: Option<int>,
                             sort: Option<string>, desc: bool, first: int, after: Option<string>,
                             data: Result<Value>, show: Value -> string)
    returns (call: Option<Call>, r: Result<Value>)
    ensures call.Some? <==> searchType in {"events", "groups", "members"}
    ensures match SearchFor(Str(searchType), show)
            case Err(e) => call.None? && e.ValueError? && r == Err(e)
            case Ok((q, key)) =>
              && call.Some? && call.value.query == q
              && r == ToolBoundary(PickFrom(PickFrom(data, "proNetworkByUrlname"), key))
    ensures call.Some? ==>
              var v := call.value.variables;
              && v.Some? && "search_type" !in v.value
              && "urlname" in v.value && v.value["urlname"] == Str(NetworkUrlname(networkUrlname, configured))
              && var kw := (v.value - {"urlname"})["search_type" := Str(searchType)];
                 && CommonVariables(kw, searchType, first, after)
                 && (searchType == "members" ==> MemberSearchVariables(kw, query, roles, eventsAttendedMin, sort, desc, after))
                 && (searchType != "members" ==> OtherSearchVariables(kw, query, after))
  {
    var urlname := NetworkUrlname(networkUrlname, configured);
    var variables := NetworkSearchVariables(searchType, query, roles, eventsAttendedMin, sort, desc, first, after);
    var step := NetworkSearchOp(urlname, variables, data, show);
    call, r := step.call, ToolBoundary(step.result);
    if call.Some? {
      SearchTypeRestored(variables, call.value.variables.value, searchType);
    }
  }

  /** Taking `urlname` back out and `search_type` back in recovers the variables the adapter was given. */
  lemma SearchTypeRestored(variables: Object, sent: Object, searchType: string)
    requires "search_type" in variables && variables["search_type"] == Str(searchType) && "urlname" !in variables
    requires sent.Keys == (variables.Keys - {"search_type"}) + {"urlname"}
    requires forall k :: k in variables && k != "search_type" ==> sent[k] == variables[k]
    ensures (sent - {"urlname"})["search_type" := Str(searchType)] == variables
  {
    var kw := (sent - {"urlname"})["search_type" := Str(searchType)];
    assert kw.Keys == variables.Keys;
  }

  /** For events and groups the member-only arguments are dropped, whatever their values. */
  method NonMemberSearchIgnoresMemberArguments(query: Option<string>, roles: Option<seq<string>>,
                                               eventsAttendedMin: Option<int>, sort: Option<string>)
    returns (variables: Object)
    ensures "roles" !in variables && "filter" !in variables && "sort" !in variables && "desc" !in variables
    ensures "eventsAttendedMin" !in variables
  {
    variables := NetworkSearchVariables("groups", query, roles, eventsAttendedMin, sort);
  }
}
