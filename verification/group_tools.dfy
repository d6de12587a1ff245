/**
 * The group tools (tools/group_tools.py): the variables of the group search
 * and the branch of `meetup_list_my_groups`. The all-pages operation
 * `list_all_my_groups` is not defined by the Meetup adapter, so its outcome
 * is a parameter here.
 */
module GroupTools {
  import opened Json
  import opened Errors
  import opened MeetupAdapter

  function GroupArgs(query: string, first: int, lat: Option<real>, lon: Option<real>, after: Option<string>): seq<Arg> {
    [("query", Some(Str(query))), ("first", Some(Int(first))),
     ("lat", OptReal(lat)), ("lon", OptReal(lon)), ("after", OptStr(after))]
  }

  /** The `variables` of `meetup_search_groups`: query and page size, then the location and cursor when given. */
  method SearchGroupsVariables(query: string, lat: Option<real> := None, lon: Option<real> := None,
                               first: int := 20, after: Option<string> := None)
    returns (variables: Object)
    ensures variables == Given(GroupArgs(query, first, lat, lon, after))
  {
    ghost var args: seq<Arg> := [];
    variables := map["query" := Str(query), "first" := Int(first)];
    GivenAppend(args, ("query", Some(Str(query))));
    args := args + [("query", Some(Str(query)))];
    GivenAppend(args, ("first", Some(Int(first))));
    args := args + [("first", Some(Int(first)))];
    variables := Put(variables, "lat", OptReal(lat), args);
    args := args + [("lat", OptReal(lat))];
    variables := Put(variables, "lon", OptReal(lon), args);
    args := args + [("lon", OptReal(lon))];
    variables := Put(variables, "after", OptStr(after), args);
    args := args + [("after", OptStr(after))];
    assert args == GroupArgs(query, first, lat, lon, after);
  }

  /** `meetup_search_groups`: the adapter's search with the built variables, behind the tool boundary. */
  method MeetupSearchGroups(query: string, lat: Option<real>, lon: Option<real>, first: int, after: Option<string>,
                            data: Result<Value>)
    returns (call: Option<Call>, r: Result<Value>)
    ensures call == Some(Call(SearchGroupsQuery, Some(Given(GroupArgs(query, first, lat, lon, after)))))
    ensures r == ToolBoundary(PickFrom(data, "searchGroups"))
  {
    var variables := SearchGroupsVariables(query, lat, lon, first, after);
    var step := SearchGroupsOp(variables, data);
    call, r := step.call, ToolBoundary(step.result);
  }

  /**
   * `meetup_list_my_groups`: by default the all-pages operation with the
   * limit; otherwise one page of 50 through the adapter, the limit unused.
   * `page` is the adapter call made, if any.
   */
  function MeetupListMyGroups(limit: Option<int>, allPages: bool, allPagesOutcome: Result<Value>,
                              data: Result<Value>): (out: (Option<Call>, Result<Value>))
    ensures allPages ==> out == (None, ToolBoundary(allPagesOutcome))
    ensures !allPages ==> out.0 == Some(Call(ListMyGroupsQuery, Some(map["first" := Int(50)])))
    ensures !allPages ==> out.1 == ToolBoundary(PickFrom(PickFrom(data, "self"), "memberships"))
  {
    if allPages then (None, ToolBoundary(allPagesOutcome))
    else
      var step := ListMyGroups(map["first" := Int(50)], data);
      (step.call, ToolBoundary(step.result))
  }

  /** The single-page branch ignores the limit entirely. */
  lemma SinglePageIgnoresLimit(limit1: Option<int>, limit2: Option<int>, outcome: Result<Value>, data: Result<Value>)
    ensures MeetupListMyGroups(limit1, false, outcome, data) == MeetupListMyGroups(limit2, false, outcome, data)
  {
  }

  /** The search always sends the query and page size (20 by default), and each optional key only when given. */
  lemma GroupVariablesFields(query: string, first: int, lat: Option<real>, lon: Option<real>, after: Option<string>)
    ensures var d := Given(GroupArgs(query, first, lat, lon, after));
            && d.Keys == {"query", "first"} + Present("lat", lat.Some?) + Present("lon", lon.Some?)
                         + Present("after", after.Some?)
            && d["query"] == Str(query) && d["first"] == Int(first)
            && OptField(d, "lat", OptReal(lat)) && OptField(d, "lon", OptReal(lon))
            && OptField(d, "after", OptStr(after))
  {
    var args := GroupArgs(query, first, lat, lon, after);
    assert args[0].0 == "query" && args[1].0 == "first" && args[2].0 == "lat" && args[3].0 == "lon";
    assert args[4].0 == "after";
    AllFieldsGiven(args);
    forall k | k in Given(args) ensures k in {"query", "first", "lat", "lon", "after"} {
      GivenKeys(args, k);
    }
  }
}
