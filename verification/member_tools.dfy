/**
 * The member tools (tools/member_tools.py). The provider operations they
 * call, `list_group_members` and `get_group_member`, are not defined by the
 * Meetup adapter, so their outcome is a parameter here; what is modelled is
 * the variables the list tool builds and the tool boundary.
 */
module MemberTools {
  import opened Json
  import opened Errors

  /** `[status]`: the status filter travels as a one-element list. */
  function StatusList(status: Option<string>): Option<Value> {
    match status
    case None => None
    case Some(s) => Some(List([Str(s)]))
  }

  function MemberArgs(first: int, after: Option<string>, status: Option<string>): seq<Arg> {
    [("first", Some(Int(first))), ("after", OptStr(after)), ("status", StatusList(status))]
  }

  /** The `variables` of `meetup_list_group_members`. */
  method MemberVariables(first: int := 20, after: Option<string> := None, status: Option<string> := None)
    returns (variables: Object)
    ensures variables == Given(MemberArgs(first, after, status))
  {
    ghost var args: seq<Arg> := [];
    variables := map["first" := Int(first)];
    GivenAppend(args, ("first", Some(Int(first))));
    args := args + [("first", Some(Int(first)))];
    variables := Put(variables, "after", OptStr(after), args);
    args := args + [("after", OptStr(after))];
    variables := Put(variables, "status", StatusList(status), args);
    args := args + [("status", StatusList(status))];
    assert args == MemberArgs(first, after, status);
  }

  /**
   * `meetup_list_group_members`: the variables built, and the outcome of the
   * provider call behind the tool boundary.
   */
  method MeetupListGroupMembers(groupUrlname: string, first: int, after: Option<string>, status: Option<string>,
                                outcome: Result<Value>)
    returns (variables: Object, r: Result<Value>)
    ensures variables == Given(MemberArgs(first, after, status))
    ensures r == ToolBoundary(outcome)
  {
    variables := MemberVariables(first, after, status);
    r := ToolBoundary(outcome);
  }

  /** `meetup_get_member`: a pass-through of the provider call behind the tool boundary. */
  function MeetupGetMember(outcome: Result<Value>): (r: Result<Value>)
    ensures outcome.Ok? ==> r == outcome
    ensures outcome.Err? && IsProviderError(outcome.error) ==> r == Err(ToolError(outcome.error.message))
    ensures outcome.Err? && !IsProviderError(outcome.error) ==> r == outcome
  {
    ToolBoundary(outcome)
  }

  /** The page size is always sent (20 by default); the cursor and the one-element status list only when given. */
  lemma MemberVariablesFields(first: int, after: Option<string>, status: Option<string>)
    ensures var d := Given(MemberArgs(first, after, status));
            && d.Keys == {"first"} + Present("after", after.Some?) + Present("status", status.Some?)
            && d["first"] == Int(first)
            && OptField(d, "after", OptStr(after))
            && (status.Some? ==> d["status"] == List([Str(status.value)]))
  {
    var args := MemberArgs(first, after, status);
    assert args[0].0 == "first" && args[1].0 == "after" && args[2].0 == "status";
    AllFieldsGiven(args);
    forall k | k in Given(args) ensures k in {"first", "after", "status"} {
      GivenKeys(args, k);
    }
  }
}
