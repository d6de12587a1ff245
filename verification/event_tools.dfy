/**
 * The event mutation tools (tools/event_tools.py): the input each builds
 * from its optional arguments, the adapter call it makes, and the
 * conversion of errors at the tool boundary.
 */
module EventTools {
  import opened Json
  import opened Errors
  import opened MeetupAdapter

  /** `{"rsvpLimit": rsvp_limit}` when a limit is given. */
  function RsvpSettings(rsvpLimit: Option<int>): Option<Value> {
    match rsvpLimit
    case None => None
    case Some(n) => Some(Obj(map["rsvpLimit" := Int(n)]))
  }

  /** The arguments of `meetup_create_event` in the order it writes them; the first six are always given. */
  function CreateArgs(groupUrlname: string, title: string, description: string, startDateTime: string,
                      duration: string, publishStatus: string, eventType: Option<string>, venueId: Option<string>,
                      rsvpLimit: Option<int>, question: Option<string>, hosts: Option<seq<string>>,
                      topics: Option<seq<string>>, proNetworkFilterId: Option<string>,
                      proNetworkTimezone: Option<string>): seq<Arg> {
    [("groupUrlname", Some(Str(groupUrlname))), ("title", Some(Str(title))),
     ("description", Some(Str(description))), ("startDateTime", Some(Str(startDateTime))),
     ("duration", Some(Str(duration))), ("publishStatus", Some(Str(publishStatus))),
     ("eventType", OptStr(eventType)), ("venueId", OptStr(venueId)), ("rsvpSettings", RsvpSettings(rsvpLimit)),
     ("question", OptStr(question)), ("hosts", OptStrList(hosts)), ("topics", OptStrList(topics)),
     ("proNetworkFilterId", OptStr(proNetworkFilterId)), ("proNetworkTimezone", OptStr(proNetworkTimezone))]
  }

  /** The arguments of `meetup_edit_event` in the order it writes them; none is required. */
  function EditArgs(title: Option<string>, description: Option<string>, startDateTime: Option<string>,
                    duration: Option<string>, eventType: Option<string>, venueId: Option<string>,
                    rsvpLimit: Option<int>, question: Option<string>, hosts: Option<seq<string>>,
                    topics: Option<seq<string>>): seq<Arg> {
    [("title", OptStr(title)), ("description", OptStr(description)), ("startDateTime", OptStr(startDateTime)),
     ("duration", OptStr(duration)), ("eventType", OptStr(eventType)), ("venueId", OptStr(venueId)),
     ("rsvpSettings", RsvpSettings(rsvpLimit)), ("question", OptStr(question)),
     ("hosts", OptStrList(hosts)), ("topics", OptStrList(topics))]
  }

  /** The six-entry dict display of `meetup_create_event` is the run of its entries, each given. */
  lemma DisplayIsGiven(args: seq<Arg>)
    requires |args| == 6 && forall i :: 0 <= i < 6 ==> args[i].1.Some?
    ensures Given(args) == map[args[0].0 := args[0].1.value, args[1].0 := args[1].1.value,
                               args[2].0 := args[2].1.value, args[3].0 := args[3].1.value,
                               args[4].0 := args[4].1.value, args[5].0 := args[5].1.value]
  {
    GivenAppend(args[..0], args[0]);
    assert args[..0] + [args[0]] == args[..1];
    GivenAppend(args[..1], args[1]);
    assert args[..1] + [args[1]] == args[..2];
    GivenAppend(args[..2], args[2]);
    assert args[..2] + [args[2]] == args[..3];
    GivenAppend(args[..3], args[3]);
    assert args[..3] + [args[3]] == args[..4];
    GivenAppend(args[..4], args[4]);
    assert args[..4] + [args[4]] == args[..5];
    GivenAppend(args[..5], args[5]);
    assert args[..5] + [args[5]] == args;
  }

  /** The `input_data` of `meetup_create_event`: the six required fields, then each optional one when given. */
  method CreateEventInput(groupUrlname: string, title: string, description: string, startDateTime: string,
                          duration: string := "PT2H", eventType: Option<string> := None, venueId: Option<string> := None,
                          publishStatus: string := "DRAFT", rsvpLimit: Option<int> := None,
                          question: Option<string> := None, hosts: Option<seq<string>> := None,
                          topics: Option<seq<string>> := None, proNetworkFilterId: Option<string> := None,
                          proNetworkTimezone: Option<string> := None)
    returns (input: Object)
    ensures input == Given(CreateArgs(groupUrlname, title, description, startDateTime, duration, publishStatus,
                                      eventType, venueId, rsvpLimit, question, hosts, topics,
                                      proNetworkFilterId, proNetworkTimezone))
  {
    ghost var args: seq<Arg> := [("groupUrlname", Some(Str(groupUrlname))), ("title", Some(Str(title))),
                                 ("description", Some(Str(description))), ("startDateTime", Some(Str(startDateTime))),
                                 ("duration", Some(Str(duration))), ("publishStatus", Some(Str(publishStatus)))];
    input := map["groupUrlname" := Str(groupUrlname), "title" := Str(title), "description" := Str(description),
                 "startDateTime" := Str(startDateTime), "duration" := Str(duration), "publishStatus" := Str(publishStatus)];
    DisplayIsGiven(args);
    input := Put(input, "eventType", OptStr(eventType), args);
    args := args + [("eventType", OptStr(eventType))];
    input := Put(input, "venueId", OptStr(venueId), args);
    args := args + [("venueId", OptStr(venueId))];
    input := Put(input, "rsvpSettings", RsvpSettings(rsvpLimit), args);
    args := args + [("rsvpSettings", RsvpSettings(rsvpLimit))];
    input := Put(input, "question", OptStr(question), args);
    args := args + [("question", OptStr(question))];
    input := Put(input, "hosts", OptStrList(hosts), args);
    args := args + [("hosts", OptStrList(hosts))];
    input := Put(input, "topics", OptStrList(topics), args);
    args := args + [("topics", OptStrList(topics))];
    input := Put(input, "proNetworkFilterId", OptStr(proNetworkFilterId), args);
    args := args + [("proNetworkFilterId", OptStr(proNetworkFilterId))];
    input := Put(input, "proNetworkTimezone", OptStr(proNetworkTimezone), args);
    args := args + [("proNetworkTimezone", OptStr(proNetworkTimezone))];
    assert args == CreateArgs(groupUrlname, title, description, startDateTime, duration, publishStatus,
                              eventType, venueId, rsvpLimit, question, hosts, topics,
                              proNetworkFilterId, proNetworkTimezone);
  }

  /** The `kwargs` of `meetup_edit_event`: exactly the fields given. */
  method EditEventKwargs(title: Option<string> := None, description: Option<string> := None,
                         startDateTime: Option<string> := None, duration: Option<string> := None,
                         eventType: Option<string> := None, venueId: Option<string> := None,
                         rsvpLimit: Option<int> := None, question: Option<string> := None,
                         hosts: Option<seq<string>> := None, topics: Option<seq<string>> := None)
    returns (kwargs: Object)
    ensures kwargs == Given(EditArgs(title, description, startDateTime, duration, eventType, venueId,
                                     rsvpLimit, question, hosts, topics))
  {
    ghost var args: seq<Arg> := [];
    kwargs := map[];
    kwargs := Put(kwargs, "title", OptStr(title), args);
    args := args + [("title", OptStr(title))];
    kwargs := Put(kwargs, "description", OptStr(description), args);
    args := args + [("description", OptStr(description))];
    kwargs := Put(kwargs, "startDateTime", OptStr(startDateTime), args);
    args := args + [("startDateTime", OptStr(startDateTime))];
    kwargs := Put(kwargs, "duration", OptStr(duration), args);
    args := args + [("duration", OptStr(duration))];
    kwargs := Put(kwargs, "eventType", OptStr(eventType), args);
    args := args + [("eventType", OptStr(eventType))];
    kwargs := Put(kwargs, "venueId", OptStr(venueId), args);
    args := args + [("venueId", OptStr(venueId))];
    kwargs := Put(kwargs, "rsvpSettings", RsvpSettings(rsvpLimit), args);
    args := args + [("rsvpSettings", RsvpSettings(rsvpLimit))];
    kwargs := Put(kwargs, "question", OptStr(question), args);
    args := args + [("question", OptStr(question))];
    kwargs := Put(kwargs, "hosts", OptStrList(hosts), args);
    args := args + [("hosts", OptStrList(hosts))];
    kwargs := Put(kwargs, "topics", OptStrList(topics), args);
    args := args + [("topics", OptStrList(topics))];
    assert args == EditArgs(title, description, startDateTime, duration, eventType, venueId,
                            rsvpLimit, question, hosts, topics);
  }

  // -----------------------------------------------------------------------
  // The tools
  // -----------------------------------------------------------------------

  /** `meetup_create_event`: the built input goes to the adapter; provider errors become tool errors. */
  method MeetupCreateEvent(groupUrlname: string, title: string, description: string, startDateTime: string,
                           duration: string, eventType: Option<string>, venueId: Option<string>,
                           publishStatus: string, rsvpLimit: Option<int>, question: Option<string>,
                           hosts: Option<seq<string>>, topics: Option<seq<string>>,
                           proNetworkFilterId: Option<string>, proNetworkTimezone: Option<string>,
                           data: Result<Value>, show: Value -> string)
    returns (call: Option<Call>, r: Result<Value>)
    ensures call == Some(Call(CreateEventMutation, Some(InputOf(Given(CreateArgs(
                      groupUrlname, title, description, startDateTime, duration, publishStatus, eventType, venueId,
                      rsvpLimit, question, hosts, topics, proNetworkFilterId, proNetworkTimezone))))))
    ensures r == ToolBoundary(Mutated(data, "createEvent", Some("event"), show))
  {
    var input := CreateEventInput(groupUrlname, title, description, startDateTime, duration, eventType, venueId,
                                  publishStatus, rsvpLimit, question, hosts, topics,
                                  proNetworkFilterId, proNetworkTimezone);
    var step := CreateEventOp(input, data, show);
    call, r := step.call, ToolBoundary(step.result);
  }

  /** `meetup_edit_event`: the given fields plus the event id go to the adapter. */
  method MeetupEditEvent(eventId: string, title: Option<string>, description: Option<string>,
                         startDateTime: Option<string>, duration: Option<string>, eventType: Option<string>,
                         venueId: Option<string>, rsvpLimit: Option<int>, question: Option<string>,
                         hosts: Option<seq<string>>, topics: Option<seq<string>>,
                         data: Result<Value>, show: Value -> string)
    returns (call: Option<Call>, r: Result<Value>)
    ensures call.Some? && call.value.query == UpdateEventMutation && call.value.variables.Some?
    ensures var kwargs := Given(EditArgs(title, description, startDateTime, duration, eventType, venueId,
                                         rsvpLimit, question, hosts, topics));
            var vars := call.value.variables.value;
            && vars.Keys == {"input"} && vars["input"].Obj?
            && vars["input"].fields.Keys == kwargs.Keys + {"eventId"}
            && vars["input"].fields["eventId"] == Str(eventId)
            && (forall k :: k in kwargs && k != "eventId" ==> vars["input"].fields[k] == kwargs[k])
    ensures r == ToolBoundary(Mutated(data, "editEvent", Some("event"), show))
  {
    var kwargs := EditEventKwargs(title, description, startDateTime, duration, eventType, venueId,
                                  rsvpLimit, question, hosts, topics);
    var step := EditEventOp(eventId, kwargs, data, show);
    call, r := step.call, ToolBoundary(step.result);
  }

  /** `meetup_event_action`: the wider boundary also turns the unknown-action `ValueError` into a tool error. */
  method MeetupEventAction(eventId: string, action: string, data: Result<Value>, show: Value -> string)
    returns (call: Option<Call>, r: Result<Value>)
    ensures call == EventAction(eventId, action, data, show).call
    ensures r == ActionToolBoundary(EventAction(eventId, action, data, show).result)
  {
    var step := EventAction(eventId, action, data, show);
    call, r := step.call, ActionToolBoundary(step.result);
  }

  // -----------------------------------------------------------------------
  // Properties
  // -----------------------------------------------------------------------

  const CreateKeys: set<string> := {
    "groupUrlname", "title", "description", "startDateTime", "duration", "publishStatus", "eventType", "venueId",
    "rsvpSettings", "question", "hosts", "topics", "proNetworkFilterId", "proNetworkTimezone"}

  lemma CreateKeysDistinct(args: seq<Arg>)
    requires |args| == 14
    requires args[0].0 == "groupUrlname" && args[1].0 == "title" && args[2].0 == "description"
    requires args[3].0 == "startDateTime" && args[4].0 == "duration" && args[5].0 == "publishStatus"
    requires args[6].0 == "eventType" && args[7].0 == "venueId" && args[8].0 == "rsvpSettings"
    requires args[9].0 == "question" && args[10].0 == "hosts" && args[11].0 == "topics"
    requires args[12].0 == "proNetworkFilterId" && args[13].0 == "proNetworkTimezone"
    ensures DistinctKeys(args)
  {
  }

  /**
   * The create input always carries the six required fields with their
   * values, and each optional field exactly when it was given; nothing else.
   */
  lemma CreateInputFields(groupUrlname: string, title: string, description: string, startDateTime: string,
                          duration: string, publishStatus: string, eventType: Option<string>, venueId: Option<string>,
                          rsvpLimit: Option<int>, question: Option<string>, hosts: Option<seq<string>>,
                          topics: Option<seq<string>>, proNetworkFilterId: Option<string>,
                          proNetworkTimezone: Option<string>)
    ensures var d := Given(CreateArgs(groupUrlname, title, description, startDateTime, duration, publishStatus,
                                      eventType, venueId, rsvpLimit, question, hosts, topics,
                                      proNetworkFilterId, proNetworkTimezone));
            && OptField(d, "groupUrlname", Some(Str(groupUrlname))) && OptField(d, "title", Some(Str(title)))
            && OptField(d, "description", Some(Str(description)))
            && OptField(d, "startDateTime", Some(Str(startDateTime)))
            && OptField(d, "duration", Some(Str(duration))) && OptField(d, "publishStatus", Some(Str(publishStatus)))
            && OptField(d, "eventType", OptStr(eventType)) && OptField(d, "venueId", OptStr(venueId))
            && OptField(d, "rsvpSettings", RsvpSettings(rsvpLimit)) && OptField(d, "question", OptStr(question))
            && OptField(d, "hosts", OptStrList(hosts)) && OptField(d, "topics", OptStrList(topics))
            && OptField(d, "proNetworkFilterId", OptStr(proNetworkFilterId))
            && OptField(d, "proNetworkTimezone", OptStr(proNetworkTimezone))
  {
    var args := CreateArgs(groupUrlname, title, description, startDateTime, duration, publishStatus,
                           eventType, venueId, rsvpLimit, question, hosts, topics,
                           proNetworkFilterId, proNetworkTimezone);
    CreateKeysDistinct(args);
    AllFieldsGiven(args);
  }

  /** The create input holds no key outside the fourteen it writes. */
  lemma CreateInputKeys(args: seq<Arg>)
    requires |args| == 14
    requires args[0].0 == "groupUrlname" && args[1].0 == "title" && args[2].0 == "description"
    requires args[3].0 == "startDateTime" && args[4].0 == "duration" && args[5].0 == "publishStatus"
    requires args[6].0 == "eventType" && args[7].0 == "venueId" && args[8].0 == "rsvpSettings"
    requires args[9].0 == "question" && args[10].0 == "hosts" && args[11].0 == "topics"
    requires args[12].0 == "proNetworkFilterId" && args[13].0 == "proNetworkTimezone"
    ensures Given(args).Keys <= CreateKeys
  {
    forall k | k in Given(args) ensures k in CreateKeys {
      GivenKeys(args, k);
    }
  }

  const EditKeys: set<string> := {
    "title", "description", "startDateTime", "duration", "eventType", "venueId", "rsvpSettings", "question",
    "hosts", "topics"}

  lemma EditKeysDistinct(args: seq<Arg>)
    requires |args| == 10
    requires args[0].0 == "title" && args[1].0 == "description" && args[2].0 == "startDateTime"
    requires args[3].0 == "duration" && args[4].0 == "eventType" && args[5].0 == "venueId"
    requires args[6].0 == "rsvpSettings" && args[7].0 == "question" && args[8].0 == "hosts" && args[9].0 == "topics"
    ensures DistinctKeys(args)
  {
  }

  /** "Only provided fields are updated": each edit field is sent exactly when it was given. */
  lemma EditKwargsFields(title: Option<string>, description: Option<string>, startDateTime: Option<string>,
                         duration: Option<string>, eventType: Option<string>, venueId: Option<string>,
                         rsvpLimit: Option<int>, question: Option<string>, hosts: Option<seq<string>>,
                         topics: Option<seq<string>>)
    ensures var d := Given(EditArgs(title, description, startDateTime, duration, eventType, venueId, rsvpLimit, question, hosts, topics));
            && OptField(d, "title", OptStr(title)) && OptField(d, "description", OptStr(description))
            && OptField(d, "startDateTime", OptStr(startDateTime)) && OptField(d, "duration", OptStr(duration))
            && OptField(d, "eventType", OptStr(eventType)) && OptField(d, "venueId", OptStr(venueId))
            && OptField(d, "rsvpSettings", RsvpSettings(rsvpLimit)) && OptField(d, "question", OptStr(question))
            && OptField(d, "hosts", OptStrList(hosts)) && OptField(d, "topics", OptStrList(topics))
  {
    var args := EditArgs(title, description, startDateTime, duration, eventType, venueId, rsvpLimit, question, hosts, topics);
    EditKeysDistinct(args);
    AllFieldsGiven(args);
  }

  /**
   * The edit kwargs hold no other key: in particular never `eventId`, which
   * the adapter sets, nor the create-only group, status and network fields.
   */
  lemma EditKwargsKeys(title: Option<string>, description: Option<string>, startDateTime: Option<string>,
                         duration: Option<string>, eventType: Option<string>, venueId: Option<string>,
                         rsvpLimit: Option<int>, question: Option<string>, hosts: Option<seq<string>>,
                         topics: Option<seq<string>>)
    ensures var d := Given(EditArgs(title, description, startDateTime, duration, eventType, venueId, rsvpLimit, question, hosts, topics));
            && d.Keys <= EditKeys
            && "eventId" !in d && "groupUrlname" !in d && "publishStatus" !in d
            && "proNetworkFilterId" !in d && "proNetworkTimezone" !in d
  {
    var args := EditArgs(title, description, startDateTime, duration, eventType, venueId, rsvpLimit, question, hosts, topics);
    forall k | k in Given(args) ensures k in EditKeys {
      GivenKeys(args, k);
    }
  }

  /** An edit with no field given sends the event id alone. */
  lemma EmptyEditSendsOnlyId()
    ensures Given(EditArgs(None, None, None, None, None, None, None, None, None, None)) == map[]
  {
    var args := EditArgs(None, None, None, None, None, None, None, None, None, None);
    forall k | k in Given(args) ensures false {
      GivenKeys(args, k);
    }
  }

  /** Left to its defaults, a new event lasts two hours, stays a draft, and carries only the required fields. */
  method CreateEventDefaults(groupUrlname: string, title: string, description: string, startDateTime: string)
    returns (input: Object)
    ensures input.Keys == {"groupUrlname", "title", "description", "startDateTime", "duration", "publishStatus"}
    ensures input["duration"] == Str("PT2H") && input["publishStatus"] == Str("DRAFT")
  {
    input := CreateEventInput(groupUrlname, title, description, startDateTime);
    CreateInputFields(groupUrlname, title, description, startDateTime, "PT2H", "DRAFT",
                      None, None, None, None, None, None, None, None);
    CreateInputKeys(CreateArgs(groupUrlname, title, description, startDateTime, "PT2H", "DRAFT",
                               None, None, None, None, None, None, None, None));
  }

  /** The unknown-action `ValueError` reaches the client as a tool error with the same message. */
  lemma UnknownActionIsToolError(eventId: string, action: string, data: Result<Value>, show: Value -> string)
    requires action !in {"delete", "publish", "announce", "close_rsvps", "open_rsvps"}
    ensures ActionToolBoundary(EventAction(eventId, action, data, show).result) == Err(ToolError(UnknownActionMessage(action)))
    ensures EventAction(eventId, action, data, show).call.None?
  {
    UnknownActionSendsNothing(eventId, action, data, show);
  }
}
