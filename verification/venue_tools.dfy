/**
 * The venue tool (tools/venue_tools.py): the input it builds, with the
 * longitude renamed to `lng`, and the adapter call behind the tool boundary.
 */
module VenueTools {
  import opened Json
  import opened Errors
  import opened MeetupAdapter

  /** The arguments of `meetup_create_venue` in the order it writes them; the first five are always given. */
  function VenueArgs(groupUrlname: string, name: string, address: string, city: string, country: string,
                     state: Option<string>, lat: Option<real>, lon: Option<real>): seq<Arg> {
    [("groupUrlname", Some(Str(groupUrlname))), ("name", Some(Str(name))), ("address", Some(Str(address))),
     ("city", Some(Str(city))), ("country", Some(Str(country))),
     ("state", OptStr(state)), ("lat", OptReal(lat)), ("lng", OptReal(lon))]
  }

  /** The five-entry dict display of `meetup_create_venue` is the run of its entries, each given. */
  lemma DisplayIsGiven(args: seq<Arg>)
    requires |args| == 5 && forall i :: 0 <= i < 5 ==> args[i].1.Some?
    ensures Given(args) == map[args[0].0 := args[0].1.value, args[1].0 := args[1].1.value,
                               args[2].0 := args[2].1.value, args[3].0 := args[3].1.value,
                               args[4].0 := args[4].1.value]
  {
    GivenAppend(args[..0], args[0]);
    assert args[..0] + [args[0]] == args[..1];
    GivenAppend(args[..1], args[1]);
    assert args[..1] + [args[1]] == args[..2];
    GivenAppend(args[..2], args[2]);
    assert args[..2] + [args[2]] == args[..3];
    GivenAppend(args[..3], args[3]);
    assert args[..3] + [args[3]] == args[..4];
    GivenAppend(args[..4], args[4]);
    assert args[..4] + [args[4]] == args;
  }

  /** The `input_data` of `meetup_create_venue`. */
  method VenueInput(groupUrlname: string, name: string, address: string, city: string, country: string,
                    state: Option<string> := None, lat: Option<real> := None, lon: Option<real> := None)
    returns (input: Object)
    ensures input == Given(VenueArgs(groupUrlname, name, address, city, country, state, lat, lon))
  {
    ghost var args: seq<Arg> := [("groupUrlname", Some(Str(groupUrlname))), ("name", Some(Str(name))),
                                 ("address", Some(Str(address))), ("city", Some(Str(city))),
                                 ("country", Some(Str(country)))];
    input := map["groupUrlname" := Str(groupUrlname), "name" := Str(name), "address" := Str(address),
                 "city" := Str(city), "country" := Str(country)];
    DisplayIsGiven(args);
    input := Put(input, "state", OptStr(state), args);
    args := args + [("state", OptStr(state))];
    input := Put(input, "lat", OptReal(lat), args);
    args := args + [("lat", OptReal(lat))];
    input := Put(input, "lng", OptReal(lon), args);
    args := args + [("lng", OptReal(lon))];
    assert args == VenueArgs(groupUrlname, name, address, city, country, state, lat, lon);
  }

  /** `meetup_create_venue`: the built input goes to the adapter; provider errors become tool errors. */
  method MeetupCreateVenue(groupUrlname: string, name: string, address: string, city: string, country: string,
                           state: Option<string>, lat: Option<real>, lon: Option<real>,
                           data: Result<Value>, show: Value -> string)
    returns (call: Option<Call>, r: Result<Value>)
    ensures call == Some(Call(CreateVenueMutation, Some(InputOf(
                      Given(VenueArgs(groupUrlname, name, address, city, country, state, lat, lon))))))
    ensures r == ToolBoundary(Mutated(data, "createVenue", Some("venue"), show))
  {
    var input := VenueInput(groupUrlname, name, address, city, country, state, lat, lon);
    var step := CreateVenueOp(input, data, show);
    call, r := step.call, ToolBoundary(step.result);
  }

  /**
   * The venue input carries the five required fields, `state` and `lat`
   * when given, and the longitude under `lng` when given; never `lon`.
   */
  lemma VenueInputFields(groupUrlname: string, name: string, address: string, city: string, country: string,
                         state: Option<string>, lat: Option<real>, lon: Option<real>)
    ensures var d := Given(VenueArgs(groupUrlname, name, address, city, country, state, lat, lon));
            && OptField(d, "groupUrlname", Some(Str(groupUrlname))) && OptField(d, "name", Some(Str(name)))
            && OptField(d, "address", Some(Str(address))) && OptField(d, "city", Some(Str(city)))
            && OptField(d, "country", Some(Str(country)))
            && OptField(d, "state", OptStr(state)) && OptField(d, "lat", OptReal(lat))
            && OptField(d, "lng", OptReal(lon))
            && "lon" !in d
  {
    var args := VenueArgs(groupUrlname, name, address, city, country, state, lat, lon);
    assert args[0].0 == "groupUrlname" && args[1].0 == "name" && args[2].0 == "address" && args[3].0 == "city";
    assert args[4].0 == "country" && args[5].0 == "state" && args[6].0 == "lat" && args[7].0 == "lng";
    AllFieldsGiven(args);
    GivenKeys(args, "lon");
  }
}
