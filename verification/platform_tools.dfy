/**
 * The platform tools (tools/platform_tools.py): the per-provider entries
 * `list_platforms` collects in a loop, and the result of `meetup_login`.
 */
module PlatformTools {
  import opened Json
  import opened Errors
  import opened Config
  import opened Providers
  import OAuth
  import MeetupAdapter
  import LumaAdapter
  import LumaTransport
  import MeetupTransport

  /**
   * One provider's entry. Reading the capabilities is the step that can
   * raise, and the entry is built only when it does not.
   */
  function Entry(p: ProviderView): (r: Result<Value>)
    ensures r.Ok? <==> p.capabilities.Ok?
    ensures p.capabilities.Err? ==> r == Err(p.capabilities.error)
    ensures r.Ok? ==> r.value.Obj? && r.value.fields.Keys == {"name", "authenticated", "capabilities"}
  {
    match p.capabilities
    case Err(e) => Err(e)
    case Ok(cs) => Ok(Obj(map["name" := Str(p.name), "authenticated" := Bool(p.authenticated),
                              "capabilities" := List(StrList(SortedValues(cs)))]))
  }

  /** The entries of `ps` in order, or the first provider's error. */
  function Entries(ps: seq<ProviderView>): Result<seq<Value>> {
    if ps == [] then Ok([])
    else
      match Entries(ps[..|ps| - 1])
      case Err(e) => Err(e)
      case Ok(es) =>
        match Entry(ps[|ps| - 1])
        case Err(e) => Err(e)
        case Ok(x) => Ok(es + [x])
  }

  /** Once a prefix has failed, the whole list fails with the same error. */
  lemma {:induction false} EntriesErrorPersists(ps: seq<ProviderView>, i: nat)
    requires i <= |ps| && Entries(ps[..i]).Err?
    ensures Entries(ps) == Entries(ps[..i])
  {
    if i < |ps| {
      assert ps[..|ps| - 1][..i] == ps[..i];
      EntriesErrorPersists(ps[..|ps| - 1], i);
    } else {
      assert ps[..i] == ps;
    }
  }

  /** `list_platforms`: one entry per provider, meetup then luma. */
  method ListPlatforms(meetup: ProviderView, luma: ProviderView) returns (r: Result<Value>)
    ensures Entries([meetup, luma]).Err? ==> r == Err(Entries([meetup, luma]).error)
    ensures Entries([meetup, luma]).Ok? ==> r == Ok(Obj(map["platforms" := List(Entries([meetup, luma]).value)]))
  {
    var ps := [meetup, luma];
    var platforms: seq<Value> := [];
    for i := 0 to |ps|
      invariant Entries(ps[..i]) == Ok(platforms)
    {
      var e := Entry(ps[i]);
      assert ps[..i + 1][..i] == ps[..i];
      if e.Err? {
        EntriesErrorPersists(ps, i + 1);
        return Err(e.error);
      }
      platforms := platforms + [e.value];
    }
    assert ps[..|ps|] == ps;
    r := Ok(Obj(map["platforms" := List(platforms)]));
  }

  // -----------------------------------------------------------------------
  // Properties
  // -----------------------------------------------------------------------

  /** A successful listing has one entry per provider, in provider order, each built from its provider. */
  lemma {:induction false} EntriesInOrder(ps: seq<ProviderView>)
    requires Entries(ps).Ok?
    ensures |Entries(ps).value| == |ps|
    ensures forall i :: 0 <= i < |ps| ==> Entry(ps[i]) == Ok(Entries(ps).value[i])
  {
    if ps != [] {
      var init := ps[..|ps| - 1];
      EntriesInOrder(init);
      forall i | 0 <= i < |init| ensures init[i] == ps[i] {
      }
    }
  }

  /** An entry copies name and authentication status, and lists the capability values ascending, each once. */
  lemma EntryFields(p: ProviderView)
    requires p.capabilities.Ok?
    ensures var f := Entry(p).value.fields;
            && f["name"] == Str(p.name) && f["authenticated"] == Bool(p.authenticated)
            && f["capabilities"] == List(StrList(SortedValues(p.capabilities.value)))
            && StrictlyAscending(SortedValues(p.capabilities.value))
            && forall x :: x in SortedValues(p.capabilities.value) <==>
                             exists c :: c in p.capabilities.value && CapabilityValue(c) == x
  {
    SortedValuesSpec(p.capabilities.value);
  }

  /** The Meetup adapter reports all twelve capability values. */
  lemma MeetupReportsEveryCapability()
    ensures SortedValues(MeetupAdapter.MeetupCapabilities) == ValueOrder
  {
    forall c: Capability ensures c in MeetupAdapter.MeetupCapabilities {
      MeetupHasEveryCapability(c);
    }
    FullSetSorted(MeetupAdapter.MeetupCapabilities);
  }

  lemma MeetupHasEveryCapability(c: Capability)
    ensures c in MeetupAdapter.MeetupCapabilities
  {
  }

  /** A set holding every capability sorts to all twelve values. */
  lemma FullSetSorted(cs: set<Capability>)
    requires forall c :: c in cs
    ensures SortedValues(cs) == ValueOrder
  {
    ValuesInAll(ByValue, cs);
    ByValueValues();
  }

  /**
   * As written, reading the Luma adapter's capabilities raises, so
   * `list_platforms` fails with that error whatever the Meetup side reports.
   */
  lemma ListingFailsOnLuma(meetup: MeetupTransport.MeetupGraphQLClient, client: LumaTransport.LumaClient)
    ensures Entries([MeetupAdapter.View(meetup), LumaAdapter.View(client)]) == Err(LumaAdapter.CapabilitiesError)
  {
    var ps := [MeetupAdapter.View(meetup), LumaAdapter.View(client)];
    assert ps[..1][..0] == [];
    assert Entries(ps[..1]).Ok?;
    assert ps[..1] == ps[..|ps| - 1];
  }

  const LoginInstruction :=
    "Open this URL in a browser. After authorizing, the server will automatically receive and cache your token."

  /** `meetup_login`: the authorization URL for the configured client, and the fixed instruction. */
  function MeetupLogin(settings: Settings): (r: map<string, string>)
    ensures r.Keys == {"auth_url", "instruction"}
    ensures r["auth_url"] == OAuth.BuildAuthUrl(settings.meetupClientId, settings)
    ensures r["instruction"] == LoginInstruction
  {
    map["auth_url" := OAuth.BuildAuthUrl(settings.meetupClientId, settings), "instruction" := LoginInstruction]
  }

  /** The login URL decodes back to the configured client id and redirect URI. */
  lemma LoginUrlDecodes(settings: Settings)
    ensures var url := MeetupLogin(settings)["auth_url"];
            var n := |settings.meetupAuthEndpoint|;
            && |url| > n && url[..n] == settings.meetupAuthEndpoint && url[n] == '?'
            && OAuth.ParseQuery(url[n + 1..]) == Some(OAuth.AuthParams(settings.meetupClientId, settings.meetupRedirectUri))
  {
    OAuth.AuthUrlRoundTrip(settings.meetupClientId, settings);
  }
}
