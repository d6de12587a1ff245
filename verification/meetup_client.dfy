/**
 * The Meetup GraphQL transport (providers/meetup/client.py): obtain a token,
 * starting the browser login and polling for its arrival when there is
 * none, post the query with a Bearer header (section 2.1 of RFC 6750), and
 * turn a response carrying `errors` (section 7.1.2 of the GraphQL
 * specification) into an exception.
 *
 * Time advances only through the poll's one-second sleeps. The OAuth
 * callback, which runs concurrently in the server, is described by an
 * `Arrival`: the poll step during whose sleep it stores a token.
 */
module MeetupTransport {
  import opened Json
  import opened Errors
  import opened Config
  import opened OAuth
  import opened Tokens

  const PollLimit := 120
  const TimeoutMessage := "Meetup login timed out after 120s. Please try again."
  const ErrorsPrefix := "Meetup GraphQL errors: "
  const NotIterableMessage := "TypeError: 'errors' is not iterable"
  const NoGetMessage := "AttributeError: error entry has no attribute 'get'"
  const NotStrMessage := "TypeError: sequence item: expected str instance"
  const NotADictBodyMessage := "TypeError: response body is not a JSON object"

  /** The OAuth callback storing `record`, stamped at clock `at`, during the sleep of poll step `step`. */
  datatype Arrival = Arrival(step: nat, record: Object, at: int)

  /**
   * What the outside world does during one `_ensure_authenticated`: the
   * token endpoint's reply to a refresh in the first `get_access_token`,
   * the callback's arrival, and the clock reading and refresh reply of the
   * second `get_access_token`, made once the poll has seen a record.
   */
  datatype LoginScript = LoginScript(first: HttpReply, arrival: Option<Arrival>, retryAt: int, second: HttpReply)

  /** The poll step at which a record is seen, if any within the 120 steps. */
  function PollStep(held: bool, arrival: Option<Arrival>): (k: Option<nat>)
    ensures k.Some? ==> 1 <= k.value <= PollLimit
    ensures held ==> k == Some(1)
    ensures !held ==> (k.Some? <==> arrival.Some? && 1 <= arrival.value.step <= PollLimit)
  {
    if held then Some(1)
    else if arrival.Some? && 1 <= arrival.value.step <= PollLimit then Some(arrival.value.step)
    else None
  }

  function SentOf(o: Option<TokenRequest>): seq<TokenRequest> {
    if o.Some? then [o.value] else []
  }

  /** Everything one `_ensure_authenticated` does. */
  datatype LoginOutcome = LoginOutcome(
    result: Result<string>,
    browsed: Option<string>,
    sent: seq<TokenRequest>,
    record: Option<Object>,
    disk: CacheFile)

  predicate IsAuthError(r: Result<string>) {
    r.Err? && r.error.AuthenticationError?
  }

  /**
   * `tokenSettings` are the token store's settings, used to refresh;
   * `settings` are the client's, used to build the authorization URL.
   */
  function Login(data: Option<Object>, disk: CacheFile, now: int, tokenSettings: Settings, settings: Settings,
                 script: LoginScript): (out: LoginOutcome)
    ensures out.result.Ok? ==> out.record.Some?
    ensures data.Some? ==> out.record.Some?
  {
    var a := Access(data, now, tokenSettings, script.first);
    Resume(a.result, SentOf(a.sent), After(data, a.stored), DiskAfter(disk, a.stored), now, tokenSettings, settings, script)
  }

  /** What follows the first `get_access_token`, given its result and the state it left. */
  function Resume(first: Result<string>, sent: seq<TokenRequest>, data1: Option<Object>, disk1: CacheFile,
                  now: int, tokenSettings: Settings, settings: Settings, script: LoginScript): LoginOutcome {
    if !IsAuthError(first) then LoginOutcome(first, None, sent, data1, disk1)
    else
      var url := BuildAuthUrl(settings.meetupClientId, settings);
      match PollStep(data1.Some?, script.arrival)
      case None => LoginOutcome(Err(AuthenticationError(TimeoutMessage)), Some(url), sent, data1, disk1)
      case Some(k) =>
        Retry(url, sent, RecordAt(data1, script.arrival, k), DiskAt(disk1, script.arrival, k), script.retryAt, tokenSettings, script.second)
  }

  /** The record held at poll step `k`: the callback's, stamped, if it arrives at that step. */
  function RecordAt(data1: Option<Object>, arrival: Option<Arrival>, k: nat): Option<Object> {
    if arrival.Some? && arrival.value.step == k then Some(Stamp(arrival.value.record, arrival.value.at)) else data1
  }

  function DiskAt(disk1: CacheFile, arrival: Option<Arrival>, k: nat): CacheFile {
    if arrival.Some? && arrival.value.step == k then Parsed(Stamp(arrival.value.record, arrival.value.at)) else disk1
  }

  /** The second `get_access_token`, once the poll has seen a record. */
  function Retry(url: string, sent: seq<TokenRequest>, data2: Option<Object>, disk2: CacheFile,
                 now: int, tokenSettings: Settings, second: HttpReply): LoginOutcome {
    var b := Access(data2, now, tokenSettings, second);
    LoginOutcome(b.result, Some(url), sent + SentOf(b.sent), After(data2, b.stored), DiskAfter(disk2, b.stored))
  }

  lemma ResumeWithoutLogin(first: Result<string>, sent: seq<TokenRequest>, data1: Option<Object>, disk1: CacheFile,
                           now: int, tokenSettings: Settings, settings: Settings, script: LoginScript)
    requires !IsAuthError(first)
    ensures Resume(first, sent, data1, disk1, now, tokenSettings, settings, script)
            == LoginOutcome(first, None, sent, data1, disk1)
  {
  }

  lemma ResumeTimedOut(first: Result<string>, sent: seq<TokenRequest>, data1: Option<Object>, disk1: CacheFile,
                       now: int, tokenSettings: Settings, settings: Settings, script: LoginScript)
    requires IsAuthError(first) && PollStep(data1.Some?, script.arrival).None?
    ensures Resume(first, sent, data1, disk1, now, tokenSettings, settings, script)
            == LoginOutcome(Err(AuthenticationError(TimeoutMessage)), Some(BuildAuthUrl(settings.meetupClientId, settings)),
                            sent, data1, disk1)
  {
  }

  lemma ResumeSeen(first: Result<string>, sent: seq<TokenRequest>, data1: Option<Object>, disk1: CacheFile,
                   now: int, tokenSettings: Settings, settings: Settings, script: LoginScript, k: nat)
    requires IsAuthError(first) && PollStep(data1.Some?, script.arrival) == Some(k)
    ensures Resume(first, sent, data1, disk1, now, tokenSettings, settings, script)
            == Retry(BuildAuthUrl(settings.meetupClientId, settings), sent, RecordAt(data1, script.arrival, k),
                     DiskAt(disk1, script.arrival, k), script.retryAt, tokenSettings, script.second)
  {
  }

  lemma RetryUnfolds(url: string, sent: seq<TokenRequest>, data2: Option<Object>, disk2: CacheFile,
                     now: int, tokenSettings: Settings, second: HttpReply, b: AccessOutcome)
    requires b == Access(data2, now, tokenSettings, second)
    ensures Retry(url, sent, data2, disk2, now, tokenSettings, second)
            == LoginOutcome(b.result, Some(url), sent + SentOf(b.sent), After(data2, b.stored), DiskAfter(disk2, b.stored))
  {
  }

  // -----------------------------------------------------------------------
  // Reading a GraphQL response
  // -----------------------------------------------------------------------

  /** `e.get("message", str(e))` for every entry, or `None` when some entry is not a dict. */
  function MessageValues(entries: seq<Value>, show: Value -> string): (r: Option<seq<Value>>)
    ensures r.Some? <==> forall i :: 0 <= i < |entries| ==> entries[i].Obj?
    ensures r.Some? ==> |r.value| == |entries|
    ensures r.Some? ==> forall i :: 0 <= i < |entries| ==>
              r.value[i] == Get(entries[i].fields, "message", Str(show(entries[i])))
  {
    if entries == [] then Some([])
    else if !entries[0].Obj? then None
    else
      match MessageValues(entries[1..], show)
      case None => None
      case Some(rest) => Some([Get(entries[0].fields, "message", Str(show(entries[0])))] + rest)
  }

  /** The strings of a list of values, or `None` when one is not a string. */
  function AllStrings(vs: seq<Value>): (r: Option<seq<string>>)
    ensures r.Some? <==> forall i :: 0 <= i < |vs| ==> vs[i].Str?
    ensures r.Some? ==> |r.value| == |vs| && forall i :: 0 <= i < |vs| ==> r.value[i] == vs[i].s
  {
    if vs == [] then Some([])
    else if !vs[0].Str? then None
    else
      match AllStrings(vs[1..])
      case None => None
      case Some(rest) => Some([vs[0].s] + rest)
  }

  /**
   * The texts `"; ".join(...)` receives when iterating the `errors` value.
   * The generator is consumed before the join checks types, so a non-dict
   * entry is reported before a non-string message. Iterating a dict or a
   * string yields strings, which have no `get`.
   */
  function ErrorTexts(errors: Value, show: Value -> string): Result<seq<string>> {
    match errors
    case List(items) =>
      (match MessageValues(items, show)
       case None => Err(Fault(NoGetMessage))
       case Some(vs) =>
         match AllStrings(vs)
         case None => Err(Fault(NotStrMessage))
         case Some(ts) => Ok(ts))
    case Obj(f) => if f == map[] then Ok([]) else Err(Fault(NoGetMessage))
    case Str(s) => if s == "" then Ok([]) else Err(Fault(NoGetMessage))
    case _ => Err(Fault(NotIterableMessage))
  }

  /** The second half of `execute`: status check, JSON decoding, `errors`, then `data`. */
  function ReadResponse(reply: HttpReply, show: Value -> string): (r: Result<Value>)
    ensures CheckedJson(reply).Err? ==> r == CheckedJson(reply)
    ensures r.Ok? <==> CheckedJson(reply).Ok? && CheckedJson(reply).value.Obj?
                       && "errors" !in CheckedJson(reply).value.fields
    ensures r.Ok? ==> r.value == Get(CheckedJson(reply).value.fields, "data", Obj(map[]))
  {
    match CheckedJson(reply)
    case Err(e) => Err(e)
    case Ok(Obj(body)) =>
      if "errors" in body then
        match ErrorTexts(body["errors"], show)
        case Err(e) => Err(e)
        case Ok(texts) => Err(GraphQLError(ErrorsPrefix + Join(texts, "; "), body["errors"]))
      else Ok(Get(body, "data", Obj(map[])))
    case Ok(_) => Err(Fault(NotADictBodyMessage))
  }

  /** The request body of a GraphQL POST: the query, and the variables only when non-empty. */
  predicate IsPayload(p: Object, query: string, variables: Option<Object>) {
    var given := variables.Some? && variables.value != map[];
    && p.Keys == {"query"} + Present("variables", given)
    && p["query"] == Str(query)
    && (given ==> p["variables"] == Obj(variables.value))
  }

  /** The Bearer credential of section 2.1 of RFC 6750. */
  function BearerHeader(token: string): (h: map<string, string>)
    ensures h.Keys == {"Authorization"}
    ensures |h["Authorization"]| == 7 + |token|
    ensures h["Authorization"][..7] == "Bearer " && h["Authorization"][7..] == token
  {
    map["Authorization" := "Bearer " + token]
  }

  datatype GraphQLPost = GraphQLPost(url: string, payload: Object, headers: map<string, string>)

  /** `payload = {"query": query}` then `if variables: payload["variables"] = variables`. */
  method BuildPayload(query: string, variables: Option<Object>) returns (payload: Object)
    ensures IsPayload(payload, query, variables)
  {
    payload := map["query" := Str(query)];
    if variables.Some? && variables.value != map[] {
      payload := payload["variables" := Obj(variables.value)];
    }
  }

  class MeetupGraphQLClient {
    const store: TokenStore
    const settings: Settings

    constructor (store: TokenStore, settings: Settings)
      ensures this.store == store && this.settings == settings
    {
      this.store := store;
      this.settings := settings;
    }

    /** `is_authenticated`: the token store's, so a held record counts even when expired. */
    predicate IsAuthenticated()
      reads store
    {
      store.IsAuthenticated()
    }

    /**
     * The poll loop of `_ensure_authenticated`: sleep one second at a time,
     * up to 120, until the store holds a record. Returns the step at which
     * it saw one; the callback may store a record during a sleep.
     */
    method AwaitRecord(script: LoginScript) returns (seen: Option<nat>)
      modifies store`tokenData, store`disk
      ensures seen == PollStep(old(store.tokenData).Some?, script.arrival)
      ensures seen.Some? ==> store.tokenData == RecordAt(old(store.tokenData), script.arrival, seen.value)
                             && store.disk == DiskAt(old(store.disk), script.arrival, seen.value)
      ensures seen.None? ==> store.tokenData == old(store.tokenData) && store.disk == old(store.disk)
    {
      ghost var data1, disk1 := store.tokenData, store.disk;
      ghost var k := PollStep(data1.Some?, script.arrival);
      var elapsed := 0;
      while elapsed < PollLimit
        invariant 0 <= elapsed <= PollLimit
        invariant k.None? || k.value > elapsed
        invariant store.tokenData == data1 && store.disk == disk1
      {
        elapsed := elapsed + 1;
        if script.arrival.Some? && script.arrival.value.step == elapsed {
          store.StoreToken(script.arrival.value.record, script.arrival.value.at);
        }
        if store.IsAuthenticated() {
          return Some(elapsed);
        }
      }
      seen := None;
    }

    /** `_ensure_authenticated`. Returns the token, the URL opened in the browser, and the refresh requests sent. */
    method EnsureAuthenticated(now: int, script: LoginScript)
      returns (token: Result<string>, browsed: Option<string>, sent: seq<TokenRequest>)
      modifies store`tokenData, store`disk
      ensures var out := Login(old(store.tokenData), old(store.disk), now, store.settings, settings, script);
              && token == out.result && browsed == out.browsed && sent == out.sent
              && store.tokenData == out.record && store.disk == out.disk
    ensures token.Ok? ==> IsAuthenticated()
    {
      ghost var data0, disk0 := store.tokenData, store.disk;
      var t, s := store.GetAccessToken(now, script.first);
      sent := SentOf(s);
      browsed := None;
      ghost var data1, disk1 := store.tokenData, store.disk;
      assert Login(data0, disk0, now, store.settings, settings, script)
          == Resume(t, sent, data1, disk1, now, store.settings, settings, script);
      if !(t.Err? && t.error.AuthenticationError?) {
        ResumeWithoutLogin(t, sent, data1, disk1, now, store.settings, settings, script);
        return t, browsed, sent;
      }
      var url := BuildAuthUrl(settings.meetupClientId, settings);
      browsed := Some(url);
      var seen := AwaitRecord(script);
      if seen.None? {
        ResumeTimedOut(t, sent, data1, disk1, now, store.settings, settings, script);
        return Err(AuthenticationError(TimeoutMessage)), browsed, sent;
      }
      ResumeSeen(t, sent, data1, disk1, now, store.settings, settings, script, seen.value);
      ghost var data2, disk2 := store.tokenData, store.disk;
      ghost var b := Access(data2, script.retryAt, store.settings, script.second);
      RetryUnfolds(url, sent, data2, disk2, script.retryAt, store.settings, script.second, b);
      var t2, s2 := store.GetAccessToken(script.retryAt, script.second);
      return t2, browsed, sent + SentOf(s2);
    }

    /**
     * `execute`: authenticate, post the payload, read the response. `posted`
     * is the GraphQL request, sent only once a token was obtained.
     */
    method Execute(query: string, variables: Option<Object>, now: int, script: LoginScript,
                   reply: HttpReply, show: Value -> string)
      returns (r: Result<Value>, browsed: Option<string>, sent: seq<TokenRequest>, posted: Option<GraphQLPost>)
      modifies store`tokenData, store`disk
      ensures var out := Login(old(store.tokenData), old(store.disk), now, store.settings, settings, script);
              && browsed == out.browsed && sent == out.sent
              && store.tokenData == out.record && store.disk == out.disk
              && (out.result.Err? ==> r == Err(out.result.error) && posted.None?)
              && (out.result.Ok? ==>
                    && posted.Some?
                    && posted.value.url == settings.meetupGraphqlEndpoint
                    && IsPayload(posted.value.payload, query, variables)
                    && posted.value.headers == BearerHeader(out.result.value)
                    && r == ReadResponse(reply, show))
    {
      var token;
      token, browsed, sent := EnsureAuthenticated(now, script);
      if token.Err? {
        return Err(token.error), browsed, sent, None;
      }
      var payload := BuildPayload(query, variables);
      posted := Some(GraphQLPost(settings.meetupGraphqlEndpoint, payload, BearerHeader(token.value)));
      r := ReadResponse(reply, show);
    }
  }

  // -----------------------------------------------------------------------
  // Properties
  // -----------------------------------------------------------------------

  /** Only an `AuthenticationError` starts the browser login; any other outcome is returned as it is. */
  lemma LoginOnlyOnAuthenticationError(data: Option<Object>, disk: CacheFile, now: int, tokenSettings: Settings,
                                       settings: Settings, script: LoginScript)
    ensures var a := Access(data, now, tokenSettings, script.first);
            var out := Login(data, disk, now, tokenSettings, settings, script);
            && (out.browsed.Some? <==> IsAuthError(a.result))
            && (!IsAuthError(a.result) ==> out.result == a.result && out.sent == SentOf(a.sent))
            && (out.browsed.Some? ==> out.browsed.value == BuildAuthUrl(settings.meetupClientId, settings))
  {
  }

  /** With no record and no callback within 120 steps, the login times out and stores nothing. */
  lemma LoginTimesOut(now: int, disk: CacheFile, tokenSettings: Settings, settings: Settings, script: LoginScript)
    requires script.arrival.None? || script.arrival.value.step == 0 || script.arrival.value.step > PollLimit
    ensures Login(None, disk, now, tokenSettings, settings, script)
            == LoginOutcome(Err(AuthenticationError(TimeoutMessage)), Some(BuildAuthUrl(settings.meetupClientId, settings)),
                            [], None, disk)
  {
  }

  /** Without a record, the first attempt fails with "not authenticated" and changes nothing. */
  lemma LoginWithoutRecord(now: int, disk: CacheFile, tokenSettings: Settings, settings: Settings, script: LoginScript)
    ensures Login(None, disk, now, tokenSettings, settings, script)
            == Resume(Err(AuthenticationError(NotAuthenticatedMessage)), [], None, disk, now, tokenSettings, settings, script)
  {
    assert Access(None, now, tokenSettings, script.first)
        == AccessOutcome(Err(AuthenticationError(NotAuthenticatedMessage)), None, None);
  }

  /**
   * With no record, a callback arriving at step k is picked up at step k:
   * the token is then asked for on the stamped record.
   */
  lemma LoginPicksUpArrival(now: int, disk: CacheFile, tokenSettings: Settings, settings: Settings, script: LoginScript)
    requires script.arrival.Some? && 1 <= script.arrival.value.step <= PollLimit
    ensures var arr := script.arrival.value;
            var stamped := Stamp(arr.record, arr.at);
            Login(None, disk, now, tokenSettings, settings, script)
            == Retry(BuildAuthUrl(settings.meetupClientId, settings), [], Some(stamped), Parsed(stamped),
                     script.retryAt, tokenSettings, script.second)
  {
    LoginWithoutRecord(now, disk, tokenSettings, settings, script);
    ResumeSeen(Err(AuthenticationError(NotAuthenticatedMessage)), [], None, disk, now, tokenSettings, settings, script,
               script.arrival.value.step);
  }

  /** A login that stores a record still valid at the retry with a string token yields that token. */
  lemma ArrivedTokenServed(now: int, disk: CacheFile, tokenSettings: Settings, settings: Settings, script: LoginScript)
    requires script.arrival.Some? && 1 <= script.arrival.value.step <= PollLimit
    requires var arr := script.arrival.value;
             IsExpired(Some(Stamp(arr.record, arr.at)), script.retryAt) == Ok(false)
    requires "access_token" in script.arrival.value.record && script.arrival.value.record["access_token"].Str?
    ensures Login(None, disk, now, tokenSettings, settings, script).result
            == Ok(script.arrival.value.record["access_token"].s)
  {
    var arr := script.arrival.value;
    var stamped := Stamp(arr.record, arr.at);
    LoginPicksUpArrival(now, disk, tokenSettings, settings, script);
    var b := Access(Some(stamped), script.retryAt, tokenSettings, script.second);
    RetryUnfolds(BuildAuthUrl(settings.meetupClientId, settings), [], Some(stamped), Parsed(stamped),
                 script.retryAt, tokenSettings, script.second, b);
    FreshRecordServed(stamped, script.retryAt, tokenSettings, script.second);
    assert stamped["access_token"] == arr.record["access_token"];
  }

  /**
   * A record that is still held after the first attempt failed (a refresh
   * that was refused, say) ends the poll after its first second: the
   * browser is opened, yet the token is asked for again without waiting
   * for the login.
   */
  lemma HeldRecordEndsPollAtFirstStep(data: Option<Object>, disk: CacheFile, now: int, tokenSettings: Settings,
                                      settings: Settings, script: LoginScript)
    requires IsAuthError(Access(data, now, tokenSettings, script.first).result)
    requires After(data, Access(data, now, tokenSettings, script.first).stored).Some?
    requires script.arrival.None? || script.arrival.value.step != 1
    ensures var a := Access(data, now, tokenSettings, script.first);
            var data1 := After(data, a.stored);
            var b := Access(data1, script.retryAt, tokenSettings, script.second);
            var out := Login(data, disk, now, tokenSettings, settings, script);
            && out.browsed.Some?
            && out.result == b.result
            && out.sent == SentOf(a.sent) + SentOf(b.sent)
  {
  }

  /** A response carrying `errors` never yields data, even when the list is empty. */
  lemma ErrorsKeyNeverYieldsData(reply: HttpReply, show: Value -> string, body: Object)
    requires IsSuccess(reply.status) && reply.body == Some(Obj(body)) && "errors" in body
    ensures ReadResponse(reply, show).Err?
    ensures ReadResponse(reply, show).error.GraphQLError? || ReadResponse(reply, show).error.Fault?
    ensures body["errors"] == List([]) ==> ReadResponse(reply, show) == Err(GraphQLError(ErrorsPrefix, List([])))
  {
  }

  /**
   * An `errors` value whose texts can be joined is raised as one provider
   * error: its message joins the texts with "; ", and it keeps the value.
   */
  lemma GraphQLErrorRaised(reply: HttpReply, show: Value -> string, body: Object, texts: seq<string>)
    requires IsSuccess(reply.status) && reply.body == Some(Obj(body))
    requires "errors" in body && ErrorTexts(body["errors"], show) == Ok(texts)
    ensures ReadResponse(reply, show) == Err(GraphQLError(ErrorsPrefix + Join(texts, "; "), body["errors"]))
    ensures IsProviderError(ReadResponse(reply, show).error)
  {
  }

  /** Dict entries with string messages contribute exactly those messages. */
  lemma MessagesOfEntries(items: seq<Value>, texts: seq<string>, show: Value -> string)
    requires |texts| == |items|
    requires forall i :: 0 <= i < |items| ==>
               items[i].Obj? && "message" in items[i].fields && items[i].fields["message"] == Str(texts[i])
    ensures ErrorTexts(List(items), show) == Ok(texts)
  {
    var vs := MessageValues(items, show);
    assert vs.Some?;
    assert forall i :: 0 <= i < |items| ==> vs.value[i] == Str(texts[i]);
    var ts := AllStrings(vs.value);
    assert ts.Some?;
    assert ts.value == texts;
  }

  /** An entry without `message` contributes its own `str()` text. */
  lemma MissingMessageShowsEntry(entry: Object, show: Value -> string)
    requires "message" !in entry
    ensures ErrorTexts(List([Obj(entry)]), show) == Ok([show(Obj(entry))])
  {
    var vs := MessageValues([Obj(entry)], show);
    assert vs.Some?;
    assert vs.value[0] == Str(show(Obj(entry)));
    assert vs.value == [Str(show(Obj(entry)))];
    var ts := AllStrings(vs.value);
    assert ts.Some? && ts.value[0] == show(Obj(entry));
    assert ts.value == [show(Obj(entry))];
  }

  /** A successful response without `errors` yields its `data`, or `{}` when there is none. */
  lemma DataReturned(reply: HttpReply, show: Value -> string, body: Object)
    requires IsSuccess(reply.status) && reply.body == Some(Obj(body)) && "errors" !in body
    ensures ReadResponse(reply, show) == Ok(if "data" in body then body["data"] else Obj(map[]))
  {
  }

  /** A status outside 2xx is raised before the body is looked at. */
  lemma StatusCheckedFirst(reply: HttpReply, show: Value -> string)
    requires !IsSuccess(reply.status)
    ensures ReadResponse(reply, show) == Err(HttpStatusError(reply.status))
  {
  }
}
