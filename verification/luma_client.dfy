/**
 * The Luma REST transport (providers/luma/client.py): the lazy API-key
 * check, URL formation, and the classification of a reply into a decoded
 * body or a `ProviderError` naming the status. The HTTP round trip itself
 * is an input: `reply` is what the server answers to the request sent.
 */
module LumaTransport {
  import opened Json
  import opened Errors
  import opened Config

  const NoKeyMessage := "Luma API key not configured \U{2014} set PULUMI_EVENTS_LUMA_API_KEY"
  const ErrorPrefix := "Luma API error ("
  const KeyHeader := "x-luma-api-key"

  datatype Verb = GET | POST

  /** One request put on the wire: `data` is the query parameters of a GET or the JSON body of a POST. */
  datatype LumaRequest = LumaRequest(verb: Verb, url: string, data: Option<Object>, headers: map<string, string>)

  /** What a `get`/`post` call did: the request it sent, if any, and what it returned or raised. */
  datatype Exchange = Exchange(sent: Option<LumaRequest>, result: Result<Value>)

  /** Python's `str(v)` on a JSON value; non-strings are rendered by `show`. */
  function PyStr(v: Value, show: Value -> string): string {
    if v.Str? then v.s else show(v)
  }

  /**
   * The message of a failed reply: the body's `message` when the body is a
   * JSON object holding one, otherwise the raw response text (a body that
   * is not JSON, or JSON without `get`, falls into the `except` branch).
   */
  function ErrorDetail(reply: HttpReply, show: Value -> string): string {
    match reply.body
    case Some(Obj(b)) => if "message" in b then PyStr(b["message"], show) else reply.text
    case _ => reply.text
  }

  function LumaErrorMessage(status: int, detail: string): string {
    ErrorPrefix + Decimal(status) + "): " + detail
  }

  /** `_handle_response`: any status from 400 up is a provider error; anything below returns `resp.json()`. */
  function HandleResponse(reply: HttpReply, show: Value -> string): (r: Result<Value>)
    ensures r.Ok? <==> reply.status < 400 && reply.body.Some?
    ensures r.Ok? ==> r.value == reply.body.value
    ensures reply.status >= 400 ==>
              r == Err(ProviderError(LumaErrorMessage(reply.status, ErrorDetail(reply, show))))
    ensures reply.status < 400 && reply.body.None? ==> r == Err(ValueError(JsonDecodeMessage))
  {
    if reply.status >= 400 then Err(ProviderError(LumaErrorMessage(reply.status, ErrorDetail(reply, show))))
    else if reply.body.None? then Err(ValueError(JsonDecodeMessage))
    else Ok(reply.body.value)
  }

  /** The client's two fields, fixed at construction. */
  datatype LumaClient = LumaClient(base: string, apiKey: string) {

    /** `bool(self._api_key)`. */
    predicate IsAuthenticated() {
      apiKey != ""
    }

    /** `_headers`: the key header, or an authentication error when no key is configured. */
    function Headers(): (r: Result<map<string, string>>)
      ensures r.Err? <==> !IsAuthenticated()
      ensures r.Err? ==> r.error == AuthenticationError(NoKeyMessage)
      ensures r.Ok? ==> r.value.Keys == {KeyHeader} && r.value[KeyHeader] == apiKey
    {
      if apiKey == "" then Err(AuthenticationError(NoKeyMessage)) else Ok(map[KeyHeader := apiKey])
    }

    function Url(path: string): (u: string)
      ensures |u| == |base| + |path| && u[..|base|] == base && u[|base|..] == path
    {
      base + path
    }

    /** The shared shape of `get` and `post`: headers are computed before anything is sent. */
    function Send(verb: Verb, path: string, data: Option<Object>, reply: HttpReply, show: Value -> string): (x: Exchange)
      ensures x.sent.Some? <==> IsAuthenticated()
      ensures x.sent.Some? ==>
                && x.sent.value.verb == verb && x.sent.value.url == Url(path) && x.sent.value.data == data
                && Headers() == Ok(x.sent.value.headers)
      ensures !IsAuthenticated() ==> x.result == Err(AuthenticationError(NoKeyMessage))
      ensures IsAuthenticated() ==> x.result == HandleResponse(reply, show)
    {
      match Headers()
      case Err(e) => Exchange(None, Err(e))
      case Ok(h) => Exchange(Some(LumaRequest(verb, Url(path), data, h)), HandleResponse(reply, show))
    }

    /** `get`: the parameters travel as the query string of a GET. */
    function Get(path: string, params: Option<Object>, reply: HttpReply, show: Value -> string): (x: Exchange)
      ensures x.sent.Some? <==> IsAuthenticated()
      ensures x.sent.Some? ==> x.sent.value.verb == GET && x.sent.value.url == Url(path) && x.sent.value.data == params
    {
      Send(GET, path, params, reply, show)
    }

    /** `post`: the object travels as the JSON body of a POST. */
    function Post(path: string, json: Option<Object>, reply: HttpReply, show: Value -> string): (x: Exchange)
      ensures x.sent.Some? <==> IsAuthenticated()
      ensures x.sent.Some? ==> x.sent.value.verb == POST && x.sent.value.url == Url(path) && x.sent.value.data == json
    {
      Send(POST, path, json, reply, show)
    }
  }

  /** `LumaClient(http, settings)`: construction reads two settings and never fails. */
  function FromSettings(s: Settings): (c: LumaClient)
    ensures c.base == s.lumaApiEndpoint && c.apiKey == s.lumaApiKey
  {
    LumaClient(s.lumaApiEndpoint, s.lumaApiKey)
  }

  // -----------------------------------------------------------------------
  // Properties
  // -----------------------------------------------------------------------

  /** Without a key neither verb sends anything, whatever the server would have answered. */
  lemma NoKeyNoRequest(c: LumaClient, path: string, data: Option<Object>, reply: HttpReply, show: Value -> string)
    requires c.apiKey == ""
    ensures c.Get(path, data, reply, show) == Exchange(None, Err(AuthenticationError(NoKeyMessage)))
    ensures c.Post(path, data, reply, show) == Exchange(None, Err(AuthenticationError(NoKeyMessage)))
  {
  }

  /** The default settings carry no key, so a client built from them is not authenticated. */
  lemma DefaultClientUnauthenticated()
    ensures !FromSettings(Defaults).IsAuthenticated()
    ensures FromSettings(Defaults).Url("/event/get") == "https://public-api.luma.com/v1/event/get"
  {
  }

  /** A failure whose JSON object names a string `message` reports that message. */
  lemma ErrorReportsMessage(reply: HttpReply, show: Value -> string, b: Object, m: string)
    requires reply.status >= 400 && reply.body == Some(Obj(b)) && "message" in b && b["message"] == Str(m)
    ensures HandleResponse(reply, show) == Err(ProviderError(ErrorPrefix + Decimal(reply.status) + "): " + m))
  {
  }

  /** A failure without a usable `message` reports the raw response text. */
  lemma ErrorReportsText(reply: HttpReply, show: Value -> string)
    requires reply.status >= 400
    requires reply.body.None? || !reply.body.value.Obj? || "message" !in reply.body.value.fields
    ensures HandleResponse(reply, show) == Err(ProviderError(ErrorPrefix + Decimal(reply.status) + "): " + reply.text))
  {
  }

  /** A status below 400 (including 1xx and 3xx, which are not checked) returns the decoded body unchanged. */
  lemma BelowFourHundredPassesThrough(reply: HttpReply, show: Value -> string, v: Value)
    requires reply.status < 400 && reply.body == Some(v)
    ensures HandleResponse(reply, show) == Ok(v)
  {
  }

  /** The text before the first `c` in `s`, or all of `s` when `c` does not occur. */
  function TakeUntil(s: string, c: char): (r: string)
    ensures |r| <= |s| && r == s[..|r|]
  {
    if s == [] || s[0] == c then [] else [s[0]] + TakeUntil(s[1..], c)
  }

  lemma {:induction false} TakeUntilStops(a: string, c: char, b: string)
    requires forall i :: 0 <= i < |a| ==> a[i] != c
    ensures TakeUntil(a + [c] + b, c) == a
  {
    if a != [] {
      assert (a + [c] + b)[1..] == a[1..] + [c] + b;
      TakeUntilStops(a[1..], c, b);
    }
  }

  /** The status a Luma error names, read back from its message. */
  function StatusText(message: string): string {
    if |message| >= |ErrorPrefix| then TakeUntil(message[|ErrorPrefix|..], ')') else ""
  }

  /** The status can be read back from every Luma error message, whatever the detail. */
  lemma StatusReadBack(status: int, detail: string)
    ensures StatusText(LumaErrorMessage(status, detail)) == Decimal(status)
  {
    var d := Decimal(status);
    var m := LumaErrorMessage(status, detail);
    assert "): " == [')'] + ": ";
    assert m == ErrorPrefix + (d + [')'] + (": " + detail));
    assert m[|ErrorPrefix|..] == d + [')'] + (": " + detail);
    assert forall i :: 0 <= i < |d| ==> d[i] != ')' by {
      if status >= 0 {
        assert d == Digits(status);
      } else {
        assert d == "-" + Digits(-status);
        forall i | 1 <= i < |d| ensures d[i] != ')' {
          assert d[i] == Digits(-status)[i - 1];
        }
      }
    }
    TakeUntilStops(d, ')', ": " + detail);
  }
}
