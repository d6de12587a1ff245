/**
 * The file-backed OAuth2 token store (auth/token_store.py). It holds at
 * most one token record; `GetAccessToken` refreshes it when it is within
 * 300 seconds of expiry, using the refresh grant of section 6 of RFC 6749.
 *
 * The clock is the integer parameter `now` (seconds). The token endpoint's
 * answer to a refresh is the parameter `reply`. The cache file is the field
 * `disk`: `StoreToken` writes it and the constructor reads it.
 */
module Tokens {
  import opened Json
  import opened Errors
  import opened Config
  import opened OAuth

  const RefreshMarginSeconds := 300

  /**
   * What the cache file holds: nothing, something unreadable or unparsable,
   * or a JSON object. A file that is not UTF-8, or JSON that is not an
   * object, is not represented.
   */
  datatype CacheFile = NoFile | Unreadable | Parsed(record: Object)

  const NotAuthenticatedMessage := "Not authenticated \U{2014} run meetup_login first"
  const CorruptCacheMessage := "Corrupt token cache \U{2014} re-authenticate with meetup_login"
  const NoRefreshTokenMessage := "No refresh token available \U{2014} re-authenticate with meetup_login"
  const NotConvertibleMessage := "could not convert string to float"
  const NotANumberMessage := "TypeError: float() argument must be a string or a real number"
  const NotADictMessage := "TypeError: token response is not a JSON object"

  function RefreshFailedMessage(status: int, text: string): (m: string)
    ensures |m| > 0 && m[0] == 'T'
  {
    "Token refresh failed (" + Decimal(status) + "): " + text
  }

  /** Python's `float(v)` on a JSON value. */
  function ToFloat(v: Value): Result<real> {
    match v
    case Int(i) => Ok(i as real)
    case Real(r) => Ok(r)
    case Bool(b) => Ok(if b then 1.0 else 0.0)
    case Str(_) => Err(ValueError(NotConvertibleMessage))
    case _ => Err(Fault(NotANumberMessage))
  }

  /** `_is_expired`: strictly past `obtained_at + expires_in - 300`, absent fields read as 0. */
  function IsExpired(data: Option<Object>, now: int): (r: Result<bool>)
    ensures data.None? ==> r == Ok(true)
    ensures data.Some? ==>
              var obtained := ToFloat(Get(data.value, "obtained_at", Int(0)));
              var expiresIn := ToFloat(Get(data.value, "expires_in", Int(0)));
              && (r.Ok? <==> obtained.Ok? && expiresIn.Ok?)
              && (r.Ok? ==> (r.value <==> now as real > obtained.value + expiresIn.value - RefreshMarginSeconds as real))
  {
    match data
    case None => Ok(true)
    case Some(rec) =>
      match (ToFloat(Get(rec, "obtained_at", Int(0))), ToFloat(Get(rec, "expires_in", Int(0))))
      case (Err(e), _) => Err(e)
      case (Ok(_), Err(e)) => Err(e)
      case (Ok(obtained), Ok(expiresIn)) =>
        Ok(now as real > obtained + expiresIn - RefreshMarginSeconds as real)
  }

  /** The access token a record yields, when it is a string. */
  function TokenOf(rec: Object): (r: Result<string>)
    ensures r.Ok? <==> "access_token" in rec && rec["access_token"].Str?
    ensures r.Ok? ==> r.value == rec["access_token"].s
    ensures r.Err? ==> r.error == AuthenticationError(CorruptCacheMessage)
  {
    if "access_token" in rec && rec["access_token"].Str? then Ok(rec["access_token"].s)
    else Err(AuthenticationError(CorruptCacheMessage))
  }

  /** `store_token` stamps `obtained_at` with the clock, whatever the response said. */
  function Stamp(data: Object, now: int): Object {
    data["obtained_at" := Int(now)]
  }

  predicate HasStringRefreshToken(rec: Object) {
    "refresh_token" in rec && rec["refresh_token"].Str?
  }

  /** The record a load leaves in memory, starting from `current`. */
  function Loaded(current: Option<Object>, file: CacheFile): Option<Object> {
    match file
    case NoFile => current
    case Unreadable => None
    case Parsed(rec) => Some(rec)
  }

  /** What `_refresh` does: the error it raises, the request it sends, the record it stores. */
  datatype RefreshOutcome = RefreshOutcome(error: Option<Error>, sent: Option<TokenRequest>, stored: Option<Object>)

  function RefreshSpec(data: Option<Object>, now: int, settings: Settings, reply: HttpReply): (out: RefreshOutcome)
    ensures out.error.None? <==> out.stored.Some?
  {
    var rec := data.GetOr(map[]);
    if !HasStringRefreshToken(rec) then
      RefreshOutcome(Some(AuthenticationError(NoRefreshTokenMessage)), None, None)
    else
      var req := RefreshRequest(settings, rec["refresh_token"].s);
      if reply.status != 200 then
        RefreshOutcome(Some(AuthenticationError(RefreshFailedMessage(reply.status, reply.text))), Some(req), None)
      else
        match reply.body
        case None => RefreshOutcome(Some(ValueError(JsonDecodeMessage)), Some(req), None)
        case Some(Obj(fields)) => RefreshOutcome(None, Some(req), Some(Stamp(fields, now)))
        case Some(_) => RefreshOutcome(Some(Fault(NotADictMessage)), Some(req), None)
  }

  /** What `get_access_token` does: its result, the refresh request it sends, the record it stores. */
  datatype AccessOutcome = AccessOutcome(result: Result<string>, sent: Option<TokenRequest>, stored: Option<Object>)

  function Access(data: Option<Object>, now: int, settings: Settings, reply: HttpReply): AccessOutcome {
    if data.None? then AccessOutcome(Err(AuthenticationError(NotAuthenticatedMessage)), None, None)
    else
      match IsExpired(data, now)
      case Err(e) => AccessOutcome(Err(e), None, None)
      case Ok(expired) =>
        if !expired then AccessOutcome(TokenOf(data.value), None, None)
        else
          var r := RefreshSpec(data, now, settings, reply);
          if r.error.Some? then AccessOutcome(Err(r.error.value), r.sent, None)
          else AccessOutcome(TokenOf(r.stored.value), r.sent, r.stored)
  }

  /** The record held after an operation that may have stored one. */
  function After(data: Option<Object>, stored: Option<Object>): Option<Object> {
    if stored.Some? then stored else data
  }

  function DiskAfter(disk: CacheFile, stored: Option<Object>): CacheFile {
    if stored.Some? then Parsed(stored.value) else disk
  }

  class TokenStore {
    var tokenData: Option<Object>
    var disk: CacheFile
    const settings: Settings

    /** `__init__`: starts empty, then loads the cache file. */
    constructor (settings: Settings, disk: CacheFile)
      ensures this.settings == settings && this.disk == disk
      ensures tokenData == Loaded(None, disk)
    {
      this.settings := settings;
      this.disk := disk;
      tokenData := None;
      new;
      LoadFromDisk();
    }

    /** `is_authenticated`: a record is held, expired or not. */
    predicate IsAuthenticated()
      reads this
    {
      tokenData.Some?
    }

    /** `_load_from_disk`: a missing file changes nothing; an unreadable or unparsable one means no token. */
    method LoadFromDisk()
      modifies this`tokenData
      ensures tokenData == Loaded(old(tokenData), disk)
    {
      match disk
      case NoFile =>
      case Unreadable => tokenData := None;
      case Parsed(rec) => tokenData := Some(rec);
    }

    /** `store_token`: stamp `obtained_at`, hold the record, persist it. */
    method StoreToken(data: Object, now: int)
      modifies this`tokenData, this`disk
      ensures tokenData == Some(Stamp(data, now))
      ensures disk == Parsed(Stamp(data, now))
    {
      var stamped := data["obtained_at" := Int(now)];
      tokenData := Some(stamped);
      disk := Parsed(stamped);
    }

    /** `_refresh`: the refresh grant, replacing the record wholesale on status 200. */
    method Refresh(now: int, reply: HttpReply) returns (error: Option<Error>, sent: Option<TokenRequest>)
      modifies this`tokenData, this`disk
      ensures var out := RefreshSpec(old(tokenData), now, settings, reply);
              && error == out.error && sent == out.sent
              && tokenData == After(old(tokenData), out.stored)
              && disk == DiskAfter(old(disk), out.stored)
    {
      var rec := if tokenData.Some? then tokenData.value else map[];
      if !("refresh_token" in rec && rec["refresh_token"].Str?) {
        return Some(AuthenticationError(NoRefreshTokenMessage)), None;
      }
      var req := RefreshRequest(settings, rec["refresh_token"].s);
      sent := Some(req);
      if reply.status != 200 {
        return Some(AuthenticationError(RefreshFailedMessage(reply.status, reply.text))), sent;
      }
      match reply.body {
        case None =>
          error := Some(ValueError(JsonDecodeMessage));
        case Some(body) =>
          if body.Obj? {
            StoreToken(body.fields, now);
            error := None;
          } else {
            error := Some(Fault(NotADictMessage));
          }
      }
    }

    /** `get_access_token`, as one atomic step. */
    method GetAccessToken(now: int, reply: HttpReply) returns (token: Result<string>, sent: Option<TokenRequest>)
      modifies this`tokenData, this`disk
      ensures var out := Access(old(tokenData), now, settings, reply);
              && token == out.result && sent == out.sent
              && tokenData == After(old(tokenData), out.stored)
              && disk == DiskAfter(old(disk), out.stored)
    {
      sent := None;
      if tokenData.None? {
        return Err(AuthenticationError(NotAuthenticatedMessage)), sent;
      }
      var expired := IsExpired(tokenData, now);
      if expired.Err? {
        return Err(expired.error), sent;
      }
      if expired.value {
        var error;
        error, sent := Refresh(now, reply);
        if error.Some? {
          return Err(error.value), sent;
        }
      }
      token := TokenOf(tokenData.value);
    }
  }

  // -----------------------------------------------------------------------
  // Properties of the specification
  // -----------------------------------------------------------------------

  /**
   * `get_access_token` reports "not authenticated" exactly when no record
   * is held, whatever the clock says: `is_authenticated` ignores expiry.
   */
  lemma NotAuthenticatedIffNoRecord(data: Option<Object>, now: int, settings: Settings, reply: HttpReply)
    ensures Access(data, now, settings, reply).result == Err(AuthenticationError(NotAuthenticatedMessage))
            <==> data.None?
  {
    if data.Some? {
      var out := Access(data, now, settings, reply);
      assert NotAuthenticatedMessage != NoRefreshTokenMessage;
      assert NotAuthenticatedMessage != CorruptCacheMessage;
      if out.result.Err? && out.result.error.AuthenticationError? {
        var m := out.result.error.message;
        assert m == CorruptCacheMessage || m == NoRefreshTokenMessage
            || m == RefreshFailedMessage(reply.status, reply.text);
      }
    }
  }

  /** Without a record nothing is sent and nothing stored. */
  lemma NoRecordNoRefresh(now: int, settings: Settings, reply: HttpReply)
    ensures var out := Access(None, now, settings, reply);
            out.result.Err? && out.result.error.AuthenticationError? && out.sent.None? && out.stored.None?
  {
  }

  /** A refresh request is sent exactly when the record is expired and holds a string refresh token. */
  lemma RefreshIffExpired(rec: Object, now: int, settings: Settings, reply: HttpReply)
    requires IsExpired(Some(rec), now).Ok?
    ensures Access(Some(rec), now, settings, reply).sent.Some?
            <==> IsExpired(Some(rec), now).value && HasStringRefreshToken(rec)
    ensures Access(Some(rec), now, settings, reply).sent.Some?
            ==> Access(Some(rec), now, settings, reply).sent == Some(RefreshRequest(settings, rec["refresh_token"].s))
  {
  }

  /** The margin test is strict: no refresh at exact equality, a refresh one second later. */
  lemma ExpiryBoundary(rest: Object, obtained: int, expiresIn: int)
    ensures var rec := rest["obtained_at" := Int(obtained)]["expires_in" := Int(expiresIn)];
            && IsExpired(Some(rec), obtained + expiresIn - RefreshMarginSeconds) == Ok(false)
            && IsExpired(Some(rec), obtained + expiresIn - RefreshMarginSeconds + 1) == Ok(true)
  {
  }

  /** Absent `obtained_at` and `expires_in` both read as 0. */
  lemma MissingFieldsReadAsZero(rec: Object, now: int)
    requires "obtained_at" !in rec && "expires_in" !in rec
    ensures IsExpired(Some(rec), now) == Ok(now > -RefreshMarginSeconds)
  {
  }

  /** A record that is not expired yields its own access token (or the corrupt-cache error), with no refresh. */
  lemma FreshRecordServed(rec: Object, now: int, settings: Settings, reply: HttpReply)
    requires IsExpired(Some(rec), now) == Ok(false)
    ensures var out := Access(Some(rec), now, settings, reply);
            && out.sent.None? && out.stored.None?
            && (out.result.Ok? <==> "access_token" in rec && rec["access_token"].Str?)
            && (out.result.Ok? ==> out.result.value == rec["access_token"].s)
            && (out.result.Err? ==> out.result.error == AuthenticationError(CorruptCacheMessage))
  {
  }

  /** Expired without a string refresh token: fails, sends nothing, keeps the record. */
  lemma MissingRefreshTokenFails(rec: Object, now: int, settings: Settings, reply: HttpReply)
    requires IsExpired(Some(rec), now) == Ok(true)
    requires !HasStringRefreshToken(rec)
    ensures Access(Some(rec), now, settings, reply)
            == AccessOutcome(Err(AuthenticationError(NoRefreshTokenMessage)), None, None)
  {
  }

  /** A refresh answered with any status but 200 fails naming status and body, and stores nothing. */
  lemma RejectedRefreshFails(rec: Object, now: int, settings: Settings, reply: HttpReply)
    requires IsExpired(Some(rec), now) == Ok(true)
    requires HasStringRefreshToken(rec)
    requires reply.status != 200
    ensures Access(Some(rec), now, settings, reply)
            == AccessOutcome(Err(AuthenticationError(RefreshFailedMessage(reply.status, reply.text))),
                             Some(RefreshRequest(settings, rec["refresh_token"].s)), None)
  {
  }

  /**
   * A refresh answered with 200 replaces the record wholesale by the
   * response plus a fresh `obtained_at`: a refresh token the response omits
   * is gone, one it rotates is the new one.
   */
  lemma AcceptedRefreshReplacesRecord(rec: Object, now: int, settings: Settings, reply: HttpReply, fields: Object)
    requires IsExpired(Some(rec), now) == Ok(true)
    requires HasStringRefreshToken(rec)
    requires reply.status == 200 && reply.body == Some(Obj(fields))
    ensures var out := Access(Some(rec), now, settings, reply);
            && out.sent == Some(RefreshRequest(settings, rec["refresh_token"].s))
            && out.stored == Some(Stamp(fields, now))
            && out.result == TokenOf(Stamp(fields, now))
            && ("refresh_token" in out.stored.value <==> "refresh_token" in fields)
            && ("refresh_token" in fields ==> out.stored.value["refresh_token"] == fields["refresh_token"])
  {
  }

  /** `store_token` overwrites any `obtained_at` it was given and keeps every other field. */
  lemma StampOverwrites(data: Object, now: int)
    ensures Stamp(data, now).Keys == data.Keys + {"obtained_at"}
    ensures Stamp(data, now)["obtained_at"] == Int(now)
    ensures forall k :: k in data && k != "obtained_at" ==> Stamp(data, now)[k] == data[k]
  {
  }

  /** A record just stored counts as expired at that instant only when it lives less than the margin. */
  lemma JustStoredExpiry(data: Object, now: int, expiresIn: int)
    requires "expires_in" in data && data["expires_in"] == Int(expiresIn)
    ensures IsExpired(Some(Stamp(data, now)), now) == Ok(expiresIn < RefreshMarginSeconds)
  {
  }

  /** What `store_token` writes, a later load reads back unchanged; a corrupt file reads as no record. */
  lemma ReloadAfterStore(data: Object, now: int, current: Option<Object>)
    ensures Loaded(current, Parsed(Stamp(data, now))) == Some(Stamp(data, now))
    ensures Loaded(current, Unreadable) == None
    ensures Loaded(current, NoFile) == current
  {
  }
}
