/**
 * OAuth2 helpers (auth/oauth.py): the authorization URL of section 4.1.1 of
 * RFC 6749 and the token-request forms of sections 4.1.3 and 6, encoded as
 * `application/x-www-form-urlencoded` (Appendix B of RFC 6749) the way
 * Python's `urllib.parse.urlencode` does with `quote_plus`.
 *
 * The encoder follows `quote_plus` with `safe=''`: letters, digits and
 * `_.-~` stay, a space becomes `+`, every other character becomes the
 * `%XX` escapes (upper-case hex) of its UTF-8 bytes. The decoder is the
 * partner used to prove that nothing is lost.
 */
module OAuth {
  import opened Json
  import opened Config

  type byte = x: int | 0 <= x < 256

  type Form = seq<(string, string)>

  // ---------------------------------------------------------------------
  // Encoding
  // ---------------------------------------------------------------------

  /** The characters `quote` never escapes. */
  predicate AlwaysSafe(c: char) {
    || ('A' <= c <= 'Z') || ('a' <= c <= 'z') || ('0' <= c <= '9')
    || c == '_' || c == '.' || c == '-' || c == '~'
  }

  /** The UTF-8 encoding of one scalar value. */
  function Utf8(c: char): (bs: seq<byte>)
    ensures 1 <= |bs| <= 4
  {
    var n := c as int;
    if n < 0x80 then [n]
    else if n < 0x800 then
      assert n / 64 < 32;
      [0xC0 + n / 64, 0x80 + n % 64]
    else if n < 0x10000 then
      assert n / 4096 < 16;
      [0xE0 + n / 4096, 0x80 + (n / 64) % 64, 0x80 + n % 64]
    else
      assert n / 262144 < 8;
      [0xF0 + n / 262144, 0x80 + (n / 4096) % 64, 0x80 + (n / 64) % 64, 0x80 + n % 64]
  }

  function Utf8Encode(s: string): seq<byte> {
    if s == [] then [] else Utf8(s[0]) + Utf8Encode(s[1..])
  }

  function HexDigit(d: int): (c: char)
    requires 0 <= d < 16
    ensures AlwaysSafe(c)
  {
    "0123456789ABCDEF"[d]
  }

  /** `%XX` for one byte. */
  function Escape(b: byte): string {
    ['%', HexDigit(b / 16), HexDigit(b % 16)]
  }

  function Escapes(bs: seq<byte>): string {
    if bs == [] then "" else Escape(bs[0]) + Escapes(bs[1..])
  }

  function QuoteChar(c: char): string {
    if AlwaysSafe(c) then [c]
    else if c == ' ' then "+"
    else Escapes(Utf8(c))
  }

  /** `urllib.parse.quote_plus(s, safe='')`. */
  function QuotePlus(s: string): string {
    if s == [] then "" else QuoteChar(s[0]) + QuotePlus(s[1..])
  }

  function EncodePair(p: (string, string)): string {
    QuotePlus(p.0) + "=" + QuotePlus(p.1)
  }

  function EncodePairs(form: Form): (r: seq<string>)
    ensures |r| == |form|
    ensures forall i :: 0 <= i < |form| ==> r[i] == EncodePair(form[i])
  {
    if form == [] then [] else [EncodePair(form[0])] + EncodePairs(form[1..])
  }

  /** `urllib.parse.urlencode(form)` for string keys and values, in the form's order. */
  function UrlEncode(form: Form): string {
    Join(EncodePairs(form), "&")
  }

  // ---------------------------------------------------------------------
  // Decoding (the partner of the encoder)
  // ---------------------------------------------------------------------

  function HexValue(c: char): (r: Option<int>)
    ensures r.Some? ==> 0 <= r.value < 16
  {
    if '0' <= c <= '9' then Some(c as int - '0' as int)
    else if 'A' <= c <= 'F' then Some(c as int - 'A' as int + 10)
    else if 'a' <= c <= 'f' then Some(c as int - 'a' as int + 10)
    else None
  }

  function PrependAll<T>(xs: seq<T>, o: Option<seq<T>>): Option<seq<T>> {
    match o
    case None => None
    case Some(ys) => Some(xs + ys)
  }

  /** Undoes `+` and `%XX`, yielding the underlying bytes; `None` when malformed. */
  function PercentBytes(t: string): Option<seq<byte>>
    decreases |t|
  {
    if t == [] then Some([])
    else if t[0] == '+' then PrependAll([0x20], PercentBytes(t[1..]))
    else if t[0] == '%' then
      if |t| >= 3 && HexValue(t[1]).Some? && HexValue(t[2]).Some?
      then PrependAll([HexValue(t[1]).value * 16 + HexValue(t[2]).value], PercentBytes(t[3..]))
      else None
    else if t[0] as int < 0x80 then PrependAll([t[0] as int], PercentBytes(t[1..]))
    else None
  }

  predicate Continuation(b: byte) {
    0x80 <= b < 0xC0
  }

  /** Decodes UTF-8; `None` on a malformed sequence. */
  function Utf8Decode(bs: seq<byte>): Option<string>
    decreases |bs|
  {
    if bs == [] then Some("")
    else
      var b0 := bs[0] as int;
      if b0 < 0x80 then PrependAll([b0 as char], Utf8Decode(bs[1..]))
      else if 0xC0 <= b0 < 0xE0 && |bs| >= 2 && Continuation(bs[1]) then
        var v := (b0 - 0xC0) * 64 + (bs[1] as int - 0x80);
        PrependAll([v as char], Utf8Decode(bs[2..]))
      else if 0xE0 <= b0 < 0xF0 && |bs| >= 3 && Continuation(bs[1]) && Continuation(bs[2]) then
        var v := (b0 - 0xE0) * 4096 + (bs[1] as int - 0x80) * 64 + (bs[2] as int - 0x80);
        if 0xD800 <= v < 0xE000 then None else PrependAll([v as char], Utf8Decode(bs[3..]))
      else if 0xF0 <= b0 < 0xF8 && |bs| >= 4
        && Continuation(bs[1]) && Continuation(bs[2]) && Continuation(bs[3]) then
        var v := (b0 - 0xF0) * 262144 + (bs[1] as int - 0x80) * 4096
          + (bs[2] as int - 0x80) * 64 + (bs[3] as int - 0x80);
        if v >= 0x110000 || 0xD800 <= v < 0xE000 then None
        else PrependAll([v as char], Utf8Decode(bs[4..]))
      else None
  }

  /** `urllib.parse.unquote_plus` on well-formed input. */
  function Unquote(t: string): Option<string> {
    match PercentBytes(t)
    case None => None
    case Some(bs) => Utf8Decode(bs)
  }

  /** Python's `str.split(d)`. */
  function SplitOn(s: string, d: char): (r: seq<string>)
    ensures |r| >= 1
    decreases |s|
  {
    if s == [] then [""]
    else
      var rest := SplitOn(s[1..], d);
      if s[0] == d then [""] + rest else [[s[0]] + rest[0]] + rest[1..]
  }

  function FirstIndex(s: string, c: char): (i: nat)
    requires c in s
    ensures i < |s| && s[i] == c && c !in s[..i]
  {
    if s[0] == c then 0
    else
      var j := FirstIndex(s[1..], c);
      assert s[..j + 1] == [s[0]] + s[1..][..j];
      assert c !in [s[0]];
      j + 1
  }

  /** One `name=value` piece, split at its first `=`. */
  function ParsePiece(p: string): Option<(string, string)> {
    if '=' !in p then None
    else
      var i := FirstIndex(p, '=');
      match (Unquote(p[..i]), Unquote(p[i + 1..]))
      case (Some(k), Some(v)) => Some((k, v))
      case _ => None
  }

  function ParsePieces(ps: seq<string>): Option<Form> {
    if ps == [] then Some([])
    else
      match (ParsePiece(ps[0]), ParsePieces(ps[1..]))
      case (Some(p), Some(rest)) => Some([p] + rest)
      case _ => None
  }

  /** Decodes a query string or form body into its ordered pairs. */
  function ParseQuery(q: string): Option<Form> {
    if q == "" then Some([]) else ParsePieces(SplitOn(q, '&'))
  }

  // ---------------------------------------------------------------------
  // Round-trip proof
  // ---------------------------------------------------------------------

  lemma HexRoundTrip(d: int)
    requires 0 <= d < 16
    ensures HexValue(HexDigit(d)) == Some(d)
  {
  }

  /** One `%XX` escape decodes to its byte. */
  lemma EscapeDecode(b: byte, rest: string)
    ensures PercentBytes(Escape(b) + rest) == PrependAll([b], PercentBytes(rest))
  {
    var t := Escape(b) + rest;
    HexRoundTrip(b / 16);
    HexRoundTrip(b % 16);
    assert t[0] == '%' && t[1] == HexDigit(b / 16) && t[2] == HexDigit(b % 16);
    assert t[3..] == rest;
    assert (b / 16) * 16 + b % 16 == b;
  }

  lemma PrependAllCat<T>(xs: seq<T>, ys: seq<T>, o: Option<seq<T>>)
    ensures PrependAll(xs, PrependAll(ys, o)) == PrependAll(xs + ys, o)
    ensures PrependAll([], o) == o
  {
    if o.Some? {
      assert xs + (ys + o.value) == (xs + ys) + o.value;
      assert [] + o.value == o.value;
    }
  }

  lemma {:induction false} EscapesDecode(bs: seq<byte>, u: string)
    ensures PercentBytes(Escapes(bs) + u) == PrependAll(bs, PercentBytes(u))
  {
    if bs != [] {
      var b := bs[0];
      assert Escapes(bs) + u == Escape(b) + (Escapes(bs[1..]) + u);
      EscapeDecode(b, Escapes(bs[1..]) + u);
      EscapesDecode(bs[1..], u);
      PrependAllCat([b], bs[1..], PercentBytes(u));
      assert [b] + bs[1..] == bs;
    } else {
      assert Escapes(bs) + u == u;
      PrependAllCat(bs, bs, PercentBytes(u));
    }
  }

  lemma QuoteCharDecode(c: char, u: string)
    ensures PercentBytes(QuoteChar(c) + u) == PrependAll(Utf8(c), PercentBytes(u))
  {
    if AlwaysSafe(c) {
      assert ([c] + u)[1..] == u;
    } else if c == ' ' {
      assert ("+" + u)[1..] == u;
    } else {
      EscapesDecode(Utf8(c), u);
    }
  }

  lemma {:induction false} QuotePlusBytes(s: string)
    ensures PercentBytes(QuotePlus(s)) == Some(Utf8Encode(s))
  {
    if s == [] {
    } else {
      QuotePlusBytes(s[1..]);
      QuoteCharDecode(s[0], QuotePlus(s[1..]));
    }
  }

  /** Splits `n` into its 6-bit groups, the arithmetic behind multi-byte UTF-8. */
  lemma SixBitGroups(n: int)
    requires 0 <= n
    ensures n == (n / 64) * 64 + n % 64
    ensures n / 64 == ((n / 64) / 64) * 64 + (n / 64) % 64
    ensures (n / 64) / 64 == n / 4096
    ensures ((n / 64) / 64) / 64 == n / 262144
    ensures n / 4096 == ((n / 4096) / 64) * 64 + (n / 4096) % 64
  {
  }

  lemma Utf8DecodeChar(c: char, rest: seq<byte>)
    ensures Utf8Decode(Utf8(c) + rest) == PrependAll([c], Utf8Decode(rest))
  {
    var n := c as int;
    var t := Utf8(c) + rest;
    SixBitGroups(n);
    if n < 0x80 {
      assert t[1..] == rest;
    } else if n < 0x800 {
      assert t[2..] == rest;
      assert (t[0] as int - 0xC0) * 64 + (t[1] as int - 0x80) == n;
    } else if n < 0x10000 {
      assert t[3..] == rest;
      assert (t[0] as int - 0xE0) * 4096 + (t[1] as int - 0x80) * 64 + (t[2] as int - 0x80) == n;
    } else {
      assert t[4..] == rest;
      assert (t[0] as int - 0xF0) * 262144 + (t[1] as int - 0x80) * 4096
        + (t[2] as int - 0x80) * 64 + (t[3] as int - 0x80) == n;
    }
  }

  lemma {:induction false} Utf8RoundTrip(s: string)
    ensures Utf8Decode(Utf8Encode(s)) == Some(s)
  {
    if s != [] {
      Utf8RoundTrip(s[1..]);
      Utf8DecodeChar(s[0], Utf8Encode(s[1..]));
      assert s == [s[0]] + s[1..];
    }
  }

  /** Decoding undoes `quote_plus` for every string. */
  lemma UnquoteQuotePlus(s: string)
    ensures Unquote(QuotePlus(s)) == Some(s)
  {
    QuotePlusBytes(s);
    Utf8RoundTrip(s);
  }

  lemma EscapesAlphabet(bs: seq<byte>)
    ensures '&' !in Escapes(bs) && '=' !in Escapes(bs)
  {
  }

  /** The encoder never emits a separator, so pieces split back apart. */
  lemma {:induction false} QuotePlusNoSeparators(s: string)
    ensures '&' !in QuotePlus(s) && '=' !in QuotePlus(s)
  {
    if s != [] {
      QuotePlusNoSeparators(s[1..]);
      EscapesAlphabet(Utf8(s[0]));
    }
  }

  lemma {:induction false} SplitOnFree(a: string, d: char)
    requires d !in a
    ensures SplitOn(a, d) == [a]
  {
    if a != [] {
      SplitOnFree(a[1..], d);
      assert [a[0]] + a[1..] == a;
    }
  }

  lemma {:induction false} SplitOnCat(a: string, b: string, d: char)
    requires d !in a
    ensures SplitOn(a + [d] + b, d) == [a] + SplitOn(b, d)
  {
    var s := a + [d] + b;
    if a == [] {
      assert s[1..] == b;
    } else {
      assert s[1..] == a[1..] + [d] + b;
      SplitOnCat(a[1..], b, d);
      assert [a[0]] + a[1..] == a;
    }
  }

  lemma {:induction false} SplitJoin(parts: seq<string>)
    requires |parts| >= 1
    requires forall i :: 0 <= i < |parts| ==> '&' !in parts[i]
    ensures SplitOn(Join(parts, "&"), '&') == parts
  {
    if |parts| == 1 {
      SplitOnFree(parts[0], '&');
    } else {
      SplitJoin(parts[1..]);
      assert Join(parts, "&") == parts[0] + ['&'] + Join(parts[1..], "&");
      SplitOnCat(parts[0], Join(parts[1..], "&"), '&');
      assert [parts[0]] + parts[1..] == parts;
    }
  }

  lemma FirstIndexCat(a: string, b: string, c: char)
    requires c !in a
    ensures c in a + [c] + b
    ensures FirstIndex(a + [c] + b, c) == |a|
  {
    var s := a + [c] + b;
    assert s[|a|] == c;
    assert s[..|a|] == a;
  }

  lemma ParsePieceRoundTrip(p: (string, string))
    ensures ParsePiece(EncodePair(p)) == Some(p)
  {
    var k, v := QuotePlus(p.0), QuotePlus(p.1);
    QuotePlusNoSeparators(p.0);
    FirstIndexCat(k, v, '=');
    var s := k + ['='] + v;
    assert EncodePair(p) == s;
    assert s[..|k|] == k && s[|k| + 1..] == v;
    UnquoteQuotePlus(p.0);
    UnquoteQuotePlus(p.1);
  }

  lemma {:induction false} ParsePiecesRoundTrip(form: Form)
    ensures ParsePieces(EncodePairs(form)) == Some(form)
  {
    if form != [] {
      ParsePiecesRoundTrip(form[1..]);
      ParsePieceRoundTrip(form[0]);
      assert EncodePairs(form)[1..] == EncodePairs(form[1..]);
      assert [form[0]] + form[1..] == form;
    }
  }

  /** Every form survives `urlencode` followed by decoding, in order. */
  lemma UrlEncodeRoundTrip(form: Form)
    ensures ParseQuery(UrlEncode(form)) == Some(form)
  {
    if form != [] {
      var pieces := EncodePairs(form);
      forall i | 0 <= i < |pieces| ensures '&' !in pieces[i] {
        QuotePlusNoSeparators(form[i].0);
        QuotePlusNoSeparators(form[i].1);
      }
      SplitJoin(pieces);
      assert '=' in pieces[0];
      assert UrlEncode(form) != "" by {
        JoinKeepsFirst(pieces, "&");
      }
      ParsePiecesRoundTrip(form);
    }
  }

  lemma JoinKeepsFirst(parts: seq<string>, sep: string)
    requires |parts| >= 1
    ensures |Join(parts, sep)| >= |parts[0]|
    ensures Join(parts, sep)[..|parts[0]|] == parts[0]
  {
    if |parts| > 1 {
      assert Join(parts, sep) == parts[0] + (sep + Join(parts[1..], sep));
    }
  }

  // ---------------------------------------------------------------------
  // What oauth.py builds
  // ---------------------------------------------------------------------

  /** The authorization-request parameters, in the order oauth.py lists them. */
  function AuthParams(clientId: string, redirectUri: string): Form {
    [("client_id", clientId), ("response_type", "code"), ("redirect_uri", redirectUri)]
  }

  /** `build_auth_url`: the authorize endpoint, `?`, then the encoded parameters. */
  function BuildAuthUrl(clientId: string, settings: Settings): string {
    settings.meetupAuthEndpoint + "?" + UrlEncode(AuthParams(clientId, settings.meetupRedirectUri))
  }

  /**
   * The URL starts with the authorize endpoint and `?`, and what follows
   * decodes to exactly `client_id`, `response_type=code`, `redirect_uri`,
   * in that order, with the given values unchanged.
   */
  lemma AuthUrlRoundTrip(clientId: string, settings: Settings)
    ensures var url := BuildAuthUrl(clientId, settings);
            var n := |settings.meetupAuthEndpoint|;
            && |url| > n
            && url[..n] == settings.meetupAuthEndpoint
            && url[n] == '?'
            && ParseQuery(url[n + 1..]) == Some(AuthParams(clientId, settings.meetupRedirectUri))
  {
    var url := BuildAuthUrl(clientId, settings);
    var n := |settings.meetupAuthEndpoint|;
    var q := UrlEncode(AuthParams(clientId, settings.meetupRedirectUri));
    assert url[n + 1..] == q;
    UrlEncodeRoundTrip(AuthParams(clientId, settings.meetupRedirectUri));
  }

  /** A form POST to a token endpoint. */
  datatype TokenRequest = TokenRequest(url: string, form: Form)

  /** The first value a form carries under `key`. */
  function FormValue(form: Form, key: string): Option<string> {
    if form == [] then None
    else if form[0].0 == key then Some(form[0].1)
    else FormValue(form[1..], key)
  }

  /** The body `exchange_code` posts (section 4.1.3 of RFC 6749), in dict order. */
  function ExchangeForm(code: string, clientId: string, clientSecret: string, settings: Settings): Form {
    [ ("client_id", clientId),
      ("client_secret", clientSecret),
      ("grant_type", "authorization_code"),
      ("redirect_uri", settings.meetupRedirectUri),
      ("code", code) ]
  }

  function ExchangeRequest(code: string, clientId: string, clientSecret: string, settings: Settings): (r: TokenRequest)
    ensures r.url == settings.meetupTokenEndpoint
    ensures ("grant_type", "authorization_code") in r.form && ("code", code) in r.form
    ensures ("client_id", clientId) in r.form && ("client_secret", clientSecret) in r.form
  {
    TokenRequest(settings.meetupTokenEndpoint, ExchangeForm(code, clientId, clientSecret, settings))
  }

  /**
   * The exchange request goes to the token endpoint and its encoded body
   * decodes to `grant_type=authorization_code` with the code, redirect URI
   * and client credentials unchanged.
   */
  lemma ExchangeRequestFields(code: string, clientId: string, clientSecret: string, settings: Settings)
    ensures var req := ExchangeRequest(code, clientId, clientSecret, settings);
            && req.url == settings.meetupTokenEndpoint
            && FormValue(req.form, "grant_type") == Some("authorization_code")
            && FormValue(req.form, "code") == Some(code)
            && FormValue(req.form, "redirect_uri") == Some(settings.meetupRedirectUri)
            && FormValue(req.form, "client_id") == Some(clientId)
            && FormValue(req.form, "client_secret") == Some(clientSecret)
            && |req.form| == 5
  {
    var f := ExchangeForm(code, clientId, clientSecret, settings);
    var f1, f2, f3, f4 := f[1..], f[2..], f[3..], f[4..];
    assert f1[1..] == f2 && f2[1..] == f3 && f3[1..] == f4;
    assert FormValue(f, "grant_type") == FormValue(f1, "grant_type") == FormValue(f2, "grant_type");
    assert FormValue(f, "redirect_uri") == FormValue(f1, "redirect_uri") == FormValue(f2, "redirect_uri")
      == FormValue(f3, "redirect_uri");
    assert FormValue(f, "code") == FormValue(f1, "code") == FormValue(f2, "code")
      == FormValue(f3, "code") == FormValue(f4, "code");
  }

  /** The refresh-grant body the token store posts (section 6 of RFC 6749), in dict order. */
  function RefreshForm(settings: Settings, refreshToken: string): Form {
    [ ("client_id", settings.meetupClientId),
      ("client_secret", settings.meetupClientSecret),
      ("grant_type", "refresh_token"),
      ("refresh_token", refreshToken) ]
  }

  function RefreshRequest(settings: Settings, refreshToken: string): (r: TokenRequest)
    ensures r.url == settings.meetupTokenEndpoint
    ensures ("grant_type", "refresh_token") in r.form && ("refresh_token", refreshToken) in r.form
  {
    TokenRequest(settings.meetupTokenEndpoint, RefreshForm(settings, refreshToken))
  }

  /** The refresh request carries `grant_type=refresh_token` and the old refresh token, and decodes back intact. */
  lemma RefreshRequestFields(settings: Settings, refreshToken: string)
    ensures var req := RefreshRequest(settings, refreshToken);
            && req.url == settings.meetupTokenEndpoint
            && FormValue(req.form, "grant_type") == Some("refresh_token")
            && FormValue(req.form, "refresh_token") == Some(refreshToken)
            && FormValue(req.form, "client_id") == Some(settings.meetupClientId)
            && FormValue(req.form, "client_secret") == Some(settings.meetupClientSecret)
  {
    var f := RefreshForm(settings, refreshToken);
    var f1, f2, f3 := f[1..], f[2..], f[3..];
    assert f1[1..] == f2 && f2[1..] == f3;
    assert FormValue(f, "grant_type") == FormValue(f1, "grant_type") == FormValue(f2, "grant_type");
    assert FormValue(f, "refresh_token") == FormValue(f1, "refresh_token") == FormValue(f2, "refresh_token")
      == FormValue(f3, "refresh_token");
  }
}
