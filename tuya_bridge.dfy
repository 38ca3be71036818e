/**
 * The serverless bridge to the Tuya Cloud API (netlify/functions/send-to-tuya.js): the
 * regional base URL, the module-wide access-token cache, the signed token and command
 * requests, the interpretation of Tuya's answers and the HTTP handler's status codes.
 *
 * HMAC-SHA256 and JSON serialisation are opaque: they are the two arbitrary functions of a
 * `Crypto` value. `Date.now()` is a `now` parameter, and every `fetch` answer is an input
 * datatype; the requests that would be fetched are returned so that they can be stated.
 */
module TuyaBridge {
  import opened Wrappers

  // ---------------------------------------------------------------------------------------
  // Environment and regional base URL

  /** The process environment the function reads at load time; None is an unset variable. */
  datatype Env = Env(
    accessId: Option<string>,
    accessSecret: Option<string>,
    deviceId: Option<string>,
    region: Option<string>)

  /** JavaScript truthiness of an optional string: present and not empty. */
  predicate Truthy(v: Option<string>) {
    v.Some? && v.value != ""
  }

  /** The handler's configuration check: all three credentials are truthy. */
  predicate Configured(env: Env) {
    Truthy(env.accessId) && Truthy(env.accessSecret) && Truthy(env.deviceId)
  }

  const CnUrl: string := "https://openapi.tuyacn.com"
  const UsUrl: string := "https://openapi.tuyaus.com"
  const EuUrl: string := "https://openapi.tuyaeu.com"
  const InUrl: string := "https://openapi.tuyain.com"

  const KnownRegions: set<string> := {"cn", "us", "eu", "in"}

  /** The own entries of `BASE_URLS`. */
  function RegionUrl(name: string): Option<string> {
    if name == "cn" then Some(CnUrl)
    else if name == "us" then Some(UsUrl)
    else if name == "eu" then Some(EuUrl)
    else if name == "in" then Some(InUrl)
    else None
  }

  /** `TUYA_API_REGION` with its destructuring default, which applies only when it is unset. */
  function RegionName(region: Option<string>): string {
    match region
    case None => "eu"
    case Some(name) => name
  }

  /**
   * `BASE_URL`, with the EU fallback applied to every name that is not one of the four
   * regions (the corrected reading; see `BaseUrlAsWritten`).
   */
  function BaseUrl(region: Option<string>): (url: string)
    ensures region == None ==> url == EuUrl
    ensures region == Some("cn") ==> url == CnUrl
    ensures region == Some("us") ==> url == UsUrl
    ensures region == Some("eu") ==> url == EuUrl
    ensures region == Some("in") ==> url == InUrl
    ensures region.Some? && region.value !in KnownRegions ==> url == EuUrl
  {
    match RegionUrl(RegionName(region))
    case Some(url) => url
    case None => EuUrl
  }

  /** Property names every JavaScript object inherits from `Object.prototype`; all are truthy. */
  const InheritedNames: set<string> := {
    "constructor", "hasOwnProperty", "isPrototypeOf", "propertyIsEnumerable",
    "toLocaleString", "toString", "valueOf", "__proto__",
    "__defineGetter__", "__defineSetter__", "__lookupGetter__", "__lookupSetter__"}

  /** What `BASE_URLS[TUYA_API_REGION] || BASE_URLS.eu` evaluates to. */
  datatype BaseValue = Url(url: string) | InheritedMember(name: string)

  /**
   * `BASE_URL` as written: the lookup also finds inherited members of the object literal,
   * which are truthy, so for those names the EU fallback is never taken. Everywhere else it
   * agrees with `BaseUrl`.
   */
  function BaseUrlAsWritten(region: Option<string>): (v: BaseValue)
    ensures RegionName(region) in InheritedNames ==> v == InheritedMember(RegionName(region))
    ensures RegionName(region) !in InheritedNames ==> v == Url(BaseUrl(region))
  {
    var name := RegionName(region);
    match RegionUrl(name)
    case Some(url) => Url(url)
    case None => if name in InheritedNames then InheritedMember(name) else Url(EuUrl)
  }

  /** A region setting of `toString` defeats the EU fallback of the code as written. */
  lemma InheritedRegionBypassesFallback()
    ensures BaseUrlAsWritten(Some("toString")) == InheritedMember("toString")
    ensures BaseUrlAsWritten(Some("toString")) != Url(EuUrl)
    ensures BaseUrl(Some("toString")) == EuUrl
  {
  }

  // ---------------------------------------------------------------------------------------
  // Decimal text of numbers (`now.toString()`, `${code}`)

  predicate IsDigit(c: char) {
    '0' <= c <= '9'
  }

  predicate AllDigits(s: string) {
    forall i :: 0 <= i < |s| ==> IsDigit(s[i])
  }

  function DigitChar(d: nat): (c: char)
    requires d < 10
    ensures IsDigit(c) && c as int - '0' as int == d
  {
    ('0' as int + d) as char
  }

  /** The decimal text of a natural number: digits only, no leading zero. */
  function Decimal(n: nat): (s: string)
    ensures |s| > 0 && AllDigits(s)
    ensures |s| > 1 ==> s[0] != '0'
    decreases n
  {
    if n < 10 then [DigitChar(n)] else Decimal(n / 10) + [DigitChar(n % 10)]
  }

  /** The number a digit string denotes. */
  function DigitsValue(s: string): nat
    requires AllDigits(s)
  {
    if s == [] then 0
    else DigitsValue(s[..|s| - 1]) * 10 + (s[|s| - 1] as int - '0' as int)
  }

  /** Reading back the decimal text of a number gives the number. */
  lemma {:induction false} DecimalRoundTrip(n: nat)
    ensures DigitsValue(Decimal(n)) == n
    decreases n
  {
    if n >= 10 {
      var s := Decimal(n);
      assert s[..|s| - 1] == Decimal(n / 10);
      DecimalRoundTrip(n / 10);
    }
  }

  /** Distinct numbers have distinct decimal texts. */
  lemma DecimalInjective(a: nat, b: nat)
    ensures Decimal(a) == Decimal(b) ==> a == b
  {
    DecimalRoundTrip(a);
    DecimalRoundTrip(b);
  }

  /** `${i}` for an integer. */
  function IntString(i: int): (s: string)
    ensures |s| > 0
    ensures s[0] == '-' <==> i < 0
  {
    if i < 0 then "-" + Decimal(-i) else Decimal(i)
  }

  // ---------------------------------------------------------------------------------------
  // Signing

  /** A command body as sent to Tuya: `{commands: [{code, value}]}`. */
  datatype Command = Command(code: string, value: int)
  datatype CommandBody = CommandBody(commands: seq<Command>)

  /**
   * The primitives the bridge takes from its platform: `hmacHex(secret, message)` is the
   * lower-case hex HMAC-SHA256 digest, `stringify` is `JSON.stringify`.
   */
  datatype Crypto = Crypto(hmacHex: (string, string) -> string, stringify: CommandBody -> string)

  function UpperChar(c: char): char {
    if 'a' <= c <= 'z' then (c as int - 32) as char else c
  }

  /** `toUpperCase` on ASCII text, as the hex digest is. */
  function UpperAscii(s: string): (r: string)
    ensures |r| == |s|
    ensures forall i :: 0 <= i < |s| ==> r[i] == UpperChar(s[i])
  {
    if s == [] then [] else [UpperChar(s[0])] + UpperAscii(s[1..])
  }

  /**
   * `calculateSign`: the HMAC digest of the string to sign under the secret, character by
   * character in upper case, so it holds no lower-case letter.
   */
  function CalculateSign(crypto: Crypto, stringToSign: string, secret: string): (sign: string)
    ensures |sign| == |crypto.hmacHex(secret, stringToSign)|
    ensures forall i :: 0 <= i < |sign| ==> sign[i] == UpperChar(crypto.hmacHex(secret, stringToSign)[i])
    ensures forall i :: 0 <= i < |sign| ==> !('a' <= sign[i] <= 'z')
  {
    UpperAscii(crypto.hmacHex(secret, stringToSign))
  }

  /** The credentials the handler has checked before any request is built. */
  datatype Credentials = Credentials(accessId: string, accessSecret: string, deviceId: string)

  function CredentialsOf(env: Env): Credentials
    requires Configured(env)
  {
    Credentials(env.accessId.value, env.accessSecret.value, env.deviceId.value)
  }

  /** An HTTP request the bridge would `fetch`. */
  datatype Request = Request(httpMethod: string, url: string, headers: map<string, string>, body: Option<string>)

  const TokenPath: string := "/v1.0/token?grant_type=1"
  const SignMethod: string := "HMAC-SHA256"

  function CommandPath(deviceId: string): string {
    "/v1.0/devices/" + deviceId + "/commands"
  }

  /**
   * The token request: a GET signed over the access id followed by the timestamp, whose `t`
   * header is that same timestamp.
   */
  function TokenRequest(cred: Credentials, baseUrl: string, now: nat, crypto: Crypto): (req: Request)
    ensures req.httpMethod == "GET" && req.url == baseUrl + TokenPath && req.body == None
    ensures req.headers.Keys == {"client_id", "t", "sign", "sign_method", "dev_lang"}
    ensures req.headers["client_id"] == cred.accessId
    ensures req.headers["t"] == Decimal(now)
    ensures req.headers["sign"] == CalculateSign(crypto, cred.accessId + req.headers["t"], cred.accessSecret)
    ensures req.headers["sign_method"] == SignMethod && req.headers["dev_lang"] == "en"
  {
    var timestamp := Decimal(now);
    var stringToSign := cred.accessId + timestamp;
    Request("GET", baseUrl + TokenPath,
      map["client_id" := cred.accessId, "t" := timestamp,
          "sign" := CalculateSign(crypto, stringToSign, cred.accessSecret),
          "sign_method" := SignMethod, "dev_lang" := "en"],
      None)
  }

  /** The signed token string determines its timestamp: reading it back after the id gives `now`. */
  lemma TokenSignedTimestamp(cred: Credentials, now: nat)
    ensures var signed := cred.accessId + Decimal(now);
      AllDigits(signed[|cred.accessId|..]) && DigitsValue(signed[|cred.accessId|..]) == now
  {
    var signed := cred.accessId + Decimal(now);
    assert signed[|cred.accessId|..] == Decimal(now);
    DecimalRoundTrip(now);
  }

  /** `Math.round`: the integer nearest to `x`, a tie going towards +infinity. */
  function Round(x: real): (r: int)
    ensures x - 0.5 < r as real <= x + 0.5
  {
    (x + 0.5).Floor
  }

  function Abs(x: real): real {
    if x < 0.0 then -x else x
  }

  /** No integer is nearer to `x` than `Round(x)`; an equally near one is below it. */
  lemma RoundIsNearest(x: real, k: int)
    ensures Abs(x - Round(x) as real) <= Abs(x - k as real)
    ensures k != Round(x) && Abs(x - k as real) == Abs(x - Round(x) as real) ==> k < Round(x)
  {
  }

  /** The command body: exactly one command, `power_value`, with the rounded reading. */
  function PowerCommand(power: real): (body: CommandBody)
    ensures |body.commands| == 1
    ensures body.commands[0].code == "power_value"
    ensures power - 0.5 < body.commands[0].value as real <= power + 0.5
  {
    CommandBody([Command("power_value", Round(power))])
  }

  /**
   * The command request: a POST to the device's command path carrying the serialised body,
   * signed over id, token, timestamp and body in that order; `t` is the signed timestamp.
   */
  function CommandRequest(cred: Credentials, baseUrl: string, token: string, power: real,
                          now: nat, crypto: Crypto): (req: Request)
    ensures req.httpMethod == "POST" && req.url == baseUrl + CommandPath(cred.deviceId)
    ensures req.body == Some(crypto.stringify(PowerCommand(power)))
    ensures req.headers.Keys == {"client_id", "access_token", "t", "sign", "sign_method", "Content-Type"}
    ensures req.headers["client_id"] == cred.accessId && req.headers["access_token"] == token
    ensures req.headers["t"] == Decimal(now)
    ensures req.headers["sign"] ==
      CalculateSign(crypto, cred.accessId + token + req.headers["t"] + req.body.value, cred.accessSecret)
    ensures req.headers["sign_method"] == SignMethod && req.headers["Content-Type"] == "application/json"
  {
    var timestamp := Decimal(now);
    var bodyString := crypto.stringify(PowerCommand(power));
    var stringToSign := cred.accessId + token + timestamp + bodyString;
    Request("POST", baseUrl + CommandPath(cred.deviceId),
      map["client_id" := cred.accessId, "access_token" := token, "t" := timestamp,
          "sign" := CalculateSign(crypto, stringToSign, cred.accessSecret),
          "sign_method" := SignMethod, "Content-Type" := "application/json"],
      Some(bodyString))
  }

  /**
   * With the id, token and body fixed, the command's string to sign determines the
   * timestamp: two commands signed over the same string were built at the same `now`.
   */
  lemma {:induction false} CommandSignatureBindsTimestamp(id: string, token: string, body: string, a: nat, b: nat)
    requires id + token + Decimal(a) + body == id + token + Decimal(b) + body
    ensures a == b
  {
    var sa, sb := id + token + Decimal(a) + body, id + token + Decimal(b) + body;
    var lo := |id| + |token|;
    assert |Decimal(a)| == |Decimal(b)|;
    assert Decimal(a) == sa[lo..lo + |Decimal(a)|];
    assert Decimal(b) == sb[lo..lo + |Decimal(b)|];
    DecimalInjective(a, b);
  }

  // ---------------------------------------------------------------------------------------
  // Token cache

  /** The module-wide `tokenCache` record. */
  datatype TokenCache = TokenCache(accessToken: Option<string>, expiresAt: int)

  /** Seconds cut off a token's lifetime so that it is renewed before Tuya expires it. */
  const SafetyMarginSeconds: int := 60

  /** The cache may serve its token at `now`: a truthy token, strictly before its expiry. */
  predicate Serves(cache: TokenCache, now: int) {
    Truthy(cache.accessToken) && now < cache.expiresAt
  }

  /** Tuya's answer to the token request, or the error `fetch` threw. */
  datatype TokenReply =
    | TokenUnreachable(reason: string)
    | TokenAnswer(success: bool, msg: Option<string>, accessToken: string, expireTime: int)

  const TokenErrorPrefix: string := "Failed to get Tuya token: "

  /** `${data.msg}`: an absent message reads as `undefined`. */
  function MsgText(msg: Option<string>): string {
    match msg
    case None => "undefined"
    case Some(m) => m
  }

  /** The token `getAccessToken` returns at `now`, or the message of the error it throws. */
  function TokenOutcome(cache: TokenCache, now: int, reply: TokenReply): Result<string, string> {
    if Serves(cache, now) then Ok(cache.accessToken.value)
    else match reply
      case TokenUnreachable(reason) => Err(reason)
      case TokenAnswer(success, msg, token, _) =>
        if success then Ok(token) else Err(TokenErrorPrefix + MsgText(msg))
  }

  /** The cache after `getAccessToken` at `now`: replaced wholesale only by a renewal. */
  function CacheAfter(cache: TokenCache, now: int, reply: TokenReply): TokenCache {
    if !Serves(cache, now) && reply.TokenAnswer? && reply.success then
      TokenCache(Some(reply.accessToken), now + (reply.expireTime - SafetyMarginSeconds) * 1000)
    else cache
  }

  /** A cache hit returns the cached token and leaves the cache alone, whatever Tuya would say. */
  lemma CacheHit(cache: TokenCache, now: int, reply: TokenReply)
    requires Serves(cache, now)
    ensures TokenOutcome(cache, now, reply) == Ok(cache.accessToken.value)
    ensures CacheAfter(cache, now, reply) == cache
    ensures now < cache.expiresAt
  {
  }

  /** Expiry is strict: at the expiry instant itself the token is renewed. */
  lemma ExpiryIsStrict(cache: TokenCache)
    ensures !Serves(cache, cache.expiresAt)
  {
  }

  /**
   * A successful renewal stores the new token, expiring 60 s early, and returns it; an
   * immediate second call at the same `now` is a hit exactly when the token is non-empty and
   * Tuya granted more than 60 s, and then returns the same token.
   */
  lemma RenewalThenHit(cache: TokenCache, now: int, reply: TokenReply, next: TokenReply)
    requires !Serves(cache, now) && reply.TokenAnswer? && reply.success
    ensures CacheAfter(cache, now, reply) ==
      TokenCache(Some(reply.accessToken), now + (reply.expireTime - 60) * 1000)
    ensures TokenOutcome(cache, now, reply) == Ok(reply.accessToken)
    ensures Serves(CacheAfter(cache, now, reply), now) <==> reply.accessToken != "" && reply.expireTime > 60
    ensures reply.accessToken != "" && reply.expireTime > 60 ==>
      TokenOutcome(CacheAfter(cache, now, reply), now, next) == TokenOutcome(cache, now, reply)
  {
  }

  /** After expiry, a renewal that grants more than 60 s yields a strictly later expiry. */
  lemma RenewalExtendsExpiry(cache: TokenCache, now: int, reply: TokenReply)
    requires cache.expiresAt <= now
    requires reply.TokenAnswer? && reply.success && reply.expireTime > 60
    ensures CacheAfter(cache, now, reply).expiresAt > cache.expiresAt
  {
  }

  /** A failed renewal throws with Tuya's message and keeps the old cache. */
  lemma FailedRenewalKeepsCache(cache: TokenCache, now: int, reply: TokenReply)
    requires !Serves(cache, now) && !(reply.TokenAnswer? && reply.success)
    ensures CacheAfter(cache, now, reply) == cache
    ensures reply.TokenAnswer? ==> TokenOutcome(cache, now, reply) == Err(TokenErrorPrefix + MsgText(reply.msg))
  {
  }

  // ---------------------------------------------------------------------------------------
  // Command answers

  /** Tuya's answer to the command request, or the error `fetch` threw. */
  datatype CommandReply =
    | CommandUnreachable(reason: string)
    | CommandAnswer(success: bool, msg: Option<string>, code: Option<int>)

  const ApiErrorPrefix: string := "Tuya API error: "
  const UnknownApiError: string := "Unknown error from Tuya API"

  predicate StartsWith(s: string, prefix: string) {
    |prefix| <= |s| && s[..|prefix|] == prefix
  }

  predicate EndsWith(s: string, suffix: string) {
    |suffix| <= |s| && s[|s| - |suffix|..] == suffix
  }

  /** `data.code || 'N/A'`: a zero or absent code is falsy. */
  function CodeText(code: Option<int>): string {
    if code.Some? && code.value != 0 then IntString(code.value) else "N/A"
  }

  /**
   * The message of the error thrown for an unsuccessful command answer: Tuya's message, or
   * a fixed text when it is empty or absent, followed by Tuya's code, or `N/A` when it is
   * zero or absent.
   */
  function CommandError(msg: Option<string>, code: Option<int>): (e: string)
    ensures StartsWith(e, ApiErrorPrefix)
    ensures Truthy(msg) ==> StartsWith(e[|ApiErrorPrefix|..], msg.value)
    ensures !Truthy(msg) ==> StartsWith(e[|ApiErrorPrefix|..], UnknownApiError)
    ensures code.Some? && code.value != 0 ==> EndsWith(e, " (Code: " + IntString(code.value) + ")")
    ensures !(code.Some? && code.value != 0) ==> EndsWith(e, " (Code: N/A)")
    ensures |e| == |ApiErrorPrefix| + |if Truthy(msg) then msg.value else UnknownApiError|
                   + |" (Code: " + CodeText(code) + ")"|
  {
    var text := if Truthy(msg) then msg.value else UnknownApiError;
    var tail := " (Code: " + CodeText(code) + ")";
    var e := ApiErrorPrefix + (text + tail);
    ConcatParts(ApiErrorPrefix, text + tail);
    ConcatParts(text, tail);
    assert e == ApiErrorPrefix + text + tail;
    e
  }

  lemma ConcatParts(a: string, b: string)
    ensures StartsWith(a + b, a) && EndsWith(a + b, b) && (a + b)[|a|..] == b
  {
    assert (a + b)[..|a|] == a;
  }

  /** A rejected command carrying message and code yields an error naming both. */
  lemma RejectedCommandMessage()
    ensures CommandError(Some("token invalid"), Some(1010)) == "Tuya API error: token invalid (Code: 1010)"
  {
    assert Decimal(1010) == "1010" by {
      assert Decimal(1) == "1";
      assert Decimal(10) == "10";
      assert Decimal(101) == "101";
    }
  }

  /** `sendCommand` after the fetch: it succeeds exactly on a successful answer. */
  function CheckCommandReply(reply: CommandReply): (r: Result<(), string>)
    ensures r.Ok? <==> reply.CommandAnswer? && reply.success
    ensures reply.CommandAnswer? && !reply.success ==> r == Err(CommandError(reply.msg, reply.code))
    ensures reply.CommandUnreachable? ==> r == Err(reply.reason)
  {
    match reply
    case CommandUnreachable(reason) => Err(reason)
    case CommandAnswer(success, msg, code) =>
      if success then Ok(()) else Err(CommandError(msg, code))
  }

  // ---------------------------------------------------------------------------------------
  // HTTP handler

  /** What `JSON.parse(event.body)` and the destructuring of `power` gave. */
  datatype BodyParse =
    | Malformed(reason: string)     // the parse or the destructuring threw
    | Parsed(power: Option<real>)   // Some exactly when `typeof power === 'number'`

  /** The handler's response body; `PowerSent` is the success text with the formatted power. */
  datatype ReplyBody = PlainText(text: string) | JsonMessage(message: string) | PowerSent(power: real)

  datatype HttpReply = HttpReply(statusCode: int, body: ReplyBody)

  const EnvMissingMessage: string := "Required Tuya environment variables are not set in Netlify."
  const InvalidPowerMessage: string := "Invalid \"power\" value in request body."
  const SendErrorPrefix: string := "Napaka pri pošiljanju na Tuya: "

  /** The 500 response of the handler's catch block. */
  function UpstreamFailure(message: string): HttpReply {
    HttpReply(500, JsonMessage(SendErrorPrefix + message))
  }

  /**
   * The handler's checks before any Tuya call, in order: the method, the configuration, the
   * body. `Ok(power)` means all passed and the power reading goes on to Tuya.
   */
  function Precheck(httpMethod: string, env: Env, body: BodyParse): (r: Result<real, HttpReply>)
    ensures httpMethod != "POST" ==> r == Err(HttpReply(405, PlainText("Method Not Allowed")))
    ensures httpMethod == "POST" && !Configured(env) ==> r == Err(HttpReply(500, JsonMessage(EnvMissingMessage)))
    ensures httpMethod == "POST" && Configured(env) && body.Malformed? ==> r == Err(UpstreamFailure(body.reason))
    ensures httpMethod == "POST" && Configured(env) && body == Parsed(None) ==>
      r == Err(HttpReply(400, JsonMessage(InvalidPowerMessage)))
    ensures r.Ok? <==> httpMethod == "POST" && Configured(env) && body.Parsed? && body.power.Some?
    ensures r.Ok? ==> r.value == body.power.value
  {
    if httpMethod != "POST" then Err(HttpReply(405, PlainText("Method Not Allowed")))
    else if !Configured(env) then Err(HttpReply(500, JsonMessage(EnvMissingMessage)))
    else match body
      case Malformed(reason) => Err(UpstreamFailure(reason))
      case Parsed(None) => Err(HttpReply(400, JsonMessage(InvalidPowerMessage)))
      case Parsed(Some(power)) => Ok(power)
  }

  /** The function instance: its configuration, fixed at load time, and the token cache. */
  class TuyaFunction {
    const env: Env
    const baseUrl: string
    var tokenCache: TokenCache

    /** Module load: `BASE_URL` is chosen once and the cache starts empty. */
    constructor (env: Env)
      ensures this.env == env && baseUrl == BaseUrl(env.region)
      ensures tokenCache == TokenCache(None, 0)
    {
      this.env := env;
      baseUrl := BaseUrl(env.region);
      tokenCache := TokenCache(None, 0);
    }

    /**
     * `getAccessToken` at `now`. `reply` is what the token request would bring back; the
     * request is made, and returned, exactly when the cache cannot serve.
     */
    method GetAccessToken(now: nat, reply: TokenReply, crypto: Crypto)
      returns (token: Result<string, string>, request: Option<Request>)
      requires Configured(env)
      modifies this
      ensures request == None <==> Serves(old(tokenCache), now)
      ensures request.Some? ==> request.value == TokenRequest(CredentialsOf(env), baseUrl, now, crypto)
      ensures token == TokenOutcome(old(tokenCache), now, reply)
      ensures tokenCache == CacheAfter(old(tokenCache), now, reply)
    {
      if Truthy(tokenCache.accessToken) && now < tokenCache.expiresAt {
        return Ok(tokenCache.accessToken.value), None;
      }
      request := Some(TokenRequest(CredentialsOf(env), baseUrl, now, crypto));
      match reply
      case TokenUnreachable(reason) =>
        token := Err(reason);
      case TokenAnswer(success, msg, accessToken, expireTime) =>
        if !success {
          token := Err(TokenErrorPrefix + MsgText(msg));
        } else {
          tokenCache := TokenCache(Some(accessToken), now + (expireTime - SafetyMarginSeconds) * 1000);
          token := Ok(tokenCache.accessToken.value);
        }
    }

    /**
     * `handler`: the prechecks, then the token, then the command. `requests` are the fetches
     * made, in order. Only a request that passes every precheck touches the cache or Tuya.
     */
    method Handle(httpMethod: string, body: BodyParse, tokenNow: nat, tokenReply: TokenReply,
                  commandNow: nat, commandReply: CommandReply, crypto: Crypto)
      returns (reply: HttpReply, requests: seq<Request>)
      modifies this
      ensures Precheck(httpMethod, env, body).Err? ==>
        && reply == Precheck(httpMethod, env, body).error
        && requests == [] && tokenCache == old(tokenCache)
      ensures Precheck(httpMethod, env, body).Ok? ==>
        var power := Precheck(httpMethod, env, body).value;
        var token := TokenOutcome(old(tokenCache), tokenNow, tokenReply);
        var tokenRequests := if Serves(old(tokenCache), tokenNow) then []
          else [TokenRequest(CredentialsOf(env), baseUrl, tokenNow, crypto)];
        && tokenCache == CacheAfter(old(tokenCache), tokenNow, tokenReply)
        && (token.Err? ==> reply == UpstreamFailure(token.error) && requests == tokenRequests)
        && (token.Ok? ==>
              && requests == tokenRequests +
                   [CommandRequest(CredentialsOf(env), baseUrl, token.value, power, commandNow, crypto)]
              && reply == match CheckCommandReply(commandReply)
                 case Ok(_) => HttpReply(200, PowerSent(power))
                 case Err(e) => UpstreamFailure(e))
      ensures reply.statusCode in {200, 400, 405, 500}
    {
      var checked := Precheck(httpMethod, env, body);
      if checked.Err? {
        return checked.error, [];
      }
      var power := checked.value;
      var token, tokenRequest := GetAccessToken(tokenNow, tokenReply, crypto);
      requests := if tokenRequest.Some? then [tokenRequest.value] else [];
      if token.Err? {
        return UpstreamFailure(token.error), requests;
      }
      requests := requests + [CommandRequest(CredentialsOf(env), baseUrl, token.value, power, commandNow, crypto)];
      var sent := CheckCommandReply(commandReply);
      reply := match sent
        case Ok(_) => HttpReply(200, PowerSent(power))
        case Err(e) => UpstreamFailure(e);
    }
  }
}
