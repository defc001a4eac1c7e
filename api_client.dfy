/** Shared/Services/APIClient.swift and its protocol file: the one request the
    app makes, its optional SOCKS proxy, and how the HTTP outcome becomes a
    usage response, an error, or a connection-test message. The network itself
    is an `Exchange`: what came back for the request. */
module ApiClient {
  import opened Wrappers
  import opened Json
  import opened Localized
  import opened Decimal
  import opened UsageModels

  /** `APIError`, with its `errorDescription`. */
  datatype APIError = NoToken | InvalidResponse | TokenExpired | KeychainLocked | UnsupportedPlan | HttpError(code: int)
  {
    function Description(): Text {
      match this
      case NoToken => Plain("error.notoken")
      case InvalidResponse => Plain("error.invalidresponse")
      case TokenExpired => Plain("error.tokenexpired")
      case KeychainLocked => Plain("error.keychainlocked")
      case UnsupportedPlan => Plain("error.unsupportedplan")
      case HttpError(code) => Key("error.http", [Num(code)])
    }
  }

  /** What `fetchUsage` throws: an `APIError`, or any other error (from URL
      loading or from decoding) with its localized description. */
  datatype FetchError = Api(error: APIError) | Other(description: Text)
  {
    function Description(): Text {
      match this
      case Api(e) => e.Description()
      case Other(d) => d
    }
  }

  /** Foundation's description of a payload `JSONDecoder` cannot turn into the type asked for. */
  const DecodingErrorText: Text := Literal("The data couldn’t be read because it isn’t in the correct format.")

  /** What came back for a request: a URL-loading error, a response that is not
      HTTP, or an HTTP status with a body (None when the body is not JSON). */
  datatype Exchange =
    | TransportError(description: Text)
    | NonHttp
    | Http(status: int, body: Option<Json>)

  datatype Request = Request(url: string, httpMethod: string, headers: seq<(string, string)>)

  const UsageURL := "https://api.anthropic.com/api/oauth/usage"
  const BetaHeader := "oauth-2025-04-20"

  /** `makeRequest(token:)`. */
  function MakeRequest(token: string): (r: Request)
    ensures r.url == UsageURL && r.httpMethod == "GET"
    ensures ("Authorization", "Bearer " + token) in r.headers
    ensures ("anthropic-beta", BetaHeader) in r.headers
  {
    Request(UsageURL, "GET", [("Authorization", "Bearer " + token), ("anthropic-beta", BetaHeader)])
  }

  /** The session used: the shared one, or one configured with a SOCKS proxy. */
  datatype Session = SharedSession | SocksSession(host: string, port: int)

  /** `session(proxyConfig:)`. */
  function SessionFor(proxy: Option<ProxyConfig>): (s: Session)
    ensures s.SocksSession? <==> proxy.Some? && proxy.value.enabled
    ensures s.SocksSession? ==> s.host == proxy.value.host && s.port == proxy.value.port
  {
    if proxy.Some? && proxy.value.enabled then SocksSession(proxy.value.host, proxy.value.port) else SharedSession
  }

  /** `JSONDecoder().decode(UsageResponse.self, from:)`. */
  function DecodeBody(body: Option<Json>): (r: Result<UsageResponse, FetchError>)
    ensures r.Success? <==> body.Some? && body.value.JObject?
  {
    if body.Some? && DecodeResponse(body.value).Some? then Success(DecodeResponse(body.value).value)
    else Failure(Other(DecodingErrorText))
  }

  /** `fetchUsage(token:proxyConfig:)` once the exchange is known. */
  function FetchResult(x: Exchange): (r: Result<UsageResponse, FetchError>)
  {
    match x
    case TransportError(d) => Failure(Other(d))
    case NonHttp => Failure(Api(InvalidResponse))
    case Http(status, body) =>
      if status == 200 then DecodeBody(body)
      else if status == 401 || status == 403 then Failure(Api(TokenExpired))
      else Failure(Api(HttpError(status)))
  }

  /** Status classification: only 200 can succeed; 401 and 403, and only they,
      mean an expired token; every other status is reported with its code. */
  lemma FetchClassification(x: Exchange)
    ensures FetchResult(x).Success? ==> x.Http? && x.status == 200
    ensures FetchResult(x) == Failure(Api(TokenExpired)) <==> x.Http? && (x.status == 401 || x.status == 403)
    ensures x.Http? && x.status !in {200, 401, 403} ==> FetchResult(x) == Failure(Api(HttpError(x.status)))
    ensures x.Http? && x.status == 200 && x.body.Some? ==>
      (FetchResult(x).Success? <==> DecodeResponse(x.body.value).Some?)
  {
  }

  /** `ConnectionTestResult`. */
  datatype ConnectionTestResult = ConnectionTestResult(success: bool, message: Text)

  /** `testConnection(token:proxyConfig:)` once the exchange is known. */
  function TestResult(x: Exchange): (r: ConnectionTestResult)
  {
    match x
    case TransportError(d) => ConnectionTestResult(false, Key("error.network", [Nested(d)]))
    case NonHttp => ConnectionTestResult(false, Plain("error.invalidresponse.short"))
    case Http(status, body) =>
      if status == 200 then
        match DecodeBody(body)
        case Success(usage) =>
          var pct := if usage.fiveHour.Some? then usage.fiveHour.value.utilization else 0.0;
          ConnectionTestResult(true, Key("test.success", [Num(Truncate(pct))]))
        case Failure(_) => ConnectionTestResult(false, Plain("error.unsupportedplan"))
      else if status == 401 || status == 403 then ConnectionTestResult(false, Key("test.expired", [Num(status)]))
      else ConnectionTestResult(false, Key("test.http", [Num(status)]))
  }

  /** A connection test succeeds exactly when a fetch of the same exchange
      would, and then reports the session percentage that fetch returns. */
  lemma TestAgreesWithFetch(x: Exchange)
    ensures TestResult(x).success <==> FetchResult(x).Success?
    ensures FetchResult(x).Success? ==>
      var u := FetchResult(x).value;
      TestResult(x).message == Key("test.success", [Num(Truncate(if u.fiveHour.Some? then u.fiveHour.value.utilization else 0.0))])
    ensures FetchResult(x) == Failure(Api(TokenExpired)) ==> TestResult(x).message == Key("test.expired", [Num(x.status)])
  {
  }

  /** Every failure becomes a message rather than an error: a non-HTTP
      response, an unreadable 200, any other status, and a transport error
      each have their own. */
  lemma TestFailureMessages(x: Exchange)
    ensures x.NonHttp? ==> TestResult(x) == ConnectionTestResult(false, Plain("error.invalidresponse.short"))
    ensures x.Http? && x.status == 200 && FetchResult(x).Failure? ==>
              TestResult(x) == ConnectionTestResult(false, Plain("error.unsupportedplan"))
    ensures x.Http? && x.status !in {200, 401, 403} ==> TestResult(x) == ConnectionTestResult(false, Key("test.http", [Num(x.status)]))
    ensures x.TransportError? ==> TestResult(x) == ConnectionTestResult(false, Key("error.network", [Nested(x.description)]))
  {
  }

  /** The network: what comes back for a request sent through a session. */
  type Network = (Session, Request) -> Exchange

  /** `fetchUsage(token:proxyConfig:)`: one request with the token, through the
      session the proxy settings select. */
  function FetchUsage(network: Network, token: string, proxy: Option<ProxyConfig>): (r: Result<UsageResponse, FetchError>)
  {
    FetchResult(network(SessionFor(proxy), MakeRequest(token)))
  }

  /** `testConnection(token:proxyConfig:)`: the same request, its result mapped
      for display. */
  function TestConnection(network: Network, token: string, proxy: Option<ProxyConfig>): (r: ConnectionTestResult)
  {
    TestResult(network(SessionFor(proxy), MakeRequest(token)))
  }
}

/** Shared/ClaudeAPIClient.swift: the older client, which prefers the Claude Code
    OAuth token and otherwise uses stored session cookies, falling back once from
    cookies to OAuth when the cookies are refused. */
module LegacyApiClient {
  import opened Wrappers
  import opened Json
  import opened Localized
  import opened UsageModels
  import ApiClient

  datatype AuthMethod = OAuth(token: string) | Cookies(sessionKey: string, orgId: string)

  /** The stored cookie configuration, `SharedConfig`. */
  datatype SharedConfig = SharedConfig(sessionKey: string, organizationID: string)

  /** `resolveAuthMethod()`: the keychain's OAuth token first, then complete
      stored cookies, otherwise nothing. */
  function ResolveAuthMethod(keychain: Option<string>, config: Option<SharedConfig>): (r: Option<AuthMethod>)
    ensures keychain.Some? ==> r == Some(OAuth(keychain.value))
    ensures keychain.None? && config.Some? && config.value.sessionKey != [] && config.value.organizationID != [] ==>
      r == Some(Cookies(config.value.sessionKey, config.value.organizationID))
    ensures r.None? <==> keychain.None? && (config.None? || config.value.sessionKey == [] || config.value.organizationID == [])
  {
    if keychain.Some? then Some(OAuth(keychain.value))
    else if config.Some? && config.value.sessionKey != [] && config.value.organizationID != [] then
      Some(Cookies(config.value.sessionKey, config.value.organizationID))
    else None
  }

  const BaseURL := "https://claude.ai"

  /** Whether Foundation's `URL(string:)` accepts a text. Which texts it
      rejects depends on the Foundation release, so it is a parameter. */
  type UrlParser = string -> bool

  /** The endpoint an authentication method asks. */
  function UrlFor(m: AuthMethod): string {
    match m
    case OAuth(_) => ApiClient.UsageURL
    case Cookies(_, org) => BaseURL + "/api/organizations/" + org + "/usage"
  }

  /** The request built for an authentication method, or `invalidURL` when its
      endpoint does not parse as a URL. */
  function RequestFor(m: AuthMethod, parses: UrlParser): (r: Result<ApiClient.Request, ClaudeAPIError>)
    ensures r.Failure? <==> !parses(UrlFor(m))
    ensures r.Failure? ==> r.error == InvalidURL
    ensures m.OAuth? && r.Success? ==> r.value == ApiClient.MakeRequest(m.token)
    ensures m.Cookies? && r.Success? ==>
      && r.value.url == BaseURL + "/api/organizations/" + m.orgId + "/usage" && r.value.httpMethod == "GET"
      && ("Cookie", "sessionKey=" + m.sessionKey) in r.value.headers
      && ("Content-Type", "application/json") in r.value.headers
  {
    if !parses(UrlFor(m)) then Failure(InvalidURL)
    else
      match m
      case OAuth(token) => Success(ApiClient.MakeRequest(token))
      case Cookies(key, org) =>
        Success(ApiClient.Request(UrlFor(m), "GET",
          [("Content-Type", "application/json"), ("Cookie", "sessionKey=" + key)]))
  }

  /** `ClaudeAPIError`, with its `errorDescription`. */
  datatype ClaudeAPIError = NoSessionKey | NoOrganizationID | InvalidURL | InvalidResponse | SessionExpired | UnsupportedPlan | HttpError(code: int)
  {
    function Description(): Text {
      match this
      case NoSessionKey => Plain("error.nosessionkey")
      case NoOrganizationID => Plain("error.noorgid")
      case InvalidURL => Plain("error.invalidurl")
      case InvalidResponse => Plain("error.invalidresponse")
      case SessionExpired => Plain("error.sessionexpired")
      case UnsupportedPlan => Plain("error.unsupportedplan")
      case HttpError(code) => Key("error.http", [Num(code)])
    }
  }

  datatype LegacyError = Claude(error: ClaudeAPIError) | Other(description: Text)
  {
    /** `localizedDescription` of what `fetchUsage()` throws. */
    function Description(): Text {
      match this
      case Claude(e) => e.Description()
      case Other(d) => d
    }
  }

  /** The network of the older client: it always uses the shared session. */
  type Network = ApiClient.Request -> ApiClient.Exchange

  /** `fetchUsage(with:)`: the outcome and the requests sent. `keychain` is what
      the keychain holds when the cookie fallback reads it again. */
  function FetchWith(network: Network, parses: UrlParser, m: AuthMethod, keychain: Option<string>)
    : (r: (Result<UsageResponse, LegacyError>, seq<ApiClient.Request>))
    decreases if m.Cookies? then 1 else 0
  {
    match RequestFor(m, parses)
    case Failure(e) => (Failure(Claude(e)), [])
    case Success(request) =>
    match network(request)
    case TransportError(d) => (Failure(Other(d)), [request])
    case NonHttp => (Failure(Claude(InvalidResponse)), [request])
    case Http(status, body) =>
      if status == 200 then
        (if body.Some? && DecodeResponse(body.value).Some? then Success(DecodeResponse(body.value).value)
         else Failure(Other(ApiClient.DecodingErrorText)), [request])
      else if status == 401 || status == 403 then
        if m.Cookies? && keychain.Some? then
          var (r, sent) := FetchWith(network, parses, OAuth(keychain.value), keychain);
          (r, [request] + sent)
        else (Failure(Claude(SessionExpired)), [request])
      else (Failure(Claude(HttpError(status))), [request])
  }

  /** `fetchUsage()`: no method is `noSessionKey` and sends nothing. */
  function FetchUsageOutcome(network: Network, parses: UrlParser, keychain: Option<string>, config: Option<SharedConfig>,
                             keychainLater: Option<string>)
    : (r: (Result<UsageResponse, LegacyError>, seq<ApiClient.Request>))
  {
    match ResolveAuthMethod(keychain, config)
    case None => (Failure(Claude(NoSessionKey)), [])
    case Some(m) => FetchWith(network, parses, m, keychainLater)
  }

  /** Status handling of one request: 200 succeeds exactly when the body
      decodes, refused credentials end in `sessionExpired` unless a cookie
      request can fall back, and every other status is reported with its code. */
  lemma LegacyFetchClassification(network: Network, parses: UrlParser, m: AuthMethod, keychain: Option<string>)
    requires parses(UrlFor(m))
    ensures var x := network(RequestFor(m, parses).value);
      var r := FetchWith(network, parses, m, keychain).0;
      && (x.NonHttp? ==> r == Failure(Claude(InvalidResponse)))
      && (x.Http? && x.status == 200 ==> (r.Success? <==> x.body.Some? && DecodeResponse(x.body.value).Some?))
      && (x.Http? && x.status in {401, 403} && (m.OAuth? || keychain.None?) ==> r == Failure(Claude(SessionExpired)))
      && (x.Http? && x.status !in {200, 401, 403} ==> r == Failure(Claude(HttpError(x.status))))
  {
  }

  /** Without a usable method nothing is sent and `noSessionKey` is thrown. */
  lemma NoMethodSendsNothing(network: Network, parses: UrlParser, keychain: Option<string>, config: Option<SharedConfig>,
                             keychainLater: Option<string>)
    requires keychain.None? && (config.None? || config.value.sessionKey == [] || config.value.organizationID == [])
    ensures FetchUsageOutcome(network, parses, keychain, config, keychainLater) == (Failure(Claude(NoSessionKey)), [])
  {
  }

  /** An endpoint that does not parse is `invalidURL`: the fetch throws it
      without sending anything. */
  lemma InvalidUrlSendsNothing(network: Network, parses: UrlParser, m: AuthMethod, keychain: Option<string>)
    requires !parses(UrlFor(m))
    ensures FetchWith(network, parses, m, keychain) == (Failure(Claude(InvalidURL)), [])
    ensures FetchWith(network, parses, m, keychain).0.error.Description() == Plain("error.invalidurl")
  {
  }

  /** The connection test reports an endpoint that does not parse as
      `error.invalidurl`, and otherwise maps the exchange of the method's request. */
  lemma InvalidUrlReported(network: Network, parses: UrlParser, m: AuthMethod)
    ensures !parses(UrlFor(m)) ==> TestConnection(network, parses, m) == ApiClient.ConnectionTestResult(false, Plain("error.invalidurl"))
    ensures parses(UrlFor(m)) ==> TestConnection(network, parses, m) == ApiClient.TestResult(network(RequestFor(m, parses).value))
  {
  }

  /** The fallback is bounded: at most two requests, the second only after
      refused cookies and always with OAuth; an OAuth request is never retried. */
  lemma {:induction false} FallbackBounded(network: Network, parses: UrlParser, m: AuthMethod, keychain: Option<string>)
    ensures var (_, sent) := FetchWith(network, parses, m, keychain);
      && |sent| <= 2
      && (|sent| == 0 <==> !parses(UrlFor(m)))
      && (|sent| >= 1 ==> sent[0] == RequestFor(m, parses).value)
      && (|sent| == 2 ==> m.Cookies? && keychain.Some? && RequestFor(OAuth(keychain.value), parses).Success?
                          && sent[1] == RequestFor(OAuth(keychain.value), parses).value
                          && network(sent[0]).Http? && network(sent[0]).status in {401, 403})
      && (m.OAuth? ==> |sent| <= 1)
    decreases if m.Cookies? then 1 else 0
  {
    if m.Cookies? && keychain.Some? {
      FallbackBounded(network, parses, OAuth(keychain.value), keychain);
    }
  }

  /** When the keychain reads the same at resolution and at fallback, the
      fallback never fires: cookies are only chosen when the keychain had no
      token, so exactly one request is sent. */
  lemma FallbackNeedsKeychainChange(network: Network, parses: UrlParser, keychain: Option<string>, config: Option<SharedConfig>)
    ensures |FetchUsageOutcome(network, parses, keychain, config, keychain).1| <= 1
  {
    match ResolveAuthMethod(keychain, config)
    case None =>
    case Some(m) => FallbackBounded(network, parses, m, keychain);
  }

  /** The older client, with the cache file it writes after a successful fetch. */
  class ClaudeAPIClient {
    var cache: Option<CachedUsage>
    var sent: seq<ApiClient.Request>

    constructor(cache: Option<CachedUsage>)
      ensures this.cache == cache && sent == []
    {
      this.cache := cache;
      sent := [];
    }

    /** `fetchUsage(with:)`: on success the response is cached with the fetch time. */
    method FetchUsageWith(network: Network, parses: UrlParser, m: AuthMethod, keychain: Option<string>, now: int)
      returns (r: Result<UsageResponse, LegacyError>)
      modifies this
      decreases if m.Cookies? then 1 else 0
      ensures (r, sent) == (FetchWith(network, parses, m, keychain).0, old(sent) + FetchWith(network, parses, m, keychain).1)
      ensures r.Success? ==> cache == Some(CachedUsage(r.value, now))
      ensures r.Failure? ==> cache == old(cache)
    {
      var built := RequestFor(m, parses);
      if built.Failure? {
        r := Failure(Claude(built.error));
        assert sent == old(sent) + [];
        return;
      }
      var request := built.value;
      sent := sent + [request];
      var x := network(request);
      match x
      case TransportError(d) => r := Failure(Other(d));
      case NonHttp => r := Failure(Claude(InvalidResponse));
      case Http(status, body) =>
        if status == 200 {
          if body.Some? && DecodeResponse(body.value).Some? {
            var usage := DecodeResponse(body.value).value;
            cache := Some(CachedUsage(usage, now));
            r := Success(usage);
          } else {
            r := Failure(Other(ApiClient.DecodingErrorText));
          }
        } else if status == 401 || status == 403 {
          if m.Cookies? && keychain.Some? {
            r := FetchUsageWith(network, parses, OAuth(keychain.value), keychain, now);
            assert sent == old(sent) + ([request] + FetchWith(network, parses, OAuth(keychain.value), keychain).1);
          } else {
            r := Failure(Claude(SessionExpired));
          }
        } else {
          r := Failure(Claude(HttpError(status)));
        }
    }

    method FetchUsage(network: Network, parses: UrlParser, keychain: Option<string>, config: Option<SharedConfig>,
                      keychainLater: Option<string>, now: int)
      returns (r: Result<UsageResponse, LegacyError>)
      modifies this
      ensures (r, sent) == (FetchUsageOutcome(network, parses, keychain, config, keychainLater).0,
                            old(sent) + FetchUsageOutcome(network, parses, keychain, config, keychainLater).1)
      ensures r.Success? ==> cache == Some(CachedUsage(r.value, now))
      ensures r.Failure? ==> cache == old(cache)
    {
      var m := ResolveAuthMethod(keychain, config);
      if m.None? {
        r := Failure(Claude(NoSessionKey));
        assert sent == old(sent) + [];
        return;
      }
      r := FetchUsageWith(network, parses, m.value, keychainLater, now);
    }
  }

  /** `testConnection(method:)`: `error.invalidurl` when the endpoint does not
      parse, otherwise the same mapping as the newer client's test, on the
      request for the method. */
  function TestConnection(network: Network, parses: UrlParser, m: AuthMethod): (r: ApiClient.ConnectionTestResult)
  {
    match RequestFor(m, parses)
    case Failure(_) => ApiClient.ConnectionTestResult(false, Plain("error.invalidurl"))
    case Success(request) => ApiClient.TestResult(network(request))
  }
}
