/**
 * `FlutterwaveService`, the HTTP client every resource service goes
 * through: it sanitizes the endpoint, attaches the bearer credential (the
 * trimmed secret key for v3, a cached OAuth token for v4), optionally logs a
 * redacted copy of the request and response, sends the request, and maps
 * what comes back onto a decoded body or a `FlutterwaveException`.
 */
module Client {
  import opened Values
  import opened Strings
  import opened Redaction
  import opened Http
  import opened ClientConfig
  import opened Endpoint
  import opened TokenCache

  /** The key fragments `sanitizeLogData` redacts (there is no `token` among them). */
  const LogFragments: seq<string> :=
    ["secret_key", "secret", "password", "pin", "cvv", "card_number", "account_number", "bvn"]

  const ErrorOccurred: string := "An error occurred"
  const RequestFailed: string := "Flutterwave API request failed"
  const ConnectionFailed: string := "Flutterwave API connection failed: "
  const ConnectionAdvice: string := ". Please check your network connection and API endpoint."

  /**
   * A scalar used as an exception message, converted the way PHP converts
   * it to a string: integers in decimal, true as "1", false and null as "".
   */
  function ToText(v: Value): (s: string)
    requires !v.Arr?
    ensures v.Str? ==> s == v.s
    ensures v.Int? ==> IntCast(s) == v.i
    ensures v.Bool? ==> (Truthy(Str(s)) <==> v.b)
  {
    match v
    case Str(s) => s
    case Int(i) => IntCastOfIntToString(i); IntToString(i)
    case Bool(b) => if b then "1" else ""
    case Null => ""
  }

  /**
   * `new FlutterwaveException($message, $code)`: a scalar message is
   * converted to a string, while an array one makes `Exception::__construct`
   * throw a `TypeError`, which no `catch` in the client intercepts.
   */
  function NewException(message: Value, code: int): (e: Failure)
    ensures e == MessageTypeError <==> message.Arr?
    ensures message.Str? ==> e == Failure(message.s, code)
    ensures message.Int? ==> e.Failure? && e.code == code && IntCast(e.message) == message.i
  {
    if message.Arr? then MessageTypeError else Failure(ToText(message), code)
  }

  /** A decoded body reports failure: `isset($body['status']) && $body['status'] === 'error'`. */
  predicate IsErrorStatus(body: Dict)
  {
    Isset(body, "status") && body["status"] == Str("error")
  }

  /**
   * The message of a failure whose exception carries a response: a non-empty
   * top-level `message`, else a set `data.message`, else the generic text.
   */
  function ResponseMessage(body: Value): (message: Value)
    ensures message != Null
    ensures body.Arr? && "message" in body.m && Truthy(body.m["message"]) ==>
      message == body.m["message"]
    ensures !(body.Arr? && "message" in body.m && Truthy(body.m["message"])) &&
            body.Arr? && "data" in body.m && body.m["data"].Arr? && Isset(body.m["data"].m, "message") ==>
      message == body.m["data"].m["message"]
    ensures !(body.Arr? && "message" in body.m && Truthy(body.m["message"])) &&
            !(body.Arr? && "data" in body.m && body.m["data"].Arr? && Isset(body.m["data"].m, "message")) ==>
      message == Str(RequestFailed)
  {
    if body.Arr? && "message" in body.m && Truthy(body.m["message"]) then body.m["message"]
    else if body.Arr? && "data" in body.m && body.m["data"].Arr? && Isset(body.m["data"].m, "message") then
      body.m["data"].m["message"]
    else Str(RequestFailed)
  }

  /** The exception message looks like a connection problem. */
  predicate ConnectionTrouble(m: string)
  {
    Contains(m, "cURL error") || Contains(m, "Connection") || Contains(m, "timeout")
  }

  /** The message of a failure without a response. */
  function ConnectionMessage(m: string): (message: string)
    ensures ConnectionTrouble(m) ==> message == ConnectionFailed + m + ConnectionAdvice
    ensures !ConnectionTrouble(m) ==> message == RequestFailed + ": " + m
  {
    if ConnectionTrouble(m) then ConnectionFailed + m + ConnectionAdvice
    else RequestFailed + ": " + m
  }

  /** What the client returns or throws once the transport has done its part. */
  function TransportResult(transport: HttpOutcome): (r: Result<Dict>)
    ensures r.Ok? <==> transport.Response? && !IsErrorStatus(transport.body)
    ensures r.Ok? ==> r.value == transport.body
    ensures r.Err? && r.error.Failure? && transport.Response? ==> r.error.code == transport.status
  {
    match transport
    case Response(status, body) =>
      if IsErrorStatus(body) then Err(NewException(Coalesce(body, "message", Str(ErrorOccurred)), status))
      else Ok(body)
    case Thrown(m, code, response) =>
      if response.Some? then Err(NewException(ResponseMessage(response.value.body), response.value.status))
      else Err(Failure(ConnectionMessage(m), code))
  }

  /** One `Log::info` / `Log::error` record written by `request`. */
  datatype LogRecord =
    | RequestLog(verb: Verb, endpoint: string, fullUrl: string, authPreview: string, options: Dict)
    | ResponseLog(status: int, body: Dict)
    | ErrorLog(message: string, code: int, endpoint: string)

  /** `rtrim($baseUrl, '/') . '/' . ltrim($endpoint, '/')` */
  function FullUrl(baseUrl: string, path: string): (url: string)
    ensures StartsWith(url, TrimRight(baseUrl, '/'))
  {
    var base := TrimRight(baseUrl, '/');
    var rest := ['/'] + TrimLeft(path, '/');
    StartsWithConcat(base, rest);
    base + rest
  }

  /** `substr($h, 0, 20) . '...' . substr($h, -10)` */
  function AuthPreview(header: string): (preview: string)
    ensures |preview| <= 33
  {
    var head := if |header| <= 20 then header else header[..20];
    var tail := if |header| <= 10 then header else header[|header| - 10..];
    head + "..." + tail
  }

  /**
   * A header longer than 30 characters is previewed as exactly its first 20
   * and its last 10 characters around "...": the characters in between are
   * not shown.
   */
  lemma LongHeaderPreview(header: string)
    requires |header| > 30
    ensures var preview := AuthPreview(header);
      |preview| == 33 && preview[..20] == header[..20] && preview[20..23] == "..." &&
      preview[23..] == header[|header| - 10..]
  {
  }

  /**
   * A header of at most 30 characters is shown whole: each character stands
   * at its own position in the head of the preview, or at its own distance
   * from the end in the tail.
   */
  lemma ShortHeaderShownWhole(header: string)
    requires |header| <= 30
    ensures var preview := AuthPreview(header);
      forall i :: 0 <= i < |header| ==>
        (i < 20 && preview[i] == header[i]) ||
        (|header| - i <= 10 && preview[|preview| - (|header| - i)] == header[i])
  {
    var preview := AuthPreview(header);
    var head := if |header| <= 20 then header else header[..20];
    var tail := if |header| <= 10 then header else header[|header| - 10..];
    assert preview == head + "..." + tail;
    forall i | 0 <= i < |header|
      ensures (i < 20 && preview[i] == header[i]) ||
        (|header| - i <= 10 && preview[|preview| - (|header| - i)] == header[i])
    {
      if i >= 20 {
        assert preview[|preview| - (|header| - i)] == tail[|tail| - (|header| - i)];
      }
    }
  }

  /** The options handed to the transport: the call's own options plus the Authorization header. */
  function SentOptions(call: ApiCall, bearer: string): Dict
  {
    OptionsOf(call)["headers" := Arr(map["Authorization" := Str(bearer)])]
  }

  /** The records logged after the request went out, when logging is on. */
  function TransportLogs(path: string, transport: HttpOutcome): seq<LogRecord>
  {
    match transport
    case Response(status, body) => [ResponseLog(status, Redacted(LogFragments, body))]
    case Thrown(m, code, _) => [ErrorLog(m, code, path)]
  }

  /** Everything one `request` call does. */
  datatype RequestOutcome = RequestOutcome(
    result: Result<Dict>,
    sent: Option<HttpRequest>,
    logs: seq<LogRecord>,
    tokens: TokenState,
    fetched: bool)

  /**
   * The credential `request` puts in the `Authorization` header: under OAuth
   * the token `getAccessToken` returns (or its failure), otherwise the
   * trimmed secret key with the token cache untouched.
   */
  function Credential(config: Config, st: TokenState, now: int, fetch: TokenFetch): TokenOutcome
    requires ValidateConfig(config).Ok?
  {
    if UsesOAuth(BaseUrl(config)) then TokenStep(st, now, fetch)
    else TokenOutcome(Ok(TrimSpace(config.secretKey.value)), st, false)
  }

  /**
   * `request($method, $endpoint, $options)` for a client built from a valid
   * `config`, whose token cache holds `st`, called at time `now`; `fetch` is
   * what a token request would return and `transport` what the API request
   * would.
   */
  function RequestSpec(config: Config, st: TokenState, call: ApiCall, now: int,
                       fetch: TokenFetch, transport: HttpOutcome): (o: RequestOutcome)
    requires ValidateConfig(config).Ok?
    ensures o.sent.Some? <==> SanitizeEndpoint(call.endpoint).Ok? && Credential(config, st, now, fetch).result.Ok?
    ensures o.sent.Some? ==> o.result == TransportResult(transport) && o.sent.value.endpoint == SanitizeEndpoint(call.endpoint).value
    ensures o.sent.None? ==> o.result.Err? && o.logs == []
    ensures SanitizeEndpoint(call.endpoint).Ok? && Credential(config, st, now, fetch).result.Err? ==>
      o.result == Err(Credential(config, st, now, fetch).result.error)
    ensures o.fetched <==> SanitizeEndpoint(call.endpoint).Ok? && Credential(config, st, now, fetch).fetched
    ensures o.tokens == (if SanitizeEndpoint(call.endpoint).Err? then st else Credential(config, st, now, fetch).state)
  {
    var baseUrl := BaseUrl(config);
    var p := SanitizeEndpoint(call.endpoint);
    if p.Err? then RequestOutcome(Err(p.error), None, [], st, false)
    else
      var path := p.value;
      var token := Credential(config, st, now, fetch);
      if token.result.Err? then RequestOutcome(Err(token.result.error), None, [], token.state, token.fetched)
      else
        var bearer := "Bearer " + token.result.value;
        var options := SentOptions(call, bearer);
        var logs :=
          if config.logRequests then
            [RequestLog(VerbOf(call), path, FullUrl(baseUrl, path), AuthPreview(bearer), Redacted(LogFragments, options))]
            + TransportLogs(path, transport)
          else [];
        RequestOutcome(TransportResult(transport), Some(HttpRequest(VerbOf(call), path, options)),
                       logs, token.state, token.fetched)
  }

  /** A path the sanitizer refuses is thrown before any token request, log record or API request. */
  lemma RefusedPathSendsNothing(config: Config, st: TokenState, call: ApiCall, now: int,
                                fetch: TokenFetch, transport: HttpOutcome)
    requires ValidateConfig(config).Ok? && SanitizeEndpoint(call.endpoint).Err?
    ensures var o := RequestSpec(config, st, call, now, fetch, transport);
      o.result == Err(SanitizeEndpoint(call.endpoint).error) &&
      o.sent.None? && o.logs == [] && o.tokens == st && !o.fetched
  {
  }

  /**
   * A request is sent exactly when the path passes the sanitizer and, under
   * OAuth, a token is obtained; it goes to the sanitized path with the
   * call's verb and payload and `Authorization: Bearer <credential>`, the
   * credential being the token under OAuth and the trimmed secret key otherwise.
   */
  lemma SentRequestShape(config: Config, st: TokenState, call: ApiCall, now: int,
                         fetch: TokenFetch, transport: HttpOutcome)
    requires ValidateConfig(config).Ok?
    ensures var o := RequestSpec(config, st, call, now, fetch, transport);
      o.sent.Some? <==>
        SanitizeEndpoint(call.endpoint).Ok? &&
        (UsesOAuth(BaseUrl(config)) ==> TokenStep(st, now, fetch).result.Ok?)
    ensures var o := RequestSpec(config, st, call, now, fetch, transport);
      o.sent.Some? ==>
        o.sent.value.verb == VerbOf(call) &&
        SanitizeEndpoint(call.endpoint) == Ok(o.sent.value.endpoint) &&
        o.sent.value.options == SentOptions(call, "Bearer " +
          (if UsesOAuth(BaseUrl(config)) then TokenStep(st, now, fetch).result.value
           else TrimSpace(config.secretKey.value)))
  {
    var o := RequestSpec(config, st, call, now, fetch, transport);
    var token := Credential(config, st, now, fetch);
    if UsesOAuth(BaseUrl(config)) {
      assert token == TokenStep(st, now, fetch);
    } else {
      assert token.result == Ok(TrimSpace(config.secretKey.value));
    }
    if o.sent.Some? {
      assert o.sent.value ==
        HttpRequest(VerbOf(call), SanitizeEndpoint(call.endpoint).value,
                    SentOptions(call, "Bearer " + token.result.value));
    }
  }

  /** The payload of each public operation reaches the transport unchanged. */
  lemma SentPayload(call: ApiCall, bearer: string)
    ensures var options := SentOptions(call, bearer);
      options["headers"] == Arr(map["Authorization" := Str(bearer)]) &&
      (call.Get? ==> options.Keys == {"query", "headers"} && options["query"] == Arr(call.query)) &&
      (call.Post? ==> options.Keys == {"json", "headers"} && options["json"] == Arr(call.data)) &&
      (call.Put? ==> options.Keys == {"json", "headers"} && options["json"] == Arr(call.data)) &&
      (call.Delete? ==> options.Keys == {"headers"})
  {
  }

  /** With a static key the token cache is never consulted or changed. */
  lemma StaticKeyNeverFetches(config: Config, st: TokenState, call: ApiCall, now: int,
                              fetch: TokenFetch, transport: HttpOutcome)
    requires ValidateConfig(config).Ok? && !UsesOAuth(BaseUrl(config))
    ensures var o := RequestSpec(config, st, call, now, fetch, transport);
      !o.fetched && o.tokens == st
  {
  }

  /**
   * Under OAuth, while the cached token is valid, a request with an accepted
   * path makes no token request and carries that token.
   */
  lemma CachedTokenReused(config: Config, st: TokenState, call: ApiCall, now: int,
                          fetch: TokenFetch, transport: HttpOutcome)
    requires ValidateConfig(config).Ok? && UsesOAuth(BaseUrl(config))
    requires CacheHit(st, now) && SanitizeEndpoint(call.endpoint).Ok?
    ensures var o := RequestSpec(config, st, call, now, fetch, transport);
      !o.fetched && o.tokens == st && o.sent.Some? &&
      o.sent.value.options["headers"] == Arr(map["Authorization" := Str("Bearer " + st.accessToken.value)])
  {
  }

  /** A sent request ends as the transport's outcome dictates. */
  lemma SentRequestResult(config: Config, st: TokenState, call: ApiCall, now: int,
                          fetch: TokenFetch, transport: HttpOutcome)
    requires ValidateConfig(config).Ok?
    requires RequestSpec(config, st, call, now, fetch, transport).sent.Some?
    ensures RequestSpec(config, st, call, now, fetch, transport).result == TransportResult(transport)
  {
  }

  /**
   * A response is returned as decoded unless its `status` is "error", which
   * is thrown with the HTTP status as code and the body's `message` (or
   * "An error occurred"); an array `message` makes the throw a `TypeError`.
   */
  lemma ResponseOutcome(status: int, body: Dict)
    ensures TransportResult(Response(status, body)).Ok? <==> !IsErrorStatus(body)
    ensures !IsErrorStatus(body) ==> TransportResult(Response(status, body)) == Ok(body)
    ensures IsErrorStatus(body) && !Isset(body, "message") ==>
      TransportResult(Response(status, body)) == Err(Failure(ErrorOccurred, status))
    ensures IsErrorStatus(body) && Isset(body, "message") && body["message"].Str? ==>
      TransportResult(Response(status, body)) == Err(Failure(body["message"].s, status))
    ensures IsErrorStatus(body) && Isset(body, "message") && body["message"].Arr? ==>
      TransportResult(Response(status, body)) == Err(MessageTypeError)
    ensures IsErrorStatus(body) && !(Isset(body, "message") && body["message"].Arr?) ==>
      TransportResult(Response(status, body)).error.Failure? &&
      TransportResult(Response(status, body)).error.code == status
  {
  }

  /**
   * A transport exception always fails the call: with the response's status
   * and message when it carries a response, otherwise with the exception's
   * own code and a message that quotes it.
   */
  lemma ThrownOutcome(m: string, code: int, response: Option<ErrorResponse>)
    ensures TransportResult(Thrown(m, code, response)).Err?
    ensures response.Some? ==>
      TransportResult(Thrown(m, code, response)).error ==
        NewException(ResponseMessage(response.value.body), response.value.status)
    ensures response.None? ==> TransportResult(Thrown(m, code, response)).error.code == code
    ensures response.None? ==> Contains(TransportResult(Thrown(m, code, response)).error.message, m)
  {
    if response.None? {
      var message := ConnectionMessage(m);
      assert StartsWith(m, m);
      if ConnectionTrouble(m) {
        assert message == ConnectionFailed + (m + ConnectionAdvice);
        ContainsInPrefix(m, ConnectionAdvice, m);
        ContainsInSuffix(ConnectionFailed, m + ConnectionAdvice, m);
      } else {
        assert message == (RequestFailed + ": ") + m;
        ContainsInSuffix(RequestFailed + ": ", m, m);
      }
    }
  }

  /** Nothing is logged unless `log_requests` is set. */
  lemma NoLogsWhenDisabled(config: Config, st: TokenState, call: ApiCall, now: int,
                           fetch: TokenFetch, transport: HttpOutcome)
    requires ValidateConfig(config).Ok? && !config.logRequests
    ensures RequestSpec(config, st, call, now, fetch, transport).logs == []
  {
  }

  /**
   * A key holding none of the letters e, p, v and c in either case holds
   * none of the logged-key fragments.
   */
  lemma NotSensitiveWithout(key: string)
    requires 'e' !in key && 'E' !in key && 'p' !in key && 'P' !in key
    requires 'v' !in key && 'V' !in key && 'c' !in key && 'C' !in key
    ensures !IsSensitive(LogFragments, key)
  {
    LowerLacks(key, 'e');
    LowerLacks(key, 'p');
    LowerLacks(key, 'v');
    LowerLacks(key, 'c');
    var low := Lower(key);
    forall j | 0 <= j < |LogFragments|
      ensures !Contains(low, LogFragments[j])
    {
      var fragment := LogFragments[j];
      var c := if j <= 1 then 'e' else if j <= 3 then 'p' else if j == 4 || j == 7 then 'v' else 'c';
      assert c in fragment;
      NotContainsMissingChar(low, fragment, c);
    }
  }

  /** The header name "Authorization" holds none of the logged-key fragments. */
  lemma AuthorizationNotSensitive(key: string)
    requires key == "Authorization"
    ensures !IsSensitive(LogFragments, key)
  {
    NotSensitiveWithout(key);
  }

  /** The parts of a request that went out: its sanitized path and its bearer header. */
  lemma SentParts(config: Config, st: TokenState, call: ApiCall, now: int,
                  fetch: TokenFetch, transport: HttpOutcome) returns (path: string, bearer: string)
    requires ValidateConfig(config).Ok?
    requires RequestSpec(config, st, call, now, fetch, transport).sent.Some?
    ensures var o := RequestSpec(config, st, call, now, fetch, transport);
      o.sent == Some(HttpRequest(VerbOf(call), path, SentOptions(call, bearer))) &&
      o.logs == if config.logRequests then
        [RequestLog(VerbOf(call), path, FullUrl(BaseUrl(config), path), AuthPreview(bearer),
                    Redacted(LogFragments, SentOptions(call, bearer)))] + TransportLogs(path, transport)
      else []
  {
    var o := RequestSpec(config, st, call, now, fetch, transport);
    path := o.sent.value.endpoint;
    var token := Credential(config, st, now, fetch);
    bearer := "Bearer " + token.result.value;
  }

  /** Redaction keeps the `headers` entry of the sent options as it is. */
  lemma RedactionKeepsHeaders(call: ApiCall, bearer: string)
    ensures Redacted(LogFragments, SentOptions(call, bearer))["headers"] == SentOptions(call, bearer)["headers"]
  {
    var headers: Dict := map["Authorization" := Str(bearer)];
    AuthorizationNotSensitive("Authorization");
    assert Redacted(LogFragments, headers) == headers;
  }

  /**
   * The request log record's redacted options still hold the full
   * `Authorization` header: the bearer credential is logged in clear beside
   * its truncated preview.
   */
  lemma LoggedAuthorizationInClear(config: Config, st: TokenState, call: ApiCall, now: int,
                                   fetch: TokenFetch, transport: HttpOutcome)
    requires ValidateConfig(config).Ok? && config.logRequests
    requires RequestSpec(config, st, call, now, fetch, transport).sent.Some?
    ensures var o := RequestSpec(config, st, call, now, fetch, transport);
      |o.logs| == 2 && o.logs[0].RequestLog? &&
      o.logs[0].options["headers"] == o.sent.value.options["headers"]
  {
    var path, bearer := SentParts(config, st, call, now, fetch, transport);
    RedactionKeepsHeaders(call, bearer);
  }

  /**
   * With logging on, the response log record holds the redacted body, in
   * which no scalar under a sensitive key is left at any depth.
   */
  lemma LoggedResponseRedacted(config: Config, st: TokenState, call: ApiCall, now: int,
                               status: int, body: Dict, fetch: TokenFetch)
    requires ValidateConfig(config).Ok? && config.logRequests
    requires RequestSpec(config, st, call, now, fetch, Response(status, body)).sent.Some?
    ensures var o := RequestSpec(config, st, call, now, fetch, Response(status, body));
      |o.logs| == 2 && o.logs[1] == ResponseLog(status, Redacted(LogFragments, body)) &&
      Clean(LogFragments, o.logs[1].body)
  {
    var path, bearer := SentParts(config, st, call, now, fetch, Response(status, body));
    RedactedIsClean(LogFragments, body);
  }

  /** The client object: its configuration, its base URL and its token cache. */
  class FlutterwaveService {
    const config: Config
    const baseUrl: string
    var accessToken: Option<string>
    var tokenExpiresAt: Option<int>

    /** The configuration passed validation and the base URL was derived from it. */
    ghost predicate Valid()
    {
      ValidateConfig(config).Ok? && baseUrl == BaseUrl(config)
    }

    function Tokens(): TokenState
      reads this
    {
      TokenState(accessToken, tokenExpiresAt)
    }

    /** `__construct` once `validateConfig` has passed: an empty token cache. */
    constructor (config: Config)
      requires ValidateConfig(config).Ok?
      ensures Valid() && this.config == config && Tokens() == Empty
    {
      this.config := config;
      this.baseUrl := BaseUrl(config);
      this.accessToken := None;
      this.tokenExpiresAt := None;
    }

    /** `__construct`: throws the `validateConfig` failure, or builds a client. */
    static method Create(config: Config) returns (r: Result<FlutterwaveService>)
      ensures r.Ok? <==> ValidateConfig(config).Ok?
      ensures r.Err? ==> r == Err(ValidateConfig(config).error)
      ensures r.Ok? ==> fresh(r.value) && r.value.Valid() && r.value.config == config && r.value.Tokens() == Empty
    {
      var v := ValidateConfig(config);
      if v.Err? {
        return Err(v.error);
      }
      var service := new FlutterwaveService(config);
      return Ok(service);
    }

    /**
     * `getAccessToken` with its cache test at time `now`: serve the cached
     * token or make one token request (`asked`), refreshing the cache only
     * on success, until a time counted from the reply's arrival.
     */
    method GetAccessToken(now: int, fetch: TokenFetch) returns (result: Result<string>, asked: Option<TokenRequest>)
      requires Valid()
      modifies this
      ensures var o := TokenStep(old(Tokens()), now, fetch);
        result == o.result && Tokens() == o.state &&
        asked == (if o.fetched then Some(TokenRequestFor(config.publicKey.value, config.secretKey.value)) else None)
    {
      if TruthyText(accessToken) && tokenExpiresAt.Some? && tokenExpiresAt.value != 0 && now < tokenExpiresAt.value {
        return Ok(accessToken.value), None;
      }
      asked := Some(TokenRequestFor(config.publicKey.value, config.secretKey.value));
      match fetch {
        case TokenTransportError(m) =>
          result := Err(Failure(AuthenticationFailed + m, 0));
        case TokenBody(token, expiresIn, description, receivedAt) =>
          if token.None? {
            result := Err(Failure(NoAccessToken + TextOr(description, UnknownError), 0));
          } else {
            accessToken := token;
            tokenExpiresAt := Some(receivedAt + IntOr(expiresIn, DefaultLifetime) - RefreshMargin);
            result := Ok(token.value);
          }
      }
    }

    /** `sanitizeLogData` */
    method SanitizeLogData(data: Dict) returns (sanitized: Dict)
      ensures sanitized == Redacted(LogFragments, data)
    {
      sanitized := Sanitize(LogFragments, data);
    }

    /**
     * `request`, reached through `get`, `post`, `put` or `delete`: returns or
     * throws (`result`), hands at most one request to the transport (`sent`)
     * and writes `logs`.
     */
    method Request(call: ApiCall, now: int, fetch: TokenFetch, transport: HttpOutcome)
      returns (result: Result<Dict>, sent: Option<HttpRequest>, logs: seq<LogRecord>)
      requires Valid()
      modifies this
      ensures Valid()
      ensures var o := RequestSpec(config, old(Tokens()), call, now, fetch, transport);
        result == o.result && sent == o.sent && logs == o.logs && Tokens() == o.tokens
    {
      var p := SanitizeEndpoint(call.endpoint);
      if p.Err? {
        return Err(p.error), None, [];
      }
      var credential := ObtainCredential(now, fetch);
      if credential.Err? {
        return Err(credential.error), None, [];
      }
      result, sent, logs := Send(p.value, call, "Bearer " + credential.value, transport);
    }

    /** The credential step of `request`: a token under OAuth, the trimmed secret key otherwise. */
    method ObtainCredential(now: int, fetch: TokenFetch) returns (credential: Result<string>)
      requires Valid()
      modifies this
      ensures Valid()
      ensures var o := Credential(config, old(Tokens()), now, fetch);
        credential == o.result && Tokens() == o.state
    {
      if UsesOAuth(baseUrl) {
        var asked;
        credential, asked := GetAccessToken(now, fetch);
      } else {
        credential := Ok(TrimSpace(config.secretKey.value));
      }
    }

    /**
     * The part of `request` after the credential is known: attach the
     * `Authorization` header, log the request, hand it to the transport,
     * log what came back and return or throw it.
     */
    method Send(path: string, call: ApiCall, bearer: string, transport: HttpOutcome)
      returns (result: Result<Dict>, sent: Option<HttpRequest>, logs: seq<LogRecord>)
      requires Valid()
      ensures result == TransportResult(transport)
      ensures sent == Some(HttpRequest(VerbOf(call), path, SentOptions(call, bearer)))
      ensures logs ==
        if config.logRequests then
          [RequestLog(VerbOf(call), path, FullUrl(BaseUrl(config), path), AuthPreview(bearer),
                      Redacted(LogFragments, SentOptions(call, bearer)))]
          + TransportLogs(path, transport)
        else []
    {
      var options := OptionsOf(call)["headers" := Arr(map["Authorization" := Str(bearer)])];
      logs := [];
      if config.logRequests {
        var sanitizedOptions := SanitizeLogData(options);
        logs := [RequestLog(VerbOf(call), path, FullUrl(baseUrl, path), AuthPreview(bearer), sanitizedOptions)];
      }
      sent := Some(HttpRequest(VerbOf(call), path, options));
      match transport {
        case Response(status, body) =>
          if config.logRequests {
            var sanitizedBody := SanitizeLogData(body);
            logs := logs + [ResponseLog(status, sanitizedBody)];
          }
          if IsErrorStatus(body) {
            result := Err(NewException(Coalesce(body, "message", Str(ErrorOccurred)), status));
          } else {
            result := Ok(body);
          }
        case Thrown(m, code, response) =>
          if config.logRequests {
            logs := logs + [ErrorLog(m, code, path)];
          }
          if response.Some? {
            result := Err(NewException(ResponseMessage(response.value.body), response.value.status));
          } else {
            result := Err(Failure(ConnectionMessage(m), code));
          }
      }
    }
  }
}
