/**
 * The OAuth 2.0 token cache of the v4 API (`getAccessToken`): a cached
 * token is reused while it has not expired; otherwise one token request is
 * made to the identity provider and its answer either refreshes the cache
 * or fails the call, leaving the cache as it was.
 */
module TokenCache {
  import opened Values
  import opened Strings

  /** The cache fields of the client: `accessToken` and `tokenExpiresAt`. */
  datatype TokenState = TokenState(accessToken: Option<string>, expiresAt: Option<int>)

  const Empty: TokenState := TokenState(None, None)

  /** Lifetime assumed when the identity provider sends no `expires_in`. */
  const DefaultLifetime: int := 600
  /** How long before its announced expiry a token is refreshed. */
  const RefreshMargin: int := 60

  const AuthenticationFailed: string := "Failed to authenticate with Flutterwave: "
  const NoAccessToken: string := "Failed to obtain access token: "
  const UnknownError: string := "Unknown error"

  /**
   * The form sent to the identity provider's token endpoint with the
   * `client_credentials` grant: the trimmed public and secret keys.
   */
  datatype TokenRequest = TokenRequest(clientId: string, clientSecret: string)

  /**
   * What the identity provider's token endpoint does with a token request:
   * it answers with a decoded body (its `access_token`, `expires_in` and
   * `error_description` entries, `None` when absent or null), or the HTTP
   * client throws. `receivedAt` is what the second `time()`, taken once the
   * reply is in, reads; the clock read for the cache test is the `now` of
   * the call.
   */
  datatype TokenFetch =
    | TokenBody(accessToken: Option<string>, expiresIn: Option<int>, errorDescription: Option<string>, receivedAt: int)
    | TokenTransportError(message: string)

  /** The token request built from the two configured keys. */
  function TokenRequestFor(publicKey: string, secretKey: string): (req: TokenRequest)
    ensures req.clientId == TrimSpace(publicKey) && req.clientSecret == TrimSpace(secretKey)
  {
    TokenRequest(TrimSpace(publicKey), TrimSpace(secretKey))
  }

  /** The cached token is served: it is non-empty, its expiry is set and `now` is before it. */
  predicate CacheHit(st: TokenState, now: int)
  {
    TruthyText(st.accessToken) && st.expiresAt.Some? && st.expiresAt.value != 0 && now < st.expiresAt.value
  }

  /** The result of one `getAccessToken` call, the cache after it, and whether a token request was made. */
  datatype TokenOutcome = TokenOutcome(result: Result<string>, state: TokenState, fetched: bool)

  /**
   * One call of `getAccessToken` whose cache test reads the clock at `now`,
   * given what a token request would return.
   */
  function TokenStep(st: TokenState, now: int, fetch: TokenFetch): (o: TokenOutcome)
    ensures o.fetched <==> !CacheHit(st, now)
    ensures o.result.Err? ==> o.state == st
    ensures o.result.Ok? ==> o.state.accessToken == Some(o.result.value)
    ensures o.result.Ok? && o.fetched ==>
      fetch.TokenBody? && o.state.expiresAt.Some? && o.state.expiresAt.value == fetch.receivedAt + IntOr(fetch.expiresIn, DefaultLifetime) - RefreshMargin
  {
    if CacheHit(st, now) then TokenOutcome(Ok(st.accessToken.value), st, false)
    else
      match fetch
      case TokenTransportError(m) =>
        TokenOutcome(Err(Failure(AuthenticationFailed + m, 0)), st, true)
      case TokenBody(token, expiresIn, description, receivedAt) =>
        if token.None? then
          TokenOutcome(Err(Failure(NoAccessToken + TextOr(description, UnknownError), 0)), st, true)
        else
          var lifetime := IntOr(expiresIn, DefaultLifetime);
          TokenOutcome(Ok(token.value), TokenState(token, Some(receivedAt + lifetime - RefreshMargin)), true)
  }

  /** A token request is made exactly when the cache cannot serve the call. */
  lemma FetchesIffMiss(st: TokenState, now: int, fetch: TokenFetch)
    ensures TokenStep(st, now, fetch).fetched <==> !CacheHit(st, now)
  {
  }

  /** A served call returns the cached token and leaves the cache alone. */
  lemma HitServesCachedToken(st: TokenState, now: int, fetch: TokenFetch)
    requires CacheHit(st, now)
    ensures TokenStep(st, now, fetch).result == Ok(st.accessToken.value)
    ensures TokenStep(st, now, fetch).state == st
  {
  }

  /**
   * A successful refresh returns the new token and caches it until
   * `(expires_in ?? 600) - 60` seconds after the clock reading taken once
   * the reply arrived.
   */
  lemma RefreshStoresToken(st: TokenState, now: int, token: string, expiresIn: Option<int>, description: Option<string>,
                           receivedAt: int)
    requires !CacheHit(st, now)
    ensures var o := TokenStep(st, now, TokenBody(Some(token), expiresIn, description, receivedAt));
      o.result == Ok(token) &&
      o.state.accessToken == Some(token) &&
      o.state.expiresAt == Some(receivedAt + IntOr(expiresIn, DefaultLifetime) - RefreshMargin)
  {
  }

  /**
   * Every failure leaves the cache untouched, and it is reported with code 0
   * under one of the two authentication messages.
   */
  lemma FailureKeepsCache(st: TokenState, now: int, fetch: TokenFetch)
    requires TokenStep(st, now, fetch).result.Err?
    ensures TokenStep(st, now, fetch).state == st
    ensures TokenStep(st, now, fetch).fetched
    ensures var e := TokenStep(st, now, fetch).result.error;
      e.code == 0 &&
      (StartsWith(e.message, AuthenticationFailed) || StartsWith(e.message, NoAccessToken))
  {
  }

  /**
   * The failure messages: a transport error carries its own message; a body
   * without `access_token` carries `error_description`, or "Unknown error".
   */
  lemma FailureMessages(st: TokenState, now: int, fetch: TokenFetch)
    requires !CacheHit(st, now)
    ensures fetch.TokenTransportError? ==>
      TokenStep(st, now, fetch).result == Err(Failure(AuthenticationFailed + fetch.message, 0))
    ensures fetch.TokenBody? && fetch.accessToken.None? && fetch.errorDescription.None? ==>
      TokenStep(st, now, fetch).result == Err(Failure(NoAccessToken + UnknownError, 0))
    ensures fetch.TokenBody? && fetch.accessToken.None? && fetch.errorDescription.Some? ==>
      TokenStep(st, now, fetch).result == Err(Failure(NoAccessToken + fetch.errorDescription.value, 0))
  {
  }

  /**
   * A token requested at time `t0` (seconds since the epoch) whose reply,
   * without `expires_in`, arrives at `t1` is reused, with no further token
   * request, at every `t` in `[t0, t1 + 540)`; as the clock does not run
   * backwards, that holds every `t` in `[t0, t0 + 540)`.
   */
  lemma ReuseWithinDefaultWindow(st: TokenState, t0: int, t1: int, token: string, description: Option<string>,
                                 t: int, fetch: TokenFetch)
    requires !CacheHit(st, t0) && TruthyText(Some(token))
    requires 0 <= t0 <= t1 && t0 <= t < t1 + DefaultLifetime - RefreshMargin
    ensures var first := TokenStep(st, t0, TokenBody(Some(token), None, description, t1));
      var second := TokenStep(first.state, t, fetch);
      second.result == Ok(token) && !second.fetched && second.state == first.state
  {
    var first := TokenStep(st, t0, TokenBody(Some(token), None, description, t1));
    assert first.state.expiresAt == Some(t1 + 540);
    assert CacheHit(first.state, t);
  }

  /** From the expiry on, the next call makes a new token request. */
  lemma RefetchAfterExpiry(st: TokenState, t: int, fetch: TokenFetch)
    requires st.expiresAt.Some? && t >= st.expiresAt.value
    ensures TokenStep(st, t, fetch).fetched
  {
  }

  /**
   * A token the provider announces for 60 seconds or less is never served
   * from the cache: the very next call, even at the second its reply
   * arrived, fetches again.
   */
  lemma ShortLivedTokenNotReused(st: TokenState, t0: int, t1: int, token: string, expiresIn: int,
                                 description: Option<string>, t: int, fetch: TokenFetch)
    requires !CacheHit(st, t0) && expiresIn <= RefreshMargin && t >= t1
    ensures var first := TokenStep(st, t0, TokenBody(Some(token), Some(expiresIn), description, t1));
      TokenStep(first.state, t, fetch).fetched
  {
  }

  /**
   * A token PHP considers empty ("" or "0") is stored but never served:
   * every later call fetches again.
   */
  lemma EmptyTokenNotReused(st: TokenState, now: int, fetch: TokenFetch)
    requires st.accessToken == Some("0") || st.accessToken == Some("")
    ensures TokenStep(st, now, fetch).fetched
  {
  }
}
