# laravel-flutterwave, modelled in Dafny

A model of the logic of the `abramcatalyst/laravel-flutterwave` Laravel
package: the HTTP client `FlutterwaveService` that every resource service
goes through, the `VerifyFlutterwaveWebhook` middleware that guards the
webhook route, the `WebhookService` that verifies, redacts and routes
webhook payloads, and the input checks of `PaymentService` and
`AccountVerificationService`, together with proofs of what they promise.

The project is thirteen modules, one file each:

- `values.dfy` (`Values`): PHP values (`null`, booleans, integers, strings, arrays keyed by strings), `empty`/`isset`/`??`, and `Result` for "returns or throws a `FlutterwaveException`".
- `strings.dfy` (`Strings`): the PHP string functions the code relies on (`strpos`, `strtolower`, `trim`/`ltrim`/`rtrim`, `explode`, `(int)` and `(string)` casts, and the part of a subject a `^...$` pattern must match).
- `redaction.dfy` (`Redaction`): the key-based recursive redaction loop shared by `sanitizeLogData` and `sanitizeWebhookData`, as a specification function and as the imperative loop, with their equality proved.
- `http.dfy` (`Http`): the client's public calls (`get`, `post`, `put`, `delete`) and what the transport does.
- `client_config.dfy` (`ClientConfig`): `validateConfig`, `getBaseUrl`, and the v3 static-key / v4 OAuth choice.
- `endpoint.dfy` (`Endpoint`): `sanitizeEndpoint` and the paths the services build.
- `token_cache.dfy` (`TokenCache`): the one-slot OAuth token cache of `getAccessToken` as a state-transition function. This is the client-credentials grant of section 4.4 of RFC 6749, with `expires_in` read as in section 5.1 of RFC 6749.
- `client.dfy` (`Client`): the class `FlutterwaveService` with its cache fields. Its methods `GetAccessToken`, `SanitizeLogData` and `Request` are each proved equal to a specification function. The error mapping and the logging of `request` are stated as lemmas.
- `cidr.dfy` (`Cidr`): `filter_var`'s IP check, `ip2long` and `ipInRange` (the prefix notation of section 3.1 of RFC 4632) as written, and the range test with its IPv6 comparison corrected.
- `webhook_gate.dfy` (`WebhookGate`): the middleware's seven ordered checks as a pure decision function. The class `RateLimiter` holds the per-IP counters, and the method `Handle` changes them and is proved against that function.
- `webhook_service.dfy` (`WebhookService`): `verifySignature`, `sanitizeWebhookData`, `handle`, `processPayment` and the webhook route's 200/400 answer.
- `payment_service.dfy` (`PaymentService`): `validateTransactionId` and the calls the payment operations make.
- `account_verification.dfy` (`AccountVerification`): the BIN, account-number and bank-code checks and the calls they guard.

The clock, the identity provider's answer and the API's answer are
parameters. The `request` method returns the request it hands to the
transport and the log records it writes, instead of performing them.
A resource-service operation is modelled as the client call it makes
(an `ApiCall`), or as the exception it throws before making one.

Where the code and its documentation differ, the model follows the code:
- `sanitizeEndpoint` has no length, backslash or percent-encoding check, and `base_url` has no host allow-list.
- A token fetch is not retried.
- The client's redaction list has no `token` entry.
- A failure without a response keeps the exception's own code.

## Model

| member | source | states |
|---|---|---|
| ClientConfig.ValidateConfig | src/FlutterwaveService.php:90-99 | accepted iff both keys are non-empty in PHP's sense (so "0" is refused); a bad secret key is reported first, then a bad public key |
| ClientConfig.BaseUrl | src/FlutterwaveService.php:106-117 | a non-empty `base_url` is used verbatim; otherwise the URL is `https://api.flutterwave.com/`, then `api_version` (`v3` when unset; an empty one stays empty), then '/' |
| ClientConfig.DefaultIsV3StaticKey | src/FlutterwaveService.php:113-116 | with no override and no version the base URL is `https://api.flutterwave.com/v3/` and OAuth is not used |
| ClientConfig.ExplicitV3StaticKey | src/FlutterwaveService.php:113-116 | `api_version` v3 without override selects the static key |
| ClientConfig.V3UrlIsStaticKey | src/FlutterwaveService.php:288 | the v3 gateway URL holds no "/v4/" |
| ClientConfig.V4SelectsOAuth | src/FlutterwaveService.php:288 | `api_version` v4 without override gives `https://api.flutterwave.com/v4/` and selects OAuth |
| ClientConfig.OverrideDecidesMode | src/FlutterwaveService.php:288 | with an override, OAuth is used iff the override itself contains "/v4/", whatever `api_version` says |
| Client.FlutterwaveService.constructor | src/FlutterwaveService.php:61-81 | a client built from a valid configuration has its base URL derived from it and an empty token cache |
| Client.FlutterwaveService.Create | src/FlutterwaveService.php:61-66 | construction succeeds iff `validateConfig` passes, throwing its failure otherwise |
| Endpoint.SanitizeEndpoint | src/FlutterwaveService.php:223-239 | an accepted path is exactly the input with '/' trimmed from both ends |
| Endpoint.SanitizeEndpointAccepts | src/FlutterwaveService.php:226-231 | accepted iff the trimmed path holds neither ".." nor "//"; every refusal is "Invalid endpoint path" |
| Endpoint.AbsoluteUrlHasDoubleSlash | src/FlutterwaveService.php:234 | every string the `^https?://` check (case-insensitive) matches contains "//" |
| Endpoint.AbsoluteUrlCheckUnreachable | src/FlutterwaveService.php:229-236 | the absolute-URL refusal is never the outcome, for any input |
| Endpoint.SanitizedPathShape | src/FlutterwaveService.php:226-238 | an accepted path has no '/' at either end and holds neither ".." nor "//" |
| Endpoint.SanitizeIdempotent | src/FlutterwaveService.php:223-239 | sanitizing an accepted path again gives the same result |
| Endpoint.EmptyPathAccepted | src/FlutterwaveService.php:226-238 | the empty path and any run of slashes are accepted as "" |
| Endpoint.TraversalSurvivesTrim | src/FlutterwaveService.php:226-229 | a ".." in the input is still there after trimming '/' |
| Endpoint.TraversalRefused | src/FlutterwaveService.php:229-231 | any input containing ".." is refused with "Invalid endpoint path" |
| Endpoint.InnerDoubleSlashRefused | src/FlutterwaveService.php:226-231 | a path with "//" strictly inside it, not at either end, is refused with "Invalid endpoint path" |
| Endpoint.SegmentsPassUnchanged | src/FlutterwaveService.php:226-238 | a path joined with '/' from non-empty segments without '/' or '.' passes the sanitizer unchanged |
| Http.OptionsOf | src/FlutterwaveService.php:173-214 | the options `get`/`post`/`put`/`delete` pass on never hold a `headers` entry |
| TokenCache.TokenRequestFor | src/FlutterwaveService.php:142-146 | the token request carries the trimmed public key as client id and the trimmed secret key as client secret |
| TokenCache.TokenStep | src/FlutterwaveService.php:125-163 | a token request is made iff the cache does not serve its token; a failure leaves the cache as it was; a success caches the token it returns, and after a request the expiry is the reply's arrival time plus `(expires_in ?? 600) - 60` |
| TokenCache.FetchesIffMiss | src/FlutterwaveService.php:128-147 | a token request is made iff the cached token is not served (empty, no expiry, or expired); there is at most one |
| TokenCache.HitServesCachedToken | src/FlutterwaveService.php:128-130 | a cache hit returns the cached token and leaves the cache unchanged |
| TokenCache.RefreshStoresToken | src/FlutterwaveService.php:155-159 | a body with `access_token` returns it and caches it until `(expires_in ?? 600) - 60` seconds after the clock reading taken once the reply arrived, not the one of the cache test |
| TokenCache.FailureKeepsCache | src/FlutterwaveService.php:151-162 | every failure comes from a token request, leaves the cache unchanged, has code 0 and one of the two authentication message prefixes |
| TokenCache.FailureMessages | src/FlutterwaveService.php:151-161 | a transport error carries its own message; a body without `access_token` carries `error_description`, or "Unknown error" |
| TokenCache.ReuseWithinDefaultWindow | src/FlutterwaveService.php:155-157 | a token requested at t0 whose reply, without `expires_in`, arrives at t1 >= t0 is served with no further request at every t in [t0, t1+540) |
| TokenCache.RefetchAfterExpiry | src/FlutterwaveService.php:128 | from the expiry instant on, the next call makes a token request |
| TokenCache.ShortLivedTokenNotReused | src/FlutterwaveService.php:157 | a token announced for 60 seconds or less is never served from the cache from its reply's arrival on |
| TokenCache.EmptyTokenNotReused | src/FlutterwaveService.php:128 | a cached "" or "0" token is never served |
| Client.FlutterwaveService.GetAccessToken | src/FlutterwaveService.php:125-163 | result and new cache fields are those of the cache-transition function, the cache test reading the clock before the token request and the expiry the reading after the reply; a token request with the trimmed keys is made exactly on a miss |
| Redaction.Redacted | src/FlutterwaveService.php:247-270 | keys are preserved; nested arrays are replaced by their own redaction, even under a sensitive key; other values under a sensitive key become "***REDACTED***"; the rest is kept |
| Redaction.RedactedIsClean | src/FlutterwaveService.php:252-267 | no scalar under a sensitive key survives redaction, at any depth |
| Redaction.CleanIsFixed | src/FlutterwaveService.php:247-270 | an array with no sensitive scalar left at any depth is not changed by redaction |
| Redaction.RedactIdempotent | src/FlutterwaveService.php:247-270 | redacting twice is redacting once, for any fragment list |
| Redaction.Sanitize | src/FlutterwaveService.php:250-269 | the loop over a copy (marker on the first matching fragment, then recursion into arrays) computes exactly the redaction |
| Client.FlutterwaveService.SanitizeLogData | src/FlutterwaveService.php:247-270 | the client's sanitizer is the redaction with its eight fragments (no `token`) |
| Client.ToText | src/FlutterwaveService.php:331-334 | a string message is used as is; an integer message is written so that `(int)` reads it back; a boolean message is truthy iff it is `true` |
| Client.NewException | src/FlutterwaveService.php:332-335 | `new FlutterwaveException($message, $code)`: an array message makes the constructor throw a `TypeError`; a string message is kept and an integer one converted, each with the given code |
| Client.ResponseMessage | src/FlutterwaveService.php:355-363 | never null: a set, non-empty `message` is used; otherwise a set `data.message`; with neither, "Flutterwave API request failed" |
| Client.ConnectionMessage | src/FlutterwaveService.php:376-382 | the "connection failed" message with advice iff the message contains "cURL error", "Connection" or "timeout" (case-sensitive); otherwise "request failed: " and the message |
| Client.TransportResult | src/FlutterwaveService.php:317-384 | the body is returned iff a response arrived and its `status` is not "error"; an exception thrown for an answered request carries its HTTP status |
| Client.FullUrl | src/FlutterwaveService.php:305 | the logged URL starts with the base URL less its trailing slashes |
| Client.AuthPreview | src/FlutterwaveService.php:307 | the logged header preview is at most 33 characters long |
| Client.LongHeaderPreview | src/FlutterwaveService.php:307 | a header longer than 30 characters is shown as its first 20 characters, "...", and its last 10 |
| Client.ShortHeaderShownWhole | src/FlutterwaveService.php:307 | every character of a header of 30 characters or fewer appears in the preview, in the head or in the tail |
| Client.RefusedPathSendsNothing | src/FlutterwaveService.php:283-285 | a refused path throws the sanitizer's failure before any token request, log record or API request |
| Client.RequestSpec | src/FlutterwaveService.php:281-386 | a request is sent iff the path is accepted and a credential is obtained; a sent request goes to the sanitized path and its outcome is the transport answer's; an unsent one fails with nothing logged; a credential failure after an accepted path is thrown as `getAccessToken`'s own failure; a token request is made iff the path is accepted and the credential step makes one; the token cache is as the credential step leaves it, untouched when the path is refused |
| Client.SentRequestShape | src/FlutterwaveService.php:285-298 | a request is sent iff the path is accepted and, under OAuth, a token is obtained; it carries the verb, the sanitized path, the call's options and `Authorization: Bearer` with the token or the trimmed secret key |
| Client.SentPayload | src/FlutterwaveService.php:173-214 | `get` sends its query under `query`, `post`/`put` their data under `json`, `delete` nothing, each plus the Authorization header |
| Client.StaticKeyNeverFetches | src/FlutterwaveService.php:293-298 | without "/v4/" in the base URL the token cache is never consulted or changed |
| Client.CachedTokenReused | src/FlutterwaveService.php:293-295 | under OAuth with a valid cached token, no token request is made and the bearer is that token |
| Client.SentRequestResult | src/FlutterwaveService.php:318-338 | once sent, the outcome is what the transport's answer maps to |
| Client.ResponseOutcome | src/FlutterwaveService.php:331-338 | a response is returned iff its `status` is not "error"; otherwise the exception carries the HTTP status and a string `message`, or "An error occurred" when it is unset; an array `message` ends in a `TypeError` instead |
| Client.ThrownOutcome | src/FlutterwaveService.php:352-384 | a transport exception always fails: with the response's message and status when it has a response, otherwise with its own code and a message quoting it |
| Client.NoLogsWhenDisabled | src/FlutterwaveService.php:300 | nothing is logged unless `log_requests` is set |
| Client.NotSensitiveWithout | src/FlutterwaveService.php:249-261 | a key without e, p, v and c in either case matches none of the client's fragments |
| Client.AuthorizationNotSensitive | src/FlutterwaveService.php:302 | "Authorization" matches none of the client's fragments |
| Client.SentParts | src/FlutterwaveService.php:289-329 | a sent request and its log records are built from one sanitized path and one bearer header |
| Client.RedactionKeepsHeaders | src/FlutterwaveService.php:302 | redaction keeps the `headers` entry of the sent options as it is |
| Client.LoggedAuthorizationInClear | src/FlutterwaveService.php:300-315 | with logging on, the logged options hold the full Authorization header, next to its truncated preview |
| Client.LoggedResponseRedacted | src/FlutterwaveService.php:321-329 | the response log record holds the redacted body, with no sensitive scalar at any depth |
| Client.FlutterwaveService.Request | src/FlutterwaveService.php:281-386 | result, sent request, log records and new token cache are those of the request specification |
| Client.FlutterwaveService.ObtainCredential | src/FlutterwaveService.php:287-298 | the credential and new cache are the token step under OAuth, else the trimmed secret key with the cache untouched |
| Client.FlutterwaveService.Send | src/FlutterwaveService.php:300-384 | the request goes out with the Authorization header added; logs and result are those the transport's answer determines |
| WebhookService.ZeroSecretRefusesAll | src/Services/WebhookService.php:38-43 | a configured hash of "0" refuses every signature, even "0" |
| WebhookService.VerifySignature | src/Services/WebhookService.php:35-52 | an accepted signature is present and equals the configured hash, which is neither empty nor "0" |
| WebhookService.SignatureAcceptedIffMatches | src/Services/WebhookService.php:35-52 | a signature is accepted iff it equals the configured hash and that hash is non-empty in PHP's sense |
| WebhookService.SanitizeWebhookData | src/Services/WebhookService.php:60-81 | the webhook sanitizer is the redaction with its eight fragments (`token` among them) |
| WebhookService.SanitizeWebhookIdempotent | src/Services/WebhookService.php:60-81 | sanitizing a payload twice is sanitizing it once |
| WebhookService.AccessTokenRedacted | src/Services/WebhookService.php:62 | the webhook list redacts "access_token" |
| WebhookService.Handle | src/Services/WebhookService.php:89-108 | nothing iff the signature fails; otherwise the payload itself, unredacted |
| WebhookService.HandleLogIsClean | src/Services/WebhookService.php:98-106 | the logged `data` holds no sensitive scalar at any depth |
| WebhookService.RouteOf | src/Services/WebhookService.php:129-138 | a string event routes to the success handler iff it is charge.completed or charge.successful, to the failure handler iff it is charge.failed; `true` matches the first case under loose comparison; other non-strings are unhandled |
| WebhookService.ProcessPayment | src/Services/WebhookService.php:117-140 | null iff the signature fails or the payload is empty; a `TypeError` iff the signature holds, the payload is non-empty, the event is routed and its set `data` is not an array; an `ErrorException` iff the signature holds, the payload is non-empty and the unhandled event is an array (its interpolation into the log line warns, and Laravel throws the warning); any other unhandled event returns the whole payload |
| WebhookService.ProcessRequiresSignature | src/Services/WebhookService.php:119-123 | `processPayment` yields null iff the signature fails or the payload is empty |
| WebhookService.ProcessRoutesByEvent | src/Services/WebhookService.php:125-138 | charge events yield their `data` (or `[]`), every other event the whole payload, except an array event, whose log-line interpolation throws; a routed event whose set `data` is not an array gives the `TypeError` of the return type |
| WebhookService.MissingEventUnhandled | src/Services/WebhookService.php:125 | a payload without `event` is returned whole |
| WebhookService.RouteStatus | routes/web.php:19-31 | the route answers 200 iff `processPayment` yields a non-empty array, and 500 iff it throws (the `TypeError` or the array-event `ErrorException`) |
| WebhookService.ArrayEventIs500 | src/Services/WebhookService.php:134-137 | a verified webhook whose `event` is an array is answered 500 instead of being returned whole |
| WebhookService.EmptyChargeDataIs400 | routes/web.php:23-30 | a verified charge event with missing or empty `data` is answered 400 |
| WebhookService.UnverifiedIs400 | routes/web.php:21-30 | a webhook whose signature fails is answered 400 |
| WebhookGate.MatchesEntry | src/Middleware/VerifyFlutterwaveWebhook.php:113-126 | one turn of the loop computes the entry test, as written |
| WebhookGate.EntryTest | src/Middleware/VerifyFlutterwaveWebhook.php:113-126 | an entry equal to the client admits it; any other entry without '/' does not; an entry with '/' answers as `ipInRange` as written, IPv6 comparison included, which may throw |
| WebhookGate.FirstDecisive | src/Middleware/VerifyFlutterwaveWebhook.php:113-129 | false iff every remaining test is false; otherwise the first test that is not false, every earlier one being false |
| WebhookGate.AllowListTest | src/Middleware/VerifyFlutterwaveWebhook.php:102-130 | an empty list admits without looking at the client; otherwise false iff every trimmed entry's test is false |
| WebhookGate.ValidateWebhookIP | src/Middleware/VerifyFlutterwaveWebhook.php:102-130 | the loop, stopping at the first entry that admits or throws, computes the allow-list test (`ipInRange` as written) |
| WebhookGate.KeyTextInjective | src/Middleware/VerifyFlutterwaveWebhook.php:46 | two clients share a rate key iff they have the same address |
| WebhookGate.TooLarge | src/Middleware/VerifyFlutterwaveWebhook.php:23-26 | a request is refused for size only with a `Content-Length` whose `(int)` exceeds the maximum; with a non-negative maximum every such header is refused |
| WebhookGate.TimestampFresh | src/Middleware/VerifyFlutterwaveWebhook.php:164-186 | the timestamp check passes iff the header is missing, "" or "0", or its `(int)` is at most 300 seconds from now in either direction |
| WebhookGate.Remaining | src/Middleware/VerifyFlutterwaveWebhook.php:59-91 | the checks after the rate limit admit iff the timestamp is fresh (or the check is off) and `verifySignature` would accept; they never answer 413 or 429 |
| WebhookGate.PreRateRejection | src/Middleware/VerifyFlutterwaveWebhook.php:23-41 | the size and IP checks find nothing iff the size is within the limit and the allow-list admits; they end in an `ArithmeticError` iff the size passes and the allow-list test throws |
| WebhookGate.RateRejection | src/Middleware/VerifyFlutterwaveWebhook.php:44-53 | an earlier refusal stands; otherwise the rate check passes iff limiting is off or the counter is below the limit |
| WebhookGate.EarlyRejection | src/Middleware/VerifyFlutterwaveWebhook.php:23-56 | the first three checks pass iff size, allow-list and counter all pass |
| WebhookGate.Checks | src/Middleware/VerifyFlutterwaveWebhook.php:20-94 | there are seven checks, each answering with a refusal |
| WebhookGate.FirstFailure | src/Middleware/VerifyFlutterwaveWebhook.php:20-94 | admits iff every check passes; otherwise answers with a failing check all of whose predecessors passed |
| WebhookGate.FirstFailureInOrder | src/Middleware/VerifyFlutterwaveWebhook.php:23-93 | the first failure is size 413, IP 401 (or the `ArithmeticError` of a range test), rate 429, timestamp 401, secret 500, header 401, mismatch 401, in that order |
| WebhookGate.Admission | src/Middleware/VerifyFlutterwaveWebhook.php:20-94 | an admitted request is within the size limit, passes the allow-list and carries a signature `verifySignature` accepts; the answer is the `ArithmeticError` (a 500) iff the size passes and the allow-list test throws |
| WebhookGate.AdmissionIsFirstFailure | src/Middleware/VerifyFlutterwaveWebhook.php:20-94 | `handle` answers with the first failing check of the seven |
| WebhookGate.AdmitIffAllPass | src/Middleware/VerifyFlutterwaveWebhook.php:20-94 | a request is admitted iff all seven checks pass |
| WebhookGate.CountedIffPastRateCheck | src/Middleware/VerifyFlutterwaveWebhook.php:44-56 | a request is counted iff it passes size and IP and the counter is below a positive limit, whatever the later checks decide |
| WebhookGate.ShiftFailureNotCounted | src/Middleware/VerifyFlutterwaveWebhook.php:36-56 | a request whose range test throws is never counted |
| WebhookGate.CounterStepIsCounted | src/Middleware/VerifyFlutterwaveWebhook.php:45-55 | one arrival moves the counter by one exactly when the request is counted |
| WebhookGate.QuotaFillsToLimit | src/Middleware/VerifyFlutterwaveWebhook.php:44-56 | k requests past the size and IP checks raise the counter to min(start + k, N) |
| WebhookGate.RefusedNeverCounted | src/Middleware/VerifyFlutterwaveWebhook.php:23-41 | requests refused for size or IP never move the counter |
| WebhookGate.ThrottledIffQuotaUsed | src/Middleware/VerifyFlutterwaveWebhook.php:48-53 | past size and IP, the answer is 429 iff the limit is positive and the counter has reached it |
| WebhookGate.NthPlusOneIsThrottled | src/Middleware/VerifyFlutterwaveWebhook.php:44-56 | from a fresh counter, a request is answered 429 iff at least N requests came before it |
| WebhookGate.SizeBoundary | src/Middleware/VerifyFlutterwaveWebhook.php:23-33 | a length equal to the maximum, "0" or no header passes; one more than a non-negative maximum is refused |
| WebhookGate.TimestampBoundary | src/Middleware/VerifyFlutterwaveWebhook.php:164-186 | a non-zero integer timestamp passes iff it is at most 300 seconds from now |
| WebhookGate.ZeroTimestampSkipsCheck | src/Middleware/VerifyFlutterwaveWebhook.php:167-174 | a timestamp header of "0" counts as missing and passes |
| WebhookGate.EmptyAllowListAdmitsAll | src/Middleware/VerifyFlutterwaveWebhook.php:104-109 | an empty allow-list admits every client, IPv6 included, whatever the validator says |
| WebhookGate.ListedAddressAdmitted | src/Middleware/VerifyFlutterwaveWebhook.php:113-119 | a client equal to some trimmed entry is never refused as not listed; it is admitted unless an earlier range entry throws |
| WebhookGate.Ipv6ClientPassesIpv6Range | src/Middleware/VerifyFlutterwaveWebhook.php:113-155 | an IPv6 client passes the allow-list, as written, when its first entry is an IPv6 range with a prefix of at most 32 |
| WebhookGate.PlainListNeverThrows | src/Middleware/VerifyFlutterwaveWebhook.php:113-129 | a non-empty list of entries without '/' never throws and admits exactly the clients it lists |
| WebhookGate.RateLimiter.constructor | src/Middleware/VerifyFlutterwaveWebhook.php:44-56 | a new limiter holds no counters |
| WebhookGate.RateLimiter.TooManyAttempts | src/Middleware/VerifyFlutterwaveWebhook.php:48 | limited iff the key's attempts have reached the maximum |
| WebhookGate.RateLimiter.Hit | src/Middleware/VerifyFlutterwaveWebhook.php:55 | the key's count goes up by one and no other key changes |
| WebhookGate.RateLimiter.ExpireWindow | src/Middleware/VerifyFlutterwaveWebhook.php:55 | at the end of its window the key's count is zero and no other key changes |
| WebhookGate.Throttle | src/Middleware/VerifyFlutterwaveWebhook.php:45-56 | limited iff the limit is positive and reached; otherwise, with a positive limit, the key is counted once |
| WebhookGate.PreRateChecks | src/Middleware/VerifyFlutterwaveWebhook.php:23-41 | the size and IP checks as code compute the pre-rate decision |
| WebhookGate.RateStage | src/Middleware/VerifyFlutterwaveWebhook.php:44-56 | the rate block decides as the rate rejection and counts the key once exactly when the request gets past it with limiting on |
| WebhookGate.HandleStages | src/Middleware/VerifyFlutterwaveWebhook.php:20-94 | the two early stages followed by the remaining checks give `handle`'s decision and its counting |
| WebhookGate.Handle | src/Middleware/VerifyFlutterwaveWebhook.php:20-94 | the decision is the seven-check admission at the current count; the client's counter rises by one iff the request was counted; no other counter changes |
| Cidr.QuadValue | src/Middleware/VerifyFlutterwaveWebhook.php:151-152 | four octets make a number below 2^32 |
| Cidr.ParseIPv4 | src/Middleware/VerifyFlutterwaveWebhook.php:147-152 | a parsed address is below 2^32 |
| Cidr.QuadOf | src/Middleware/VerifyFlutterwaveWebhook.php:151-152 | the address of four valid octets is below 2^32 |
| Cidr.SplitRange | src/Middleware/VerifyFlutterwaveWebhook.php:145 | `explode('/')` of "subnet/prefix" with one '/' gives the two parts |
| Cidr.ParseQuad | src/Middleware/VerifyFlutterwaveWebhook.php:151-152 | a string that splits into four valid octets is the address they spell |
| Cidr.DottedQuad | src/Middleware/VerifyFlutterwaveWebhook.php:147-152 | a dotted quad of valid octets holds no '/' or ':' and parses to the address its octets spell |
| Cidr.Masked | src/Middleware/VerifyFlutterwaveWebhook.php:153-155 | masking an address below 2^32 with `-1 << shift` clears exactly its remainder modulo 2^shift; a shift of 32 or more clears it to 0 |
| Cidr.IpInRange | src/Middleware/VerifyFlutterwaveWebhook.php:139-156 | as written: the test throws iff there is a '/', `filter_var` accepts both sides and the prefix exceeds 32; it admits only with a '/' and both sides accepted |
| Cidr.MaskedAgree | src/Middleware/VerifyFlutterwaveWebhook.php:153-155 | two addresses agree under the mask iff they agree above the cleared bits |
| Cidr.InRangeIffTopBitsAgree | src/Middleware/VerifyFlutterwaveWebhook.php:139-156 | for two dotted quads and a prefix p in 0..32, in range iff the top p bits of address and subnet agree |
| Cidr.FullPrefixIsExact | src/Middleware/VerifyFlutterwaveWebhook.php:153-155 | a prefix of 32 admits exactly the subnet address |
| Cidr.EmptyPrefixAdmitsAll | src/Middleware/VerifyFlutterwaveWebhook.php:153-155 | a prefix of 0 or less (a non-numeric prefix reads as 0) admits every address `filter_var` accepts, IPv6 included |
| Cidr.InvalidNeverInRange | src/Middleware/VerifyFlutterwaveWebhook.php:147-149 | an address or subnet `filter_var` refuses is never in range |
| Cidr.LongPrefixThrows | src/Middleware/VerifyFlutterwaveWebhook.php:153 | a prefix above 32 throws for every address and subnet `filter_var` accepts, IPv4 ones included |
| Cidr.Ipv6InZeroRange | src/Middleware/VerifyFlutterwaveWebhook.php:147-155 | as written, every IPv6 address `filter_var` accepts is in any range whose masked subnet is 0, since `ip2long` gives false and `false & $mask` is 0 |
| Cidr.Ipv6RangeHoldsAllIpv6 | src/Middleware/VerifyFlutterwaveWebhook.php:147-155 | as written, an IPv6 range with a prefix of at most 32 holds every valid IPv6 address |
| Cidr.IpInRangeIPv4 | src/Middleware/VerifyFlutterwaveWebhook.php:139-156 | the corrected test admits only dotted quads; on two dotted quads it equals the code's answer; it throws exactly when the code does and admits nothing the code refuses |
| Cidr.IntendedRangeRefusesIpv6 | src/Middleware/VerifyFlutterwaveWebhook.php:147-155 | the corrected test admits no IPv6 address into any range |
| Cidr.ExampleRange | src/Middleware/VerifyFlutterwaveWebhook.php:145-153 | 192.168.1.0/24 reads as subnet 192.168.1.0 with prefix 24 |
| Cidr.SubnetExampleInside | src/Middleware/VerifyFlutterwaveWebhook.php:139-156 | 192.168.1.5 is in 192.168.1.0/24 |
| Cidr.SubnetExampleOutside | src/Middleware/VerifyFlutterwaveWebhook.php:139-156 | 192.168.2.5 is not in 192.168.1.0/24 |
| Cidr.Ipv6LoopbackInDocumentationRange | src/Middleware/VerifyFlutterwaveWebhook.php:139-156 | as written, "::1" is in "2001:db8::/32"; the corrected test refuses it |
| Strings.LineBody | src/Services/PaymentService.php:142 | the subject a `^...$` pattern matches is the string itself or the string less one final newline |
| Strings.IntCastOfIntToString | src/Middleware/VerifyFlutterwaveWebhook.php:176 | `(int)` reads back every integer `(string)` writes |
| Strings.IntCastOfDigits | src/Middleware/VerifyFlutterwaveWebhook.php:26 | `(int)` of a run of digits is the number it writes |
| Strings.IntToStringNonEmpty | src/Middleware/VerifyFlutterwaveWebhook.php:169 | a non-zero integer written as a string is neither "" nor "0" |
| PaymentService.ValidateTransactionId | src/Services/PaymentService.php:137-152 | accepted iff the string form matches the pattern and is at most 100 long, returned unchanged; a pattern failure is reported before a length failure |
| PaymentService.AcceptedIdIsSegment | src/Services/PaymentService.php:142 | an accepted ID is non-empty and holds neither '/' nor '.' |
| PaymentService.TrailingNewlineAccepted | src/Services/PaymentService.php:142 | an ID of the class followed by one newline is accepted with the newline |
| PaymentService.IntIdAccepted | src/Services/PaymentService.php:139-151 | an integer ID whose decimal form has at most 100 characters is accepted as that form, a negative one too |
| PaymentService.FormatCheckedBeforeLength | src/Services/PaymentService.php:142-149 | an ID with a character outside the class is refused as badly formed, however long |
| PaymentService.Initialize | src/Services/PaymentService.php:33-36 | POST `payments` with the data as given |
| PaymentService.Verify | src/Services/PaymentService.php:44-48 | fails iff the ID is refused, with that refusal; otherwise GET `transactions/{id}/verify` with no query |
| PaymentService.GetTransaction | src/Services/PaymentService.php:56-60 | fails iff the ID is refused, with that refusal; otherwise GET `transactions/{id}` with no query |
| PaymentService.GetTransactionByReference | src/Services/PaymentService.php:68-71 | GET `transactions` whose query is exactly `{tx_ref: reference}` |
| PaymentService.ListTransactions | src/Services/PaymentService.php:79-82 | GET `transactions` with the filters as query |
| PaymentService.GetTransactionFees | src/Services/PaymentService.php:90-93 | POST `transactions/fee` with the data as given |
| PaymentService.ResendWebhook | src/Services/PaymentService.php:101-105 | fails iff the ID is refused, with that refusal; otherwise POST `transactions/{id}/resend-webhook` with no data |
| PaymentService.Refund | src/Services/PaymentService.php:113-116 | POST `transactions/refund` with the data as given |
| PaymentService.GetRefund | src/Services/PaymentService.php:124-128 | fails iff the ID is refused, with that refusal; otherwise GET `refunds/{id}` with no query |
| PaymentService.ListRefunds | src/Services/PaymentService.php:160-163 | GET `refunds` with the filters as query |
| PaymentService.IdOperationsValidateFirst | src/Services/PaymentService.php:44-128 | `verify`, `getTransaction`, `resendWebhook` and `getRefund` fail iff the ID is refused, with that refusal and no call |
| PaymentService.IdOperationPathsAccepted | src/Services/PaymentService.php:44-128 | with an accepted ID each of the four paths passes the sanitizer unchanged |
| PaymentService.FixedOperationsPassThrough | src/Services/PaymentService.php:33-116 | the fixed-path operations hand their data and filters on unchanged; by-reference sends exactly `{tx_ref}` |
| PaymentService.FixedPathsAccepted | src/Services/PaymentService.php:33-82 | `payments` and `transactions` (and `refunds`) pass the sanitizer unchanged |
| PaymentService.FixedSubPathsAccepted | src/Services/PaymentService.php:90-116 | `transactions/fee` and `transactions/refund` pass the sanitizer unchanged |
| AccountVerification.VerifyCardBin | src/Services/AccountVerificationService.php:56-64 | accepted iff the BIN, less a final newline, is exactly six digits, and then GET `card-bins/{bin}` with no query; otherwise the BIN error and no call |
| AccountVerification.VerifyBankAccount | src/Services/AccountVerificationService.php:33-36 | POST `accounts/resolve` with the data as given |
| AccountVerification.VerifyBVN | src/Services/AccountVerificationService.php:44-47 | POST `kyc/bvn` with the data as given |
| AccountVerification.GetBankBranches | src/Services/AccountVerificationService.php:110-113 | GET `banks/{id}/branches` with no query |
| AccountVerification.VerifyAccountNumber | src/Services/AccountVerificationService.php:74-90 | accepted iff both arguments are runs of digits; a bad account number is reported first, each failure with its own message |
| AccountVerification.GetBanks | src/Services/AccountVerificationService.php:98-102 | GET `banks` with query `{country}` iff the country is non-empty in PHP's sense, otherwise no query |
| AccountVerification.EmptyCountryOmitted | src/Services/AccountVerificationService.php:100 | null, "" and "0" all give an empty query |
| AccountVerification.CardBinPathAccepted | src/Services/AccountVerificationService.php:59-63 | an accepted BIN yields a path the sanitizer passes unchanged |
| AccountVerification.CardBinLengthEnforced | src/Services/AccountVerificationService.php:59-61 | a run of digits of any length but six is refused |
| AccountVerification.AccountNumberPayload | src/Services/AccountVerificationService.php:86-89 | accepted arguments are posted as exactly `account_number` and `account_bank` |
| AccountVerification.BankAccountCallAccepted | src/Services/AccountVerificationService.php:33-36 | `accounts/resolve` passes the sanitizer unchanged and the data goes on as given |
| AccountVerification.BvnCallAccepted | src/Services/AccountVerificationService.php:44-47 | `kyc/bvn` passes the sanitizer unchanged and the data goes on as given |
| AccountVerification.AccountNumberCheckedFirst | src/Services/AccountVerificationService.php:77-84 | with a bad account number the account-number error is reported, whatever the bank code |
| AccountVerification.BranchTraversalRefused | src/Services/AccountVerificationService.php:110-113 | a bank ID holding ".." yields a path the sanitizer refuses |
| AccountVerification.EmptyBankIdRefused | src/Services/AccountVerificationService.php:110-113 | an empty bank ID yields `banks//branches`, which the sanitizer refuses with "Invalid endpoint path" |
| AccountVerification.PlainBankIdAccepted | src/Services/AccountVerificationService.php:110-113 | a bank ID without '/' or '.' reaches `banks/{id}/branches` unchanged |

## Left out

- HTTP transport, JSON decoding and the identity-provider call are foreign calls. Their outcomes are parameters (`HttpOutcome`, `TokenFetch`); the clock is a parameter `now`, except the second `time()` of `getAccessToken`, taken after the token reply, which arrives with that reply as `TokenBody.receivedAt`.
- `Log::` calls are I/O. `request` returns the records it would log; the webhook middleware's and `processPayment`'s log lines are not modelled, except that the unhandled-event line throws for an array event (`EventNotText`).
- A response body that does not decode to an array (a PHP `TypeError`) is not modelled: bodies are always arrays.
- Client.ToText: only strings, integers and booleans are converted; an array message is the `TypeError` of `Client.NewException`. Decoded JSON floats are not among the modelled values, so a float message is not modelled.
- Strings.IntCast: `(int)` is modelled on leading white space, a sign and a digit run. Exponent and decimal forms and 64-bit saturation are not modelled.
- The timeouts, the curl options and the client's default `Content-Type: application/json` header (src/FlutterwaveService.php:69-80) are transport configuration and are not modelled; no sent request carries that header.
- Client.AuthPreview: `substr` counts bytes, the model counts characters, so credentials are treated as ASCII; for a non-ASCII key or token the real preview may differ and split a multi-byte character.
- `hash_equals` is modelled as string equality; its constant-time behaviour is not expressible.
- The rate limiter's storage and TTL decay belong to Laravel. `WebhookGate.RateLimiter` is a per-key counter map with an abstract `ExpireWindow`.
- Rate keys are modelled as `WebhookKey(ip)`. `KeyTextInjective` shows that the text key `flutterwave-webhook:<ip>` is equally fine-grained.
- Cidr.ValidIp: the IPv6 grammar of `filter_var($s, FILTER_VALIDATE_IP)` is not modelled; it is a parameter `v6`, applied to strings holding ':'. An `ArithmeticError` from a negative shift is the outcome `ShiftFailure`, which the framework answers with 500.
- The middleware's settings are inputs (`GateConfig`). `config/flutterwave.php` defines no `webhook_*` key except `webhook_secret_hash` (the parameter of `DefaultConfig`), and no `api_version`, so for the other keys the in-code defaults apply (`DefaultConfig`).
- `config/flutterwave.php` names the public key `client_key`, while the constructor reads `public_key`. The model takes the constructor's key.
- `processPayment`'s handlers only log and return their argument, so they are folded into the routing. A non-array `data` on a routed event is the `TypeError` outcome `DataNotArray`, and an array `event` on the default branch is the outcome `EventNotText`: the "Array to string conversion" warning of the log line, which Laravel's error handler throws; both are answered 500.
- The thin resource services are not part of this model: `TransferService`, `SubscriptionService` and `VirtualAccountService` are one fixed verb and path per method.
- Also not part of this model: the Eloquent model and migration, the health-check console command, the service provider, the facade and the exception class.
- Client.FlutterwaveService.Request: the services' delegation to `get`/`post`/`put`/`delete` is represented by the `ApiCall` each builds; the model does not run a service and the client together.
- WebhookGate.Handle: the counter map is stated pointwise for the client's key and as a map update. The ordering of hits by concurrent requests is not modelled (the source has no concurrency handling).

## Findings

| source | as written | input that shows it | evidently intended | confidence | as-written member | corrected member |
|---|---|---|---|---|---|---|
| src/Middleware/VerifyFlutterwaveWebhook.php:147-155 | an IPv6 address passes `filter_var`, then `ip2long` gives false, which `&` reads as 0, so it is compared as address 0 | client "::1" against the allow-list entry "2001:db8::/32" (or "0.0.0.0/8") is admitted | an address `ip2long` cannot read is in no range | high; not executed | Cidr.Ipv6LoopbackInDocumentationRange | Cidr.IntendedRangeRefusesIpv6 |

The middleware model (`WebhookGate.EntryTest` and everything built on it) keeps the code as written, so `WebhookGate.Ipv6ClientPassesIpv6Range` shows the effect at the gate. The corrected range test is `Cidr.IpInRangeIPv4`, with `Cidr.IntendedRangeRefusesIpv6` proved about it.
