/**
 * `VerifyFlutterwaveWebhook`, the middleware in front of the webhook
 * route: seven checks in a fixed order (size, IP allow-list, per-IP rate
 * limit, timestamp freshness, secret configured, signature present,
 * signature equal), the first failing one answering the request.
 */
module WebhookGate {
  import opened Values
  import opened Strings
  import opened Cidr
  import opened WebhookService

  const DefaultMaxSize: int := 1048576
  const DefaultRateLimit: int := 60
  /** The decay window, in seconds, the rate limiter is given for each hit. */
  const RateWindow: int := 60
  /** The largest accepted distance, in seconds, between the clock and the timestamp header. */
  const MaxSkew: int := 300
  const RateKeyPrefix: string := "flutterwave-webhook:"

  /** The `flutterwave.webhook_*` settings the middleware reads. */
  datatype GateConfig = GateConfig(
    maxSize: int,
    allowedIps: seq<string>,
    rateLimit: int,
    validateTimestamp: bool,
    secretHash: Option<string>)

  /** The settings when none is configured except the secret hash. */
  function DefaultConfig(secretHash: Option<string>): GateConfig
  {
    GateConfig(DefaultMaxSize, [], DefaultRateLimit, true, secretHash)
  }

  /**
   * What the middleware reads from a request: the client address and the
   * `Content-Length`, `X-Flutterwave-Timestamp` and `verif-hash` headers.
   */
  datatype WebhookRequest = WebhookRequest(
    ip: string,
    contentLength: Option<string>,
    timestamp: Option<string>,
    signature: Option<string>)

  /** The refusals the middleware answers with. */
  datatype GateError =
    | RequestTooLarge
    | Unauthorized
    | TooManyRequests
    | TimestampInvalid
    | SecretNotConfigured
    | InvalidSignature

  /** The HTTP status of each refusal. */
  function Status(e: GateError): int
  {
    match e
    case RequestTooLarge => 413
    case Unauthorized => 401
    case TooManyRequests => 429
    case TimestampInvalid => 401
    case SecretNotConfigured => 500
    case InvalidSignature => 401
  }

  /** The `error` text of each refusal's JSON body. */
  function Message(e: GateError): string
  {
    match e
    case RequestTooLarge => "Request too large"
    case Unauthorized => "Unauthorized"
    case TooManyRequests => "Too many requests"
    case TimestampInvalid => "Request timestamp invalid"
    case SecretNotConfigured => "Webhook secret not configured"
    case InvalidSignature => "Invalid signature"
  }

  /**
   * The middleware passes the request on, answers it with a refusal, or
   * throws the `ArithmeticError` of `ipInRange` (which the framework's
   * exception handler answers with a 500).
   */
  datatype Decision = Admit | Reject(error: GateError) | ShiftFailure

  /** The size check fails: a non-empty `Content-Length` whose `(int)` exceeds the maximum. */
  predicate TooLarge(maxSize: int, contentLength: Option<string>)
    ensures TooLarge(maxSize, contentLength) ==> contentLength.Some? && IntCast(contentLength.value) > maxSize
    ensures maxSize >= 0 && contentLength.Some? && IntCast(contentLength.value) > maxSize ==>
      TooLarge(maxSize, contentLength)
  {
    assert IntCast("") == 0 && IntCast("0") == 0;
    TruthyText(contentLength) && IntCast(contentLength.value) > maxSize
  }

  /**
   * One trimmed allow-list entry tested against the client: an exact match
   * admits; otherwise an entry holding '/' is a range `ipInRange` tests,
   * as written (so with the IPv6 comparison of `Cidr.Ipv6InZeroRange`).
   */
  function EntryTest(entry: string, ip: string, v6: Ipv6Validator): (r: RangeTest)
    ensures ip == entry ==> r == Answer(true)
    ensures ip != entry && '/' !in entry ==> r == Answer(false)
    ensures ip != entry && '/' in entry ==> r == IpInRange(ip, entry, v6)
  {
    if ip == entry then Answer(true)
    else if '/' in entry then IpInRange(ip, entry, v6)
    else Answer(false)
  }

  /** The test of each trimmed allow-list entry against the client, in list order. */
  function EntryTests(allowed: seq<string>, ip: string, v6: Ipv6Validator): (tests: seq<RangeTest>)
    ensures |tests| == |allowed|
    ensures forall i :: 0 <= i < |allowed| ==> tests[i] == EntryTest(TrimSpace(allowed[i]), ip, v6)
  {
    seq(|allowed|, i requires 0 <= i < |allowed| => EntryTest(TrimSpace(allowed[i]), ip, v6))
  }

  /**
   * The allow-list loop over the entries' tests from `from` on: the first
   * test that does not answer false decides (the entry admits, or its range
   * test throws); past the last entry the answer is false.
   */
  function FirstDecisive(tests: seq<RangeTest>, from: nat): (r: RangeTest)
    requires from <= |tests|
    ensures r == Answer(false) <==> forall i :: from <= i < |tests| ==> tests[i] == Answer(false)
    ensures r != Answer(false) ==>
      exists i :: from <= i < |tests| && r == tests[i] && forall j :: from <= j < i ==> tests[j] == Answer(false)
    decreases |tests| - from
  {
    if from == |tests| then Answer(false)
    else if tests[from] != Answer(false) then tests[from]
    else FirstDecisive(tests, from + 1)
  }

  /**
   * What `validateWebhookIP` does: an empty list admits every client;
   * otherwise the answer is false exactly when every entry's test is (and
   * else it is the first test in list order that is not, `FirstDecisive`).
   */
  function AllowListTest(allowed: seq<string>, ip: string, v6: Ipv6Validator): (r: RangeTest)
    ensures |allowed| == 0 ==> r == Answer(true)
    ensures |allowed| > 0 ==>
      (r == Answer(false) <==> forall i :: 0 <= i < |allowed| ==> EntryTest(TrimSpace(allowed[i]), ip, v6) == Answer(false))
  {
    if |allowed| == 0 then Answer(true)
    else FirstDecisive(EntryTests(allowed, ip, v6), 0)
  }

  /** One turn of the allow-list loop: an exact match, or a range test when the entry holds '/'. */
  method MatchesEntry(entry: string, ip: string, v6: Ipv6Validator) returns (r: RangeTest)
    ensures r == EntryTest(entry, ip, v6)
  {
    if ip == entry {
      return Answer(true);
    }
    if '/' in entry {
      r := IpInRange(ip, entry, v6);
      return;
    }
    return Answer(false);
  }

  /**
   * `validateWebhookIP`: the search through the allow-list, stopping at the
   * first entry that admits; a range test that throws ends it too.
   */
  method ValidateWebhookIP(allowed: seq<string>, ip: string, v6: Ipv6Validator) returns (r: RangeTest)
    ensures r == AllowListTest(allowed, ip, v6)
  {
    if |allowed| == 0 {
      return Answer(true);
    }
    ghost var tests := EntryTests(allowed, ip, v6);
    var i := 0;
    while i < |allowed|
      invariant 0 <= i <= |allowed|
      invariant FirstDecisive(tests, i) == FirstDecisive(tests, 0)
    {
      var t := MatchesEntry(TrimSpace(allowed[i]), ip, v6);
      if t != Answer(false) {
        return t;
      }
      i := i + 1;
    }
    return Answer(false);
  }

  function Abs(x: int): nat
  {
    if x < 0 then -x else x
  }

  /**
   * `validateTimestamp` at time `now`: an empty header (missing, "" or "0")
   * passes; otherwise its `(int)` must be within 300 seconds of `now`.
   */
  predicate TimestampFresh(timestamp: Option<string>, now: int)
    ensures TimestampFresh(timestamp, now) <==>
      !TruthyText(timestamp) || now - MaxSkew <= IntCast(timestamp.value) <= now + MaxSkew
  {
    !TruthyText(timestamp) || Abs(now - IntCast(timestamp.value)) <= MaxSkew
  }

  /** `hash_equals($secretHash, $signature)` on two present strings. */
  predicate SignatureMatches(secretHash: Option<string>, signature: Option<string>)
  {
    secretHash.Some? && signature.Some? && secretHash.value == signature.value
  }

  /** The cache key `'flutterwave-webhook:' . $ip` under which one client's attempts are counted. */
  datatype RateKey = WebhookKey(ip: string)

  /** The key as the text the cache stores it under. */
  function KeyText(key: RateKey): string
  {
    RateKeyPrefix + key.ip
  }

  /** Distinct clients are counted under distinct keys. */
  lemma KeyTextInjective(a: RateKey, b: RateKey)
    ensures KeyText(a) == KeyText(b) <==> a == b
  {
    if KeyText(a) == KeyText(b) {
      var n := |RateKeyPrefix|;
      assert a.ip == KeyText(a)[n..] && b.ip == KeyText(b)[n..];
    }
  }

  /** The checks after the rate limit, which no longer touch the counters. */
  function Remaining(cfg: GateConfig, req: WebhookRequest, now: int): (d: Decision)
    ensures d == Admit <==>
      (!cfg.validateTimestamp || TimestampFresh(req.timestamp, now)) && VerifySignature(cfg.secretHash, req.signature)
    ensures d != Reject(TooManyRequests) && d != Reject(RequestTooLarge)
  {
    if cfg.validateTimestamp && !TimestampFresh(req.timestamp, now) then Reject(TimestampInvalid)
    else if !TruthyText(cfg.secretHash) then Reject(SecretNotConfigured)
    else if !TruthyText(req.signature) then Reject(Unauthorized)
    else if !SignatureMatches(cfg.secretHash, req.signature) then Reject(InvalidSignature)
    else Admit
  }

  /**
   * `handle` for a request arriving at time `now` when its IP's counter
   * stands at `attempts`, with `v6` as PHP's IPv6 validator.
   */
  function Admission(cfg: GateConfig, req: WebhookRequest, now: int, attempts: nat, v6: Ipv6Validator): (d: Decision)
    ensures d == Admit ==> VerifySignature(cfg.secretHash, req.signature)
    ensures d == Admit ==> !TooLarge(cfg.maxSize, req.contentLength) && AllowListTest(cfg.allowedIps, req.ip, v6) == Answer(true)
    ensures d == ShiftFailure <==>
      !TooLarge(cfg.maxSize, req.contentLength) && AllowListTest(cfg.allowedIps, req.ip, v6) == NegativeShift
  {
    match EarlyRejection(cfg, req, attempts, v6)
    case Some(d) => d
    case None => Remaining(cfg, req, now)
  }

  /** Whether `handle` counts the request against its IP's quota: it got past the rate check with limiting on. */
  predicate Counted(cfg: GateConfig, req: WebhookRequest, attempts: nat, v6: Ipv6Validator)
  {
    EarlyRejection(cfg, req, attempts, v6).None? && cfg.rateLimit > 0
  }

  /** The two checks that run before the rate limit: size, then IP. */
  function PreRateRejection(cfg: GateConfig, req: WebhookRequest, v6: Ipv6Validator): (early: Option<Decision>)
    ensures early.None? <==>
      !TooLarge(cfg.maxSize, req.contentLength) && AllowListTest(cfg.allowedIps, req.ip, v6) == Answer(true)
    ensures early == Some(ShiftFailure) <==>
      !TooLarge(cfg.maxSize, req.contentLength) && AllowListTest(cfg.allowedIps, req.ip, v6) == NegativeShift
  {
    if TooLarge(cfg.maxSize, req.contentLength) then Some(Reject(RequestTooLarge))
    else
      var ipTest := AllowListTest(cfg.allowedIps, req.ip, v6);
      if ipTest == NegativeShift then Some(ShiftFailure)
      else if ipTest == Answer(false) then Some(Reject(Unauthorized))
      else None
  }

  /**
   * The rate check after the size and IP checks: an earlier refusal stands;
   * otherwise, with a positive limit, a counter that has reached it is refused.
   */
  function RateRejection(pre: Option<Decision>, rateLimit: int, attempts: nat): (early: Option<Decision>)
    ensures early.None? <==> pre.None? && (rateLimit <= 0 || attempts < rateLimit)
    ensures pre.Some? ==> early == pre
  {
    if pre.Some? then pre
    else if rateLimit > 0 && attempts >= rateLimit then Some(Reject(TooManyRequests))
    else None
  }

  /** The first three checks, which run before the request is counted: size, IP, rate. */
  function EarlyRejection(cfg: GateConfig, req: WebhookRequest, attempts: nat, v6: Ipv6Validator): (early: Option<Decision>)
    ensures early.None? <==>
      !TooLarge(cfg.maxSize, req.contentLength) && AllowListTest(cfg.allowedIps, req.ip, v6) == Answer(true) &&
      (cfg.rateLimit <= 0 || attempts < cfg.rateLimit)
  {
    RateRejection(PreRateRejection(cfg, req, v6), cfg.rateLimit, attempts)
  }

  /** One check of the pipeline: whether it passes, and the answer when it does not. */
  datatype Check = Check(passes: bool, rejection: Decision)

  /**
   * What each of the seven checks finds, in the order the middleware runs
   * them; `ipThrows` says that the IP check failed by throwing.
   */
  datatype Findings = Findings(
    sizeOk: bool, ipOk: bool, ipThrows: bool, rateOk: bool, timestampOk: bool,
    secretSet: bool, signed: bool, signatureOk: bool)

  /** The seven checks on a request arriving at `now` when its IP's counter stands at `attempts`. */
  function Inspect(cfg: GateConfig, req: WebhookRequest, now: int, attempts: nat, v6: Ipv6Validator): Findings
  {
    var ipTest := AllowListTest(cfg.allowedIps, req.ip, v6);
    Findings(
      !TooLarge(cfg.maxSize, req.contentLength),
      ipTest == Answer(true),
      ipTest == NegativeShift,
      cfg.rateLimit <= 0 || attempts < cfg.rateLimit,
      !cfg.validateTimestamp || TimestampFresh(req.timestamp, now),
      TruthyText(cfg.secretHash),
      TruthyText(req.signature),
      SignatureMatches(cfg.secretHash, req.signature))
  }

  /** The checks paired with the answer each gives when it fails. */
  function Checks(f: Findings): (checks: seq<Check>)
    ensures |checks| == 7
    ensures forall i :: 0 <= i < |checks| ==> checks[i].rejection != Admit
  {
    [ Check(f.sizeOk, Reject(RequestTooLarge)),
      Check(f.ipOk, if f.ipThrows then ShiftFailure else Reject(Unauthorized)),
      Check(f.rateOk, Reject(TooManyRequests)),
      Check(f.timestampOk, Reject(TimestampInvalid)),
      Check(f.secretSet, Reject(SecretNotConfigured)),
      Check(f.signed, Reject(Unauthorized)),
      Check(f.signatureOk, Reject(InvalidSignature)) ]
  }

  /**
   * Run the checks from index `from` on, in order: the first that fails
   * answers; if none fails, admit.
   */
  function FirstFailure(checks: seq<Check>, from: nat): (d: Decision)
    requires from <= |checks|
    requires forall i :: 0 <= i < |checks| ==> checks[i].rejection != Admit
    ensures d == Admit <==> forall i :: from <= i < |checks| ==> checks[i].passes
    ensures d != Admit ==>
      exists i :: from <= i < |checks| && !checks[i].passes && d == checks[i].rejection &&
        forall j :: from <= j < i ==> checks[j].passes
    decreases |checks| - from
  {
    if from == |checks| then Admit
    else if !checks[from].passes then checks[from].rejection
    else FirstFailure(checks, from + 1)
  }

  /** The first failing check of the seven, spelled out check by check. */
  lemma FirstFailureInOrder(f: Findings)
    ensures FirstFailure(Checks(f), 0) ==
      if !f.sizeOk then Reject(RequestTooLarge)
      else if !f.ipOk then (if f.ipThrows then ShiftFailure else Reject(Unauthorized))
      else if !f.rateOk then Reject(TooManyRequests)
      else if !f.timestampOk then Reject(TimestampInvalid)
      else if !f.secretSet then Reject(SecretNotConfigured)
      else if !f.signed then Reject(Unauthorized)
      else if !f.signatureOk then Reject(InvalidSignature)
      else Admit
  {
    var c := Checks(f);
    assert FirstFailure(c, 7) == Admit;
    assert FirstFailure(c, 6) == if c[6].passes then Admit else c[6].rejection;
    assert FirstFailure(c, 5) == if c[5].passes then FirstFailure(c, 6) else c[5].rejection;
    assert FirstFailure(c, 4) == if c[4].passes then FirstFailure(c, 5) else c[4].rejection;
    assert FirstFailure(c, 3) == if c[3].passes then FirstFailure(c, 4) else c[3].rejection;
    assert FirstFailure(c, 2) == if c[2].passes then FirstFailure(c, 3) else c[2].rejection;
    assert FirstFailure(c, 1) == if c[1].passes then FirstFailure(c, 2) else c[1].rejection;
  }

  /** The middleware answers with the first failing check of the seven, in order. */
  lemma AdmissionIsFirstFailure(cfg: GateConfig, req: WebhookRequest, now: int, attempts: nat, v6: Ipv6Validator)
    ensures Admission(cfg, req, now, attempts, v6) == FirstFailure(Checks(Inspect(cfg, req, now, attempts, v6)), 0)
  {
    FirstFailureInOrder(Inspect(cfg, req, now, attempts, v6));
  }

  /**
   * A request is admitted exactly when all seven checks pass; in particular
   * only with a signature `verifySignature` accepts.
   */
  lemma AdmitIffAllPass(cfg: GateConfig, req: WebhookRequest, now: int, attempts: nat, v6: Ipv6Validator)
    ensures Admission(cfg, req, now, attempts, v6) == Admit <==>
      !TooLarge(cfg.maxSize, req.contentLength) &&
      AllowListTest(cfg.allowedIps, req.ip, v6) == Answer(true) &&
      (cfg.rateLimit <= 0 || attempts < cfg.rateLimit) &&
      (!cfg.validateTimestamp || TimestampFresh(req.timestamp, now)) &&
      VerifySignature(cfg.secretHash, req.signature)
  {
  }

  /** A request whose range test throws never reaches the rate limiter, so it is not counted. */
  lemma ShiftFailureNotCounted(cfg: GateConfig, req: WebhookRequest, now: int, attempts: nat, v6: Ipv6Validator)
    ensures Admission(cfg, req, now, attempts, v6) == ShiftFailure ==> !Counted(cfg, req, attempts, v6)
  {
    assert Remaining(cfg, req, now) != ShiftFailure;
  }

  /**
   * A request counts against its IP's quota exactly when it gets past the
   * rate check with limiting on, whatever the later checks decide.
   */
  lemma CountedIffPastRateCheck(cfg: GateConfig, req: WebhookRequest, attempts: nat, v6: Ipv6Validator)
    ensures Counted(cfg, req, attempts, v6) <==>
      !TooLarge(cfg.maxSize, req.contentLength) && AllowListTest(cfg.allowedIps, req.ip, v6) == Answer(true) &&
      cfg.rateLimit > 0 && attempts < cfg.rateLimit
  {
  }

  /**
   * One client's counter after `k` more arrivals of the same request under
   * the limit `rateLimit`; `passes` says whether the request gets past the
   * size and IP checks.
   */
  function CounterAfter(passes: bool, rateLimit: int, attempts: nat, k: nat): nat
    decreases k
  {
    if k == 0 then attempts
    else
      var next := if passes && rateLimit > 0 && attempts < rateLimit then attempts + 1 else attempts;
      CounterAfter(passes, rateLimit, next, k - 1)
  }

  /** Each arrival moves the counter exactly as `handle` counts the request. */
  lemma CounterStepIsCounted(cfg: GateConfig, req: WebhookRequest, attempts: nat, v6: Ipv6Validator)
    ensures CounterAfter(PreRateRejection(cfg, req, v6).None?, cfg.rateLimit, attempts, 1) ==
      if Counted(cfg, req, attempts, v6) then attempts + 1 else attempts
  {
    CountedIffPastRateCheck(cfg, req, attempts, v6);
  }

  function Min(a: int, b: int): int
  {
    if a <= b then a else b
  }

  /**
   * With a limit N > 0, repeated requests that pass the size and IP checks
   * raise the counter to N and no further, whatever their timestamp or
   * signature.
   */
  lemma {:induction false} QuotaFillsToLimit(rateLimit: int, attempts: nat, k: nat)
    requires rateLimit > 0 && attempts <= rateLimit
    ensures CounterAfter(true, rateLimit, attempts, k) == Min(attempts + k, rateLimit)
    decreases k
  {
    if k > 0 {
      var next := if attempts < rateLimit then attempts + 1 else attempts;
      QuotaFillsToLimit(rateLimit, next, k - 1);
    }
  }

  /** Requests refused by the size or IP check never move the counter. */
  lemma {:induction false} RefusedNeverCounted(rateLimit: int, attempts: nat, k: nat)
    ensures CounterAfter(false, rateLimit, attempts, k) == attempts
    decreases k
  {
    if k > 0 {
      RefusedNeverCounted(rateLimit, attempts, k - 1);
    }
  }

  /** Past the size and IP checks, a request is answered 429 exactly when its IP's quota is used up. */
  lemma ThrottledIffQuotaUsed(cfg: GateConfig, req: WebhookRequest, now: int, attempts: nat, v6: Ipv6Validator)
    requires !TooLarge(cfg.maxSize, req.contentLength) && AllowListTest(cfg.allowedIps, req.ip, v6) == Answer(true)
    ensures Admission(cfg, req, now, attempts, v6) == Reject(TooManyRequests) <==>
      cfg.rateLimit > 0 && attempts >= cfg.rateLimit
  {
    assert PreRateRejection(cfg, req, v6) == None;
  }

  /**
   * From a fresh counter, the first N such requests get past the rate
   * check and the (N+1)th is answered 429.
   */
  lemma NthPlusOneIsThrottled(cfg: GateConfig, req: WebhookRequest, now: int, k: nat, v6: Ipv6Validator)
    requires !TooLarge(cfg.maxSize, req.contentLength) && AllowListTest(cfg.allowedIps, req.ip, v6) == Answer(true)
    requires cfg.rateLimit > 0
    ensures Admission(cfg, req, now, CounterAfter(true, cfg.rateLimit, 0, k), v6) == Reject(TooManyRequests)
      <==> k >= cfg.rateLimit
  {
    QuotaFillsToLimit(cfg.rateLimit, 0, k);
    ThrottledIffQuotaUsed(cfg, req, now, CounterAfter(true, cfg.rateLimit, 0, k), v6);
  }

  /** A `Content-Length` equal to the maximum, "0", or none at all passes the size check. */
  lemma SizeBoundary(maxSize: int)
    ensures !TooLarge(maxSize, Some(IntToString(maxSize)))
    ensures !TooLarge(maxSize, Some("0")) && !TooLarge(maxSize, None)
    ensures maxSize >= 0 ==> TooLarge(maxSize, Some(IntToString(maxSize + 1)))
  {
    IntCastOfIntToString(maxSize);
    IntCastOfIntToString(maxSize + 1);
    if maxSize >= 0 {
      assert IntToString(maxSize + 1) != "0" by {
        assert DigitsValue(IntToString(maxSize + 1)) == maxSize + 1 by {
          IntCastOfDigits(IntToString(maxSize + 1));
        }
      }
    }
  }

  /** A timestamp written as a non-zero integer passes exactly when it is at most 300 seconds off. */
  lemma TimestampBoundary(t: int, now: int)
    requires t != 0
    ensures TimestampFresh(Some(IntToString(t)), now) <==> Abs(now - t) <= MaxSkew
  {
    IntCastOfIntToString(t);
    IntToStringNonEmpty(t);
  }

  /** A timestamp header of "0" counts as missing: it passes at any time. */
  lemma ZeroTimestampSkipsCheck(now: int)
    ensures TimestampFresh(Some("0"), now)
  {
  }

  /** An empty allow-list admits every client, an IPv6 one or one `filter_var` rejects included. */
  lemma EmptyAllowListAdmitsAll(ip: string, v6: Ipv6Validator)
    ensures AllowListTest([], ip, v6) == Answer(true)
  {
  }

  /**
   * A client whose address is, once trimmed, an entry of the list is
   * admitted, unless a range entry before it throws.
   */
  lemma ListedAddressAdmitted(allowed: seq<string>, ip: string, i: nat, v6: Ipv6Validator)
    requires i < |allowed| && TrimSpace(allowed[i]) == ip
    ensures AllowListTest(allowed, ip, v6) != Answer(false)
    ensures (forall j :: 0 <= j < i ==> EntryTest(TrimSpace(allowed[j]), ip, v6) != NegativeShift) ==>
      AllowListTest(allowed, ip, v6) == Answer(true)
  {
    var tests := EntryTests(allowed, ip, v6);
    assert tests[i] == Answer(true);
    if forall j :: 0 <= j < i ==> EntryTest(TrimSpace(allowed[j]), ip, v6) != NegativeShift {
      forall j | 0 <= j < i
        ensures tests[j] != NegativeShift
      {
        assert tests[j] == EntryTest(TrimSpace(allowed[j]), ip, v6);
      }
    }
    AdmittingTestDecides(tests, i);
    assert AllowListTest(allowed, ip, v6) == FirstDecisive(tests, 0);
  }

  /** A test that admits makes the scan decide, and admit unless an earlier test throws. */
  lemma AdmittingTestDecides(tests: seq<RangeTest>, i: nat)
    requires i < |tests| && tests[i] == Answer(true)
    ensures FirstDecisive(tests, 0) != Answer(false)
    ensures (forall j :: 0 <= j < i ==> tests[j] != NegativeShift) ==> FirstDecisive(tests, 0) == Answer(true)
  {
  }

  /**
   * As written, an IPv6 client gets past the allow-list when its first
   * entry is an IPv6 range with a prefix of at most 32, whatever the
   * addresses: `ip2long` reads both as 0.
   */
  lemma Ipv6ClientPassesIpv6Range(allowed: seq<string>, ip: string, v6: Ipv6Validator)
    requires |allowed| > 0 && ':' in ip && v6(ip)
    requires '/' in TrimSpace(allowed[0]) && 0 <= PrefixOf(TrimSpace(allowed[0])) <= 32
    requires ':' in SubnetOf(TrimSpace(allowed[0])) && v6(SubnetOf(TrimSpace(allowed[0])))
    ensures AllowListTest(allowed, ip, v6) == Answer(true)
  {
    var entry := TrimSpace(allowed[0]);
    var tests := EntryTests(allowed, ip, v6);
    if ip != entry {
      Ipv6RangeHoldsAllIpv6(ip, entry, v6);
    }
    assert tests[0] == Answer(true);
    AdmittingTestDecides(tests, 0);
    assert AllowListTest(allowed, ip, v6) == FirstDecisive(tests, 0);
  }

  /** An allow-list of plain addresses, without any '/', never throws: it admits exactly the listed clients. */
  lemma PlainListNeverThrows(allowed: seq<string>, ip: string, v6: Ipv6Validator)
    requires |allowed| > 0 && forall i :: 0 <= i < |allowed| ==> '/' !in TrimSpace(allowed[i])
    ensures AllowListTest(allowed, ip, v6) == Answer(exists i :: 0 <= i < |allowed| && TrimSpace(allowed[i]) == ip)
  {
    var tests := EntryTests(allowed, ip, v6);
    assert forall i :: 0 <= i < |allowed| ==> tests[i] == Answer(TrimSpace(allowed[i]) == ip);
  }

  /**
   * The rate counters behind `RateLimiter::tooManyAttempts` and
   * `RateLimiter::hit`, one per key.
   */
  class RateLimiter {
    var hits: map<RateKey, nat>

    function Attempts(key: RateKey): nat
      reads this
    {
      if key in hits then hits[key] else 0
    }

    constructor ()
      ensures hits == map[]
    {
      hits := map[];
    }

    /** `tooManyAttempts($key, $max)` within the current window. */
    method TooManyAttempts(key: RateKey, maxAttempts: int) returns (limited: bool)
      ensures limited <==> Attempts(key) >= maxAttempts
    {
      limited := Attempts(key) >= maxAttempts;
    }

    /** `hit($key, 60)`: one more attempt for `key`. */
    method Hit(key: RateKey)
      modifies this
      ensures hits == old(hits)[key := old(Attempts(key)) + 1]
      ensures Attempts(key) == old(Attempts(key)) + 1
      ensures forall k :: k != key ==> Attempts(k) == old(Attempts(k))
    {
      hits := hits[key := Attempts(key) + 1];
    }

    /** The window of `key` runs out: its counter starts again from zero. */
    method ExpireWindow(key: RateKey)
      modifies this
      ensures hits == map k | k in old(hits) && k != key :: old(hits)[k]
      ensures Attempts(key) == 0
      ensures forall k :: k != key ==> Attempts(k) == old(Attempts(k))
    {
      hits := map k | k in hits && k != key :: hits[k];
    }
  }

  /**
   * The rate-limit block of `handle`: with a positive limit, refuse a key
   * whose attempts have reached it, and otherwise count one more attempt.
   */
  method Throttle(limiter: RateLimiter, key: RateKey, rateLimit: int) returns (limited: bool)
    modifies limiter
    ensures limited <==> rateLimit > 0 && old(limiter.Attempts(key)) >= rateLimit
    ensures limiter.hits ==
      if rateLimit > 0 && !limited then old(limiter.hits)[key := old(limiter.Attempts(key)) + 1]
      else old(limiter.hits)
  {
    if rateLimit <= 0 {
      return false;
    }
    limited := limiter.TooManyAttempts(key, rateLimit);
    if !limited {
      limiter.Hit(key);
    }
  }

  /** The size and IP checks of `handle`. */
  method PreRateChecks(cfg: GateConfig, req: WebhookRequest, v6: Ipv6Validator) returns (early: Option<Decision>)
    ensures early == PreRateRejection(cfg, req, v6)
  {
    if TooLarge(cfg.maxSize, req.contentLength) {
      return Some(Reject(RequestTooLarge));
    }
    var ipTest := ValidateWebhookIP(cfg.allowedIps, req.ip, v6);
    if ipTest == NegativeShift {
      return Some(ShiftFailure);
    }
    if ipTest == Answer(false) {
      return Some(Reject(Unauthorized));
    }
    return None;
  }

  /**
   * The rate-limit block of `handle`, reached only when the size and IP
   * checks found nothing (`pre` is `None`).
   */
  method RateStage(limiter: RateLimiter, pre: Option<Decision>, key: RateKey, rateLimit: int)
    returns (early: Option<Decision>)
    modifies limiter
    ensures early == RateRejection(pre, rateLimit, old(limiter.Attempts(key)))
    ensures limiter.hits ==
      if early.None? && rateLimit > 0 then old(limiter.hits)[key := old(limiter.Attempts(key)) + 1]
      else old(limiter.hits)
  {
    early := pre;
    if pre.None? {
      var limited := Throttle(limiter, key, rateLimit);
      if limited {
        early := Some(Reject(TooManyRequests));
      }
    }
  }

  /** `handle` in two stages: the size and IP checks, then the rate check; the rest runs only past both. */
  lemma HandleStages(cfg: GateConfig, req: WebhookRequest, now: int, attempts: nat, v6: Ipv6Validator,
                     pre: Option<Decision>, early: Option<Decision>)
    requires pre == PreRateRejection(cfg, req, v6) && early == RateRejection(pre, cfg.rateLimit, attempts)
    ensures Admission(cfg, req, now, attempts, v6) == if early.Some? then early.value else Remaining(cfg, req, now)
    ensures Counted(cfg, req, attempts, v6) == (early.None? && cfg.rateLimit > 0)
  {
  }

  /**
   * `handle`: run the checks in order against `limiter`, counting the
   * request against its IP's key when it gets past the rate check; `v6`
   * is PHP's IPv6 validator.
   */
  method Handle(limiter: RateLimiter, cfg: GateConfig, req: WebhookRequest, now: int, v6: Ipv6Validator)
    returns (decision: Decision)
    modifies limiter
    ensures decision == Admission(cfg, req, now, old(limiter.Attempts(WebhookKey(req.ip))), v6)
    ensures limiter.Attempts(WebhookKey(req.ip)) ==
      old(limiter.Attempts(WebhookKey(req.ip))) + if Counted(cfg, req, old(limiter.Attempts(WebhookKey(req.ip))), v6) then 1 else 0
    ensures Counted(cfg, req, old(limiter.Attempts(WebhookKey(req.ip))), v6) ==>
      limiter.hits == old(limiter.hits)[WebhookKey(req.ip) := limiter.Attempts(WebhookKey(req.ip))]
    ensures !Counted(cfg, req, old(limiter.Attempts(WebhookKey(req.ip))), v6) ==> limiter.hits == old(limiter.hits)
  {
    var pre := PreRateChecks(cfg, req, v6);
    var early := RateStage(limiter, pre, WebhookKey(req.ip), cfg.rateLimit);
    decision := if early.Some? then early.value else Remaining(cfg, req, now);
    HandleStages(cfg, req, now, old(limiter.Attempts(WebhookKey(req.ip))), v6, pre, early);
  }
}
