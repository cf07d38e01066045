/**
 * `WebhookService`: the signature check on an incoming webhook, the
 * redacted copy of its payload that is logged, and the routing of payment
 * events, together with the webhook route's 200/400 answer.
 */
module WebhookService {
  import opened Values
  import opened Strings
  import opened Redaction

  /** The key fragments `sanitizeWebhookData` redacts (`token` among them). */
  const WebhookFragments: seq<string> :=
    ["secret", "password", "pin", "cvv", "card_number", "account_number", "bvn", "token"]

  /**
   * `verifySignature`: the configured secret hash and the `verif-hash`
   * header must both be non-empty in PHP's sense and equal
   * (`hash_equals`, its timing aside).
   */
  predicate VerifySignature(secretHash: Option<string>, signature: Option<string>)
    ensures VerifySignature(secretHash, signature) ==> signature == secretHash && TruthyText(signature)
  {
    TruthyText(secretHash) && TruthyText(signature) && secretHash.value == signature.value
  }

  /** A configured hash of "0" refuses every webhook, even one signed "0". */
  lemma ZeroSecretRefusesAll(signature: Option<string>)
    ensures !VerifySignature(Some("0"), signature)
  {
  }

  /** A signature is accepted exactly when it is the configured hash and that hash is non-empty. */
  lemma SignatureAcceptedIffMatches(secretHash: string, signature: Option<string>)
    ensures VerifySignature(Some(secretHash), signature) <==>
      signature == Some(secretHash) && secretHash != "" && secretHash != "0"
  {
  }

  /** `sanitizeWebhookData` */
  method SanitizeWebhookData(data: Dict) returns (sanitized: Dict)
    ensures sanitized == Redacted(WebhookFragments, data)
  {
    sanitized := Sanitize(WebhookFragments, data);
  }

  /** Sanitizing the webhook payload twice is sanitizing it once. */
  lemma SanitizeWebhookIdempotent(data: Dict)
    ensures Redacted(WebhookFragments, Redacted(WebhookFragments, data)) == Redacted(WebhookFragments, data)
  {
    RedactIdempotent(WebhookFragments, data);
  }

  /** A string without upper-case letters is its own `strtolower`. */
  lemma LowerOfLowerCase(s: string)
    requires forall i :: 0 <= i < |s| ==> !('A' <= s[i] <= 'Z')
    ensures Lower(s) == s
  {
  }

  /**
   * The webhook list redacts a key such as "access_token"; the client's log
   * list, which has no `token`, would not (see `Client.LogFragments`).
   */
  lemma AccessTokenRedacted(key: string)
    requires key == "access_token"
    ensures IsSensitive(WebhookFragments, key)
  {
    LowerOfLowerCase(key);
    assert key == "access_" + "token";
    assert StartsWith("token", "token");
    ContainsInSuffix("access_", "token", "token");
    assert Contains(Lower(key), WebhookFragments[7]);
  }

  /** What `handle` passes to `Log::info` for a verified webhook. */
  datatype ReceivedLog = ReceivedLog(event: Value, data: Value)

  /**
   * `handle`: nothing when the signature does not verify; otherwise the
   * payload itself, unchanged.
   */
  function Handle(secretHash: Option<string>, signature: Option<string>, payload: Dict): (r: Option<Dict>)
    ensures r.None? <==> !VerifySignature(secretHash, signature)
    ensures r.Some? ==> r.value == payload
  {
    if !VerifySignature(secretHash, signature) then None else Some(payload)
  }

  /**
   * The record `handle` logs for a verified payload: its `event` (or
   * "unknown") and the `data` entry of the redacted copy (or `[]`).
   */
  function HandleLog(payload: Dict): ReceivedLog
  {
    var sanitized := Redacted(WebhookFragments, payload);
    ReceivedLog(Coalesce(payload, "event", Str("unknown")), Coalesce(sanitized, "data", Arr(map[])))
  }

  /** The logged `data` holds no sensitive scalar at any depth. */
  lemma HandleLogIsClean(payload: Dict)
    ensures HandleLog(payload).data.Arr? ==> Clean(WebhookFragments, HandleLog(payload).data.m)
    ensures !HandleLog(payload).data.Arr? && Isset(payload, "data") ==>
      HandleLog(payload).data == RedactEntry(WebhookFragments, "data", payload["data"])
  {
    var sanitized := Redacted(WebhookFragments, payload);
    RedactedIsClean(WebhookFragments, payload);
    if Isset(payload, "data") && payload["data"].Arr? {
      assert sanitized["data"] == Arr(Redacted(WebhookFragments, payload["data"].m));
      RedactedIsClean(WebhookFragments, payload["data"].m);
    }
  }

  /**
   * PHP's loose `$event == $label` for a label that is a non-empty,
   * non-numeric string: a string must be equal, `true` matches every such
   * label, and null, false, integers and arrays match none.
   */
  predicate LooseEqualsLabel(event: Value, name: string)
  {
    match event
    case Str(s) => s == name
    case Bool(b) => b
    case _ => false
  }

  const ChargeCompleted: string := "charge.completed"
  const ChargeSuccessful: string := "charge.successful"
  const ChargeFailed: string := "charge.failed"

  /** The event labels `processPayment` handles itself. */
  datatype Route = Successful | Failed | Unhandled

  /** The `switch ($event)` of `processPayment`, with PHP's loose comparison. */
  function RouteOf(event: Value): (route: Route)
    ensures event.Str? ==>
      (route == Successful <==> event.s == ChargeCompleted || event.s == ChargeSuccessful)
    ensures event.Str? ==> (route == Failed <==> event.s == ChargeFailed)
    ensures event == Bool(true) ==> route == Successful
    ensures !event.Str? && event != Bool(true) ==> route == Unhandled
  {
    if LooseEqualsLabel(event, ChargeCompleted) || LooseEqualsLabel(event, ChargeSuccessful) then Successful
    else if LooseEqualsLabel(event, ChargeFailed) then Failed
    else Unhandled
  }

  /**
   * What `processPayment` ends with: `null`, an array, the `TypeError`
   * raised when a routed event's `data` is not an array, or the
   * `ErrorException` Laravel's error handler makes of the "Array to string
   * conversion" warning when an unhandled `event` is an array and is
   * interpolated into the log line.
   */
  datatype ProcessOutcome = NoPayload | Payload(value: Dict) | DataNotArray(data: Value) | EventNotText(event: Value)

  /**
   * `processPayment`: `null` unless `handle` returns a non-empty payload;
   * a charge event returns its `data` (or `[]`); any other event returns the
   * whole payload, unless it is an array and its log line throws.
   */
  function ProcessPayment(secretHash: Option<string>, signature: Option<string>, payload: Dict): (out: ProcessOutcome)
    ensures out == NoPayload <==> !VerifySignature(secretHash, signature) || payload == map[]
    ensures out.DataNotArray? <==>
      VerifySignature(secretHash, signature) && payload != map[] &&
      RouteOf(Coalesce(payload, "event", Str(""))) != Unhandled && Isset(payload, "data") && !payload["data"].Arr?
    ensures out.EventNotText? <==>
      VerifySignature(secretHash, signature) && payload != map[] &&
      RouteOf(Coalesce(payload, "event", Str(""))) == Unhandled && Coalesce(payload, "event", Str("")).Arr?
    ensures out.Payload? && RouteOf(Coalesce(payload, "event", Str(""))) == Unhandled ==> out.value == payload
  {
    var handled := Handle(secretHash, signature, payload);
    if handled.None? || handled.value == map[] then NoPayload
    else
      var p := handled.value;
      var event := Coalesce(p, "event", Str(""));
      var data := Coalesce(p, "data", Arr(map[]));
      match RouteOf(event)
      case Unhandled => if event.Arr? then EventNotText(event) else Payload(p)
      case _ => if data.Arr? then Payload(data.m) else DataNotArray(data)
  }

  /** `processPayment` re-verifies: without a valid signature, or with an empty payload, it yields nothing. */
  lemma ProcessRequiresSignature(secretHash: Option<string>, signature: Option<string>, payload: Dict)
    ensures ProcessPayment(secretHash, signature, payload) == NoPayload <==>
      !VerifySignature(secretHash, signature) || payload == map[]
  {
  }

  /**
   * A verified, non-empty payload is routed by its event: charge events
   * yield their `data` (or `[]`), or the `TypeError` when the set `data` is
   * not an array; every other event yields the whole payload, except an
   * array event, whose log line throws.
   */
  lemma ProcessRoutesByEvent(secretHash: Option<string>, signature: Option<string>, payload: Dict)
    requires VerifySignature(secretHash, signature) && payload != map[]
    ensures var event := Coalesce(payload, "event", Str(""));
      var out := ProcessPayment(secretHash, signature, payload);
      (RouteOf(event) == Unhandled && !event.Arr? ==> out == Payload(payload)) &&
      (RouteOf(event) == Unhandled && event.Arr? ==> out == EventNotText(event)) &&
      (RouteOf(event) != Unhandled && !Isset(payload, "data") ==> out == Payload(map[])) &&
      (RouteOf(event) != Unhandled && Isset(payload, "data") && payload["data"].Arr? ==>
        out == Payload(payload["data"].m)) &&
      (RouteOf(event) != Unhandled && Isset(payload, "data") && !payload["data"].Arr? ==>
        out == DataNotArray(payload["data"]))
  {
  }

  /** A payload without an `event` is handled as the empty label: returned whole. */
  lemma MissingEventUnhandled(secretHash: Option<string>, signature: Option<string>, payload: Dict)
    requires VerifySignature(secretHash, signature) && payload != map[] && "event" !in payload
    ensures ProcessPayment(secretHash, signature, payload) == Payload(payload)
  {
  }

  /** The webhook route: 200 for a non-empty array, 400 for an empty one or null; a thrown error ends as 500. */
  function RouteStatus(outcome: ProcessOutcome): (status: int)
    ensures status == 200 <==> outcome.Payload? && outcome.value != map[]
    ensures status == 500 <==> outcome.DataNotArray? || outcome.EventNotText?
  {
    match outcome
    case NoPayload => 400
    case Payload(p) => if p != map[] then 200 else 400
    case DataNotArray(_) => 500
    case EventNotText(_) => 500
  }

  /** A verified charge event with missing or empty `data` is answered 400. */
  lemma EmptyChargeDataIs400(secretHash: Option<string>, signature: Option<string>, payload: Dict)
    requires VerifySignature(secretHash, signature) && payload != map[]
    requires RouteOf(Coalesce(payload, "event", Str(""))) != Unhandled
    requires !Isset(payload, "data") || payload["data"] == Arr(map[])
    ensures RouteStatus(ProcessPayment(secretHash, signature, payload)) == 400
  {
  }

  /** A verified webhook whose `event` is an array is answered 500, not returned whole. */
  lemma ArrayEventIs500(secretHash: Option<string>, signature: Option<string>, payload: Dict)
    requires VerifySignature(secretHash, signature) && "event" in payload && payload["event"].Arr?
    ensures RouteStatus(ProcessPayment(secretHash, signature, payload)) == 500
  {
    assert payload != map[];
  }

  /** A webhook whose signature does not verify is answered 400 by the route. */
  lemma UnverifiedIs400(secretHash: Option<string>, signature: Option<string>, payload: Dict)
    requires !VerifySignature(secretHash, signature)
    ensures RouteStatus(ProcessPayment(secretHash, signature, payload)) == 400
  {
  }
}
