/**
 * `PaymentService`: the transaction-ID check, the four operations that
 * interpolate a validated ID into their path, and the fixed-path
 * operations that hand their data or filters to the client unchanged.
 * Each operation yields the call it makes on the client (or the failure it
 * throws before making one).
 */
module PaymentService {
  import opened Values
  import opened Strings
  import opened Http
  import opened Endpoint

  const InvalidIdFormat: string := "Invalid transaction ID format"
  const IdTooLong: string := "Transaction ID exceeds maximum length"
  const MaxIdLength: int := 100

  /** A transaction or refund ID, which PHP accepts as a string or an integer. */
  datatype TransactionId = TextId(text: string) | IntId(n: int)

  /** `(string) $transactionId` */
  function IdText(id: TransactionId): string
  {
    match id
    case TextId(s) => s
    case IntId(n) => IntToString(n)
  }

  /** One character of the class `[a-zA-Z0-9_-]`. */
  predicate IsIdChar(c: char)
  {
    'a' <= c <= 'z' || 'A' <= c <= 'Z' || '0' <= c <= '9' || c == '_' || c == '-'
  }

  /**
   * `preg_match('/^[a-zA-Z0-9_-]+$/', $id)`: the subject, less at most one
   * final newline that `$` lets through, is a non-empty run of the class.
   */
  predicate MatchesIdPattern(id: string)
  {
    var body := LineBody(id);
    body != [] && forall i :: 0 <= i < |body| ==> IsIdChar(body[i])
  }

  /**
   * `validateTransactionId`: the string form is returned when it matches
   * the pattern and is at most 100 characters long; the pattern is checked
   * first, so an ID failing both is reported as badly formed.
   */
  function ValidateTransactionId(id: TransactionId): (r: Result<string>)
    ensures r.Ok? <==> MatchesIdPattern(IdText(id)) && |IdText(id)| <= MaxIdLength
    ensures r.Ok? ==> r.value == IdText(id)
    ensures r.Err? ==> r.error.Failure? && r.error.code == 0
    ensures r.Err? ==> (r.error.message == InvalidIdFormat <==> !MatchesIdPattern(IdText(id)))
    ensures r.Err? ==> (r.error.message == IdTooLong <==> MatchesIdPattern(IdText(id)))
  {
    var text := IdText(id);
    if !MatchesIdPattern(text) then Err(Failure(InvalidIdFormat, 0))
    else if |text| > MaxIdLength then Err(Failure(IdTooLong, 0))
    else Ok(text)
  }

  /**
   * Every accepted ID is a valid path segment: non-empty, with neither '/'
   * nor '.' (a final newline, which the pattern lets through, is neither).
   */
  lemma AcceptedIdIsSegment(id: TransactionId)
    requires ValidateTransactionId(id).Ok?
    ensures ValidSegment(ValidateTransactionId(id).value)
  {
    var s := IdText(id);
    var body := LineBody(s);
    forall i | 0 <= i < |s|
      ensures s[i] != '/' && s[i] != '.'
    {
      if i < |body| {
        assert s[i] == body[i] && IsIdChar(body[i]);
      } else {
        assert s == body + "\n";
        assert s[i] == '\n';
      }
    }
  }

  /** An ID of the class followed by one newline is accepted, newline and all. */
  lemma TrailingNewlineAccepted(s: string)
    requires s != [] && |s| < MaxIdLength
    requires forall i :: 0 <= i < |s| ==> IsIdChar(s[i])
    ensures ValidateTransactionId(TextId(s + "\n")) == Ok(s + "\n")
  {
    var t := s + "\n";
    assert t[..|t| - 1] == s;
    assert LineBody(t) == s;
  }

  /** Any integer whose decimal form fits in 100 characters is accepted as that form. */
  lemma IntIdAccepted(n: int)
    requires |IntToString(n)| <= MaxIdLength
    ensures ValidateTransactionId(IntId(n)) == Ok(IntToString(n))
  {
    var s := IntToString(n);
    assert IsDigit(s[|s| - 1]);
    assert LineBody(s) == s;
    forall i | 0 <= i < |s|
      ensures IsIdChar(s[i])
    {
      if n < 0 && i > 0 {
        assert s[i] == s[1..][i - 1];
      }
    }
  }

  /** An ID with a character outside the class is refused as badly formed, however long. */
  lemma FormatCheckedBeforeLength(s: string, i: nat)
    requires i < |s| && !IsIdChar(s[i]) && s[i] != '\n'
    ensures ValidateTransactionId(TextId(s)) == Err(Failure(InvalidIdFormat, 0))
  {
    var body := LineBody(s);
    assert i < |body|;
    assert body[i] == s[i];
  }

  /** `initialize`: POST `payments` with the data unchanged. */
  function Initialize(data: Dict): (call: ApiCall)
    ensures call.Post? && call.endpoint == "payments" && call.data == data
  {
    Post(JoinPath(["payments"]), data)
  }

  /** `verify`: validate, then GET `transactions/{id}/verify`. */
  function Verify(id: TransactionId): (r: Result<ApiCall>)
    ensures r.Err? <==> ValidateTransactionId(id).Err?
    ensures r.Err? ==> r.error == ValidateTransactionId(id).error
    ensures r.Ok? ==> r.value.Get? && r.value.endpoint == "transactions" + "/" + IdText(id) + "/" + "verify" && r.value.query == map[]
  {
    match ValidateTransactionId(id)
    case Err(e) => Err(e)
    case Ok(v) => JoinThree("transactions", v, "verify"); Ok(Get(JoinPath(["transactions", v, "verify"]), map[]))
  }

  /** `getTransaction`: validate, then GET `transactions/{id}`. */
  function GetTransaction(id: TransactionId): (r: Result<ApiCall>)
    ensures r.Err? <==> ValidateTransactionId(id).Err?
    ensures r.Err? ==> r.error == ValidateTransactionId(id).error
    ensures r.Ok? ==> r.value.Get? && r.value.endpoint == "transactions" + "/" + IdText(id) && r.value.query == map[]
  {
    match ValidateTransactionId(id)
    case Err(e) => Err(e)
    case Ok(v) => JoinTwo("transactions", v); Ok(Get(JoinPath(["transactions", v]), map[]))
  }

  /** `getTransactionByReference`: GET `transactions` with the query `{tx_ref}` alone. */
  function GetTransactionByReference(reference: string): (call: ApiCall)
    ensures call.Get? && call.endpoint == "transactions" && call.query == map["tx_ref" := Str(reference)]
  {
    Get(JoinPath(["transactions"]), map["tx_ref" := Str(reference)])
  }

  /** `listTransactions`: GET `transactions` with the filters unchanged. */
  function ListTransactions(filters: Dict): (call: ApiCall)
    ensures call.Get? && call.endpoint == "transactions" && call.query == filters
  {
    Get(JoinPath(["transactions"]), filters)
  }

  /** `getTransactionFees`: POST `transactions/fee` with the data unchanged. */
  function GetTransactionFees(data: Dict): (call: ApiCall)
    ensures call.Post? && call.endpoint == "transactions/fee" && call.data == data
  {
    Post(JoinPath(["transactions", "fee"]), data)
  }

  /** `resendWebhook`: validate, then POST `transactions/{id}/resend-webhook` with no data. */
  function ResendWebhook(id: TransactionId): (r: Result<ApiCall>)
    ensures r.Err? <==> ValidateTransactionId(id).Err?
    ensures r.Err? ==> r.error == ValidateTransactionId(id).error
    ensures r.Ok? ==> r.value.Post? && r.value.endpoint == "transactions" + "/" + IdText(id) + "/" + "resend-webhook" && r.value.data == map[]
  {
    match ValidateTransactionId(id)
    case Err(e) => Err(e)
    case Ok(v) => JoinThree("transactions", v, "resend-webhook"); Ok(Post(JoinPath(["transactions", v, "resend-webhook"]), map[]))
  }

  /** `refund`: POST `transactions/refund` with the data unchanged. */
  function Refund(data: Dict): (call: ApiCall)
    ensures call.Post? && call.endpoint == "transactions/refund" && call.data == data
  {
    Post(JoinPath(["transactions", "refund"]), data)
  }

  /** `getRefund`: validate, then GET `refunds/{id}`. */
  function GetRefund(id: TransactionId): (r: Result<ApiCall>)
    ensures r.Err? <==> ValidateTransactionId(id).Err?
    ensures r.Err? ==> r.error == ValidateTransactionId(id).error
    ensures r.Ok? ==> r.value.Get? && r.value.endpoint == "refunds" + "/" + IdText(id) && r.value.query == map[]
  {
    match ValidateTransactionId(id)
    case Err(e) => Err(e)
    case Ok(v) => JoinTwo("refunds", v); Ok(Get(JoinPath(["refunds", v]), map[]))
  }

  /** `listRefunds`: GET `refunds` with the filters unchanged. */
  function ListRefunds(filters: Dict): (call: ApiCall)
    ensures call.Get? && call.endpoint == "refunds" && call.query == filters
  {
    Get(JoinPath(["refunds"]), filters)
  }

  function EndpointOf(call: ApiCall): string
  {
    match call
    case Get(e, _) => e
    case Post(e, _) => e
    case Put(e, _) => e
    case Delete(e) => e
  }

  /**
   * The four ID operations fail exactly when the ID is refused, with the
   * refusal itself and before any call is made.
   */
  lemma IdOperationsValidateFirst(id: TransactionId)
    ensures var v := ValidateTransactionId(id);
      (v.Err? <==> Verify(id).Err?) && (v.Err? <==> GetTransaction(id).Err?) &&
      (v.Err? <==> ResendWebhook(id).Err?) && (v.Err? <==> GetRefund(id).Err?) &&
      (v.Err? ==> Verify(id).error == v.error && GetTransaction(id).error == v.error &&
                  ResendWebhook(id).error == v.error && GetRefund(id).error == v.error)
  {
  }

  /** The fixed segments of the ID operations' paths are valid segments. */
  lemma FixedSegmentsValid()
    ensures ValidSegment("transactions") && ValidSegment("refunds")
    ensures ValidSegment("verify") && ValidSegment("resend-webhook")
  {
  }

  /**
   * Once the ID is accepted, each of the four ID operations makes its call
   * on a path the client's sanitizer passes unchanged.
   */
  lemma IdOperationPathsAccepted(id: TransactionId)
    requires ValidateTransactionId(id).Ok?
    ensures SanitizeEndpoint(EndpointOf(Verify(id).value)) == Ok(EndpointOf(Verify(id).value))
    ensures SanitizeEndpoint(EndpointOf(GetTransaction(id).value)) == Ok(EndpointOf(GetTransaction(id).value))
    ensures SanitizeEndpoint(EndpointOf(ResendWebhook(id).value)) == Ok(EndpointOf(ResendWebhook(id).value))
    ensures SanitizeEndpoint(EndpointOf(GetRefund(id).value)) == Ok(EndpointOf(GetRefund(id).value))
  {
    var s := ValidateTransactionId(id).value;
    AcceptedIdIsSegment(id);
    FixedSegmentsValid();
    ThreeSegmentsPass("transactions", s, "verify");
    TwoSegmentsPass("transactions", s);
    ThreeSegmentsPass("transactions", s, "resend-webhook");
    TwoSegmentsPass("refunds", s);
  }

  /** The fixed-path operations hand their data, filters or reference to the client unchanged. */
  lemma FixedOperationsPassThrough(data: Dict, filters: Dict, reference: string)
    ensures Initialize(data).data == data && GetTransactionFees(data).data == data && Refund(data).data == data
    ensures ListTransactions(filters).query == filters && ListRefunds(filters).query == filters
    ensures GetTransactionByReference(reference).query == map["tx_ref" := Str(reference)]
  {
  }

  /** The fixed paths `payments`, `transactions` and `refunds` pass the sanitizer unchanged. */
  lemma FixedPathsAccepted(data: Dict, filters: Dict, reference: string)
    ensures SanitizeEndpoint(EndpointOf(Initialize(data))) == Ok(EndpointOf(Initialize(data)))
    ensures SanitizeEndpoint(EndpointOf(ListTransactions(filters))) == Ok(EndpointOf(ListTransactions(filters)))
    ensures SanitizeEndpoint(EndpointOf(GetTransactionByReference(reference))) ==
      Ok(EndpointOf(GetTransactionByReference(reference)))
    ensures SanitizeEndpoint(EndpointOf(ListRefunds(filters))) == Ok(EndpointOf(ListRefunds(filters)))
  {
    assert ValidSegment("payments") && ValidSegment("transactions") && ValidSegment("refunds");
    OneSegmentPasses("payments");
    OneSegmentPasses("transactions");
    OneSegmentPasses("refunds");
  }

  /** The fixed paths `transactions/fee` and `transactions/refund` pass the sanitizer unchanged. */
  lemma FixedSubPathsAccepted(data: Dict)
    ensures SanitizeEndpoint(EndpointOf(GetTransactionFees(data))) == Ok(EndpointOf(GetTransactionFees(data)))
    ensures SanitizeEndpoint(EndpointOf(Refund(data))) == Ok(EndpointOf(Refund(data)))
  {
    assert ValidSegment("transactions") && ValidSegment("fee") && ValidSegment("refund");
    TwoSegmentsPass("transactions", "fee");
    TwoSegmentsPass("transactions", "refund");
  }
}
