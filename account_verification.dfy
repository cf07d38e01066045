/**
 * `AccountVerificationService`: the card-BIN, account-number and
 * bank-code checks, and the calls the service makes on the client.
 */
module AccountVerification {
  import opened Values
  import opened Strings
  import opened Http
  import opened Endpoint

  const InvalidBin: string := "Invalid card BIN format. BIN must be exactly 6 digits."
  const InvalidAccountNumber: string := "Invalid account number format."
  const InvalidBankCode: string := "Invalid bank code format."
  const BinLength: int := 6

  /** `preg_match('/^\d+$/', $s)`: less at most one final newline, a non-empty run of ASCII digits. */
  predicate MatchesDigits(s: string)
  {
    LineBody(s) != [] && AllDigits(LineBody(s))
  }

  /** `preg_match('/^\d{6}$/', $s)`: less at most one final newline, exactly six ASCII digits. */
  predicate MatchesBin(s: string)
  {
    |LineBody(s)| == BinLength && AllDigits(LineBody(s))
  }

  /** `verifyBankAccount`: POST `accounts/resolve` with the data unchanged. */
  function VerifyBankAccount(data: Dict): (call: ApiCall)
    ensures call.Post? && call.endpoint == "accounts/resolve" && call.data == data
  {
    Post(JoinPath(["accounts", "resolve"]), data)
  }

  /** `verifyBVN`: POST `kyc/bvn` with the data unchanged. */
  function VerifyBVN(data: Dict): (call: ApiCall)
    ensures call.Post? && call.endpoint == "kyc/bvn" && call.data == data
  {
    Post(JoinPath(["kyc", "bvn"]), data)
  }

  /** `verifyCardBin`: GET `card-bins/{bin}` for a six-digit BIN; any other BIN is refused before a call. */
  function VerifyCardBin(bin: string): (r: Result<ApiCall>)
    ensures r.Ok? <==> MatchesBin(bin)
    ensures r.Err? ==> r.error == Failure(InvalidBin, 0)
    ensures r.Ok? ==> r.value.Get? && r.value.endpoint == "card-bins" + "/" + bin && r.value.query == map[]
  {
    if !MatchesBin(bin) then Err(Failure(InvalidBin, 0))
    else JoinTwo("card-bins", bin); Ok(Get(JoinPath(["card-bins", bin]), map[]))
  }

  /**
   * `verifyAccountNumber`: both arguments must be runs of digits, the
   * account number checked first; then `verifyBankAccount` with exactly
   * the two of them.
   */
  function VerifyAccountNumber(accountNumber: string, bankCode: string): (r: Result<ApiCall>)
    ensures r.Ok? <==> MatchesDigits(accountNumber) && MatchesDigits(bankCode)
    ensures r.Err? ==> r.error.Failure? && r.error.code == 0
    ensures r.Err? ==> (r.error.message == InvalidAccountNumber <==> !MatchesDigits(accountNumber))
    ensures r.Err? ==> (r.error.message == InvalidBankCode <==> MatchesDigits(accountNumber))
  {
    if !MatchesDigits(accountNumber) then Err(Failure(InvalidAccountNumber, 0))
    else if !MatchesDigits(bankCode) then Err(Failure(InvalidBankCode, 0))
    else Ok(VerifyBankAccount(map["account_number" := Str(accountNumber), "account_bank" := Str(bankCode)]))
  }

  /** `getBanks`: GET `banks`, with the query `{country}` only for a country PHP counts as non-empty. */
  function GetBanks(country: Option<string>): (call: ApiCall)
    ensures call.Get? && call.endpoint == "banks"
    ensures call.query == map[] <==> !TruthyText(country)
    ensures call.query != map[] ==> call.query == map["country" := Str(country.value)]
  {
    var query: Dict := if TruthyText(country) then map["country" := Str(country.value)] else map[];
    assert TruthyText(country) ==> "country" in query;
    Get(JoinPath(["banks"]), query)
  }

  /** `getBankBranches`: GET `banks/{bankId}/branches`, the ID interpolated unchecked. */
  function GetBankBranches(bankId: string): (call: ApiCall)
    ensures call.Get? && call.endpoint == "banks" + "/" + bankId + "/" + "branches" && call.query == map[]
  {
    JoinThree("banks", bankId, "branches");
    Get(JoinPath(["banks", bankId, "branches"]), map[])
  }

  /** A missing country, "" and "0" all ask for the banks of no particular country. */
  lemma EmptyCountryOmitted()
    ensures GetBanks(None).query == map[] && GetBanks(Some("")).query == map[] && GetBanks(Some("0")).query == map[]
  {
  }

  /**
   * An accepted BIN (six digits, perhaps followed by the newline `$`
   * admits) makes its call on a path the sanitizer passes unchanged.
   */
  lemma CardBinPathAccepted(bin: string)
    requires MatchesBin(bin)
    ensures SanitizeEndpoint(VerifyCardBin(bin).value.endpoint) == Ok(VerifyCardBin(bin).value.endpoint)
  {
    var body := LineBody(bin);
    forall i | 0 <= i < |bin|
      ensures bin[i] != '/' && bin[i] != '.'
    {
      if i < |body| {
        assert bin[i] == body[i] && IsDigit(body[i]);
      } else {
        assert bin == body + "\n";
        assert bin[i] == '\n';
      }
    }
    assert ValidSegment("card-bins") && ValidSegment(bin);
    TwoSegmentsPass("card-bins", bin);
  }

  /** A BIN of five or seven digits is refused. */
  lemma CardBinLengthEnforced(bin: string)
    requires AllDigits(bin) && |bin| != BinLength
    ensures VerifyCardBin(bin) == Err(Failure(InvalidBin, 0))
  {
    if bin != [] {
      assert IsDigit(bin[|bin| - 1]);
    }
    assert LineBody(bin) == bin;
  }

  /**
   * An accepted account number and bank code are handed to
   * `verifyBankAccount` as exactly the two entries `account_number` and
   * `account_bank`.
   */
  lemma AccountNumberPayload(accountNumber: string, bankCode: string)
    requires MatchesDigits(accountNumber) && MatchesDigits(bankCode)
    ensures VerifyAccountNumber(accountNumber, bankCode) ==
      Ok(VerifyBankAccount(map["account_number" := Str(accountNumber), "account_bank" := Str(bankCode)]))
  {
  }

  /** The fixed segments of the account paths are valid segments. */
  lemma FixedSegmentsValid()
    ensures ValidSegment("accounts") && ValidSegment("resolve")
    ensures ValidSegment("kyc") && ValidSegment("bvn")
  {
  }

  /** A call on a path "a/b" of two valid segments passes the sanitizer unchanged. */
  lemma FixedCallAccepted(call: ApiCall, a: string, b: string)
    requires call.endpoint == JoinPath([a, b]) && ValidSegment(a) && ValidSegment(b)
    ensures SanitizeEndpoint(call.endpoint) == Ok(call.endpoint)
  {
    TwoSegmentsPass(a, b);
  }

  /** `accounts/resolve` passes the sanitizer unchanged, and the data is passed on as given. */
  lemma BankAccountCallAccepted(data: Dict)
    ensures VerifyBankAccount(data).data == data
    ensures SanitizeEndpoint(VerifyBankAccount(data).endpoint) == Ok(VerifyBankAccount(data).endpoint)
  {
    FixedSegmentsValid();
    FixedCallAccepted(VerifyBankAccount(data), "accounts", "resolve");
  }

  /** `kyc/bvn` passes the sanitizer unchanged, and the data is passed on as given. */
  lemma BvnCallAccepted(data: Dict)
    ensures VerifyBVN(data).data == data
    ensures SanitizeEndpoint(VerifyBVN(data).endpoint) == Ok(VerifyBVN(data).endpoint)
  {
    FixedSegmentsValid();
    FixedCallAccepted(VerifyBVN(data), "kyc", "bvn");
  }

  /** When both arguments are bad, the account number is the one reported. */
  lemma AccountNumberCheckedFirst(accountNumber: string, bankCode: string)
    requires !MatchesDigits(accountNumber)
    ensures VerifyAccountNumber(accountNumber, bankCode) == Err(Failure(InvalidAccountNumber, 0))
  {
  }

  /** A bank ID holding ".." yields a path the client's sanitizer refuses. */
  lemma BranchTraversalRefused(bankId: string)
    requires Contains(bankId, "..")
    ensures SanitizeEndpoint(GetBankBranches(bankId).endpoint).Err?
  {
    var inner := JoinPath([bankId, "branches"]);
    assert [bankId, "branches"][1..] == ["branches"];
    assert JoinPath(["branches"]) == "branches";
    assert inner == (bankId + "/") + "branches";
    ContainsInPrefix(bankId, "/", "..");
    ContainsInPrefix(bankId + "/", "branches", "..");
    assert GetBankBranches(bankId).endpoint == ("banks" + "/") + inner;
    ContainsInSuffix("banks" + "/", inner, "..");
    TraversalRefused(GetBankBranches(bankId).endpoint);
  }

  /** An empty bank ID yields `banks//branches`, which the sanitizer refuses. */
  lemma EmptyBankIdRefused()
    ensures SanitizeEndpoint(GetBankBranches("").endpoint) == Err(Failure(InvalidPath, 0))
  {
    var banks, branches := "banks", "branches";
    assert GetBankBranches("").endpoint == banks + "//" + branches;
    InnerDoubleSlashRefused(banks, branches);
  }

  /** A bank ID that is a valid segment reaches `banks/{bankId}/branches` unchanged. */
  lemma PlainBankIdAccepted(bankId: string)
    requires ValidSegment(bankId)
    ensures SanitizeEndpoint(GetBankBranches(bankId).endpoint) == Ok(GetBankBranches(bankId).endpoint)
  {
    assert ValidSegment("banks") && ValidSegment("branches");
    ThreeSegmentsPass("banks", bankId, "branches");
  }
}
