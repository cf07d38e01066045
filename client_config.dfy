/**
 * The client's configuration: the guard its constructor applies to the two
 * keys, the choice of base URL, and the authentication mode that URL selects.
 */
module ClientConfig {
  import opened Values
  import opened Strings

  /**
   * The configuration entries the client reads. String entries are `None`
   * when absent or null.
   */
  datatype Config = Config(
    secretKey: Option<string>,
    publicKey: Option<string>,
    baseUrl: Option<string>,
    apiVersion: Option<string>,
    logRequests: bool)

  const SecretKeyRequired: string := "Flutterwave secret key is required"
  const PublicKeyRequired: string := "Flutterwave public key is required"
  const GatewayRoot: string := "https://api.flutterwave.com/"
  const DefaultApiVersion: string := "v3"

  /**
   * `validateConfig`: the secret key is checked first, then the public key;
   * each must be non-empty in PHP's sense, so "0" is refused too.
   */
  function ValidateConfig(c: Config): (r: Result<()>)
    ensures r.Ok? <==> TruthyText(c.secretKey) && TruthyText(c.publicKey)
    ensures !TruthyText(c.secretKey) ==> r == Err(Failure(SecretKeyRequired, 0))
    ensures TruthyText(c.secretKey) && !TruthyText(c.publicKey) ==> r == Err(Failure(PublicKeyRequired, 0))
  {
    if !TruthyText(c.secretKey) then Err(Failure(SecretKeyRequired, 0))
    else if !TruthyText(c.publicKey) then Err(Failure(PublicKeyRequired, 0))
    else Ok(())
  }

  /**
   * `getBaseUrl`: a non-empty `base_url` verbatim, otherwise the gateway
   * root followed by the API version (`v3` when unset) and a slash.
   */
  function BaseUrl(c: Config): (url: string)
    ensures TruthyText(c.baseUrl) ==> url == c.baseUrl.value
    ensures !TruthyText(c.baseUrl) ==> StartsWith(url, GatewayRoot) && url[|url| - 1] == '/'
    ensures !TruthyText(c.baseUrl) ==>
      |url| == |GatewayRoot| + |TextOr(c.apiVersion, DefaultApiVersion)| + 1 &&
      url[|GatewayRoot|..|url| - 1] == TextOr(c.apiVersion, DefaultApiVersion)
  {
    if TruthyText(c.baseUrl) then c.baseUrl.value
    else GatewayRoot + TextOr(c.apiVersion, DefaultApiVersion) + "/"
  }

  /** A request authenticates with an OAuth token iff the base URL contains "/v4/". */
  predicate UsesOAuth(baseUrl: string)
  {
    Contains(baseUrl, "/v4/")
  }

  /** With no override and no version configured, the client talks to v3 with its secret key. */
  lemma DefaultIsV3StaticKey(c: Config)
    requires !TruthyText(c.baseUrl) && c.apiVersion.None?
    ensures BaseUrl(c) == "https://api.flutterwave.com/v3/"
    ensures !UsesOAuth(BaseUrl(c))
  {
    V3UrlIsStaticKey(BaseUrl(c));
  }

  lemma V3UrlIsStaticKey(url: string)
    requires url == "https://api.flutterwave.com/v3/"
    ensures !UsesOAuth(url)
  {
    assert '4' !in "https://api.flutterwave.com/v3/";
    NotContainsMissingChar("https://api.flutterwave.com/v3/", "/v4/", '4');
  }

  /** Configuring `api_version` v3 explicitly selects the same static-key mode. */
  lemma ExplicitV3StaticKey(c: Config)
    requires !TruthyText(c.baseUrl) && c.apiVersion == Some("v3")
    ensures !UsesOAuth(BaseUrl(c))
  {
    V3UrlIsStaticKey(BaseUrl(c));
  }

  /** Configuring `api_version` v4 (and no override) selects OAuth. */
  lemma V4SelectsOAuth(c: Config)
    requires !TruthyText(c.baseUrl) && c.apiVersion == Some("v4")
    ensures BaseUrl(c) == "https://api.flutterwave.com/v4/"
    ensures UsesOAuth(BaseUrl(c))
  {
    assert BaseUrl(c) == "https://api.flutterwave.com" + "/v4/";
    assert StartsWith("/v4/", "/v4/");
    ContainsInSuffix("https://api.flutterwave.com", "/v4/", "/v4/");
  }

  /**
   * An override decides the mode by its own text, whatever `api_version`
   * says: an override without "/v4/" keeps the static key even with v4 set.
   */
  lemma OverrideDecidesMode(c: Config)
    requires TruthyText(c.baseUrl)
    ensures UsesOAuth(BaseUrl(c)) <==> Contains(c.baseUrl.value, "/v4/")
  {
  }
}
