/** `AuthGuard` of the order service: it reads the bearer token from the
    Authorization header (section 2.1 of RFC 6750), has it verified as an RS256
    signature (section 3.3 of RFC 7518) from the realm's issuer (section 4.1.1
    of RFC 7519), and maps every failure to an Unauthorized exception. The
    verifier and the key set are outside the model: their answers are inputs. */
module AuthGuard {
  import opened Js
  import opened Claims
  import opened Nest
  import KeycloakStrategy
  import KeycloakConfig
  import KeycloakConfigService

  const ConfigMissingMessage := "Keycloak configuration environment variables are missing!"

  /** What the constructor keeps: the issuer URL and the key-set URL. */
  datatype GuardConfig = GuardConfig(issuer: string, jwksUri: string)

  /** The constructor, given the server URL and realm settings. */
  function Configure(serverUrl: Option<string>, realm: Option<string>): Result<GuardConfig, string> {
    if !Truthy(serverUrl) || !Truthy(realm) then Failure(ConfigMissingMessage)
    else
      var issuer := serverUrl.value + "/realms/" + realm.value;
      Success(GuardConfig(issuer, issuer + "/protocol/openid-connect/certs"))
  }

  /** What the key set answered for the token's key id. */
  datatype KeyLookup = KeyFound(publicKey: string) | LookupFailed(message: string) | NoKey

  /** `getKey`: the error or key it hands to the verifier's callback. */
  function GetKey(lookup: KeyLookup): Result<string, HttpException> {
    match lookup
    case LookupFailed(_) => Failure(Unauthorized("Failed to retrieve signing key."))
    case NoKey => Failure(Unauthorized("Signing key is undefined."))
    case KeyFound(key) => Success(key)
  }

  datatype VerifyOptions = VerifyOptions(algorithms: seq<string>, issuer: string)

  /** The error the verifier rejects with: a token-expired error, another
      JSON-web-token error, an HTTP exception, or anything else. */
  datatype VerifyError = TokenExpired | JsonWebToken | Thrown(exception: HttpException) | Unknown

  /** The verifier's error classes: an expired-token error is also a
      JSON-web-token error. */
  predicate IsJsonWebTokenError(e: VerifyError) {
    e.TokenExpired? || e.JsonWebToken?
  }

  datatype Verification = Verified(payload: Payload) | Rejected(error: VerifyError)

  /** The catch block, test by test in the order written. */
  function MapVerifyError(e: VerifyError): HttpException {
    if e.TokenExpired? then Unauthorized("Token expired")
    else if IsJsonWebTokenError(e) then Unauthorized("Invalid token")
    else if e.Thrown? && e.exception.Unauthorized? then e.exception
    else Unauthorized("Authentication failed")
  }

  /** `authHeader.split(' ')[1]` for a header that starts with "Bearer ". */
  function BearerToken(header: string): string
    requires StartsWith(header, "Bearer ")
  {
    assert header == "Bearer" + [' '] + header[7..];
    SplitAfterPart("Bearer", header[7..], ' ');
    Split(header, ' ')[1]
  }

  /** The header check, the token extraction and the verification, as
      `canActivate` performs them; `verify` stands for the verifier. */
  function Authenticate(cfg: GuardConfig, header: Option<string>,
                        verify: (string, VerifyOptions) -> Verification): Result<Payload, HttpException>
  {
    if header.None? || !StartsWith(header.value, "Bearer ") then
      Failure(Unauthorized("No token provided"))
    else
      match verify(BearerToken(header.value), VerifyOptions(["RS256"], cfg.issuer))
      case Verified(payload) => Success(payload)
      case Rejected(e) => Failure(MapVerifyError(e))
  }

  /** The incoming request: its Authorization header and the `user` slot the
      guard fills in. */
  class Request {
    const authorization: Option<string>
    var user: Option<Payload>

    constructor (authorization: Option<string>)
      ensures this.authorization == authorization && user.None?
    {
      this.authorization := authorization;
      user := None;
    }
  }

  /** `canActivate`: on success the decoded payload becomes `request.user` and
      the answer is true; otherwise the exception is thrown and the request is
      left as it was. */
  method CanActivate(cfg: GuardConfig, request: Request, verify: (string, VerifyOptions) -> Verification)
    returns (r: Result<bool, HttpException>)
    modifies request
    ensures var a := Authenticate(cfg, request.authorization, verify);
      && (a.Success? ==> r == Success(true) && request.user == Some(a.value))
      && (a.Failure? ==> r == Failure(a.error) && request.user == old(request.user))
  {
    var header := request.authorization;
    if header.None? || !StartsWith(header.value, "Bearer ") {
      return Failure(Unauthorized("No token provided"));
    }
    var token := BearerToken(header.value);
    var outcome := verify(token, VerifyOptions(["RS256"], cfg.issuer));
    match outcome {
      case Verified(payload) =>
        request.user := Some(payload);
        r := Success(true);
      case Rejected(e) =>
        r := Failure(MapVerifyError(e));
    }
  }

  /** Construction fails exactly when the server URL or the realm is missing or
      empty; otherwise the issuer is the realm URL and the key set lives under it. */
  lemma ConfigureRule(serverUrl: Option<string>, realm: Option<string>)
    ensures var c := Configure(serverUrl, realm);
      && (c.Failure? <==> !Truthy(serverUrl) || !Truthy(realm))
      && (c.Success? ==>
            c.value.issuer == serverUrl.value + "/realms/" + realm.value
            && c.value.jwksUri == c.value.issuer + "/protocol/openid-connect/certs")
  {
  }

  /** A key-lookup error and a missing key give the two Unauthorized messages;
      a found key's public key is handed to the verifier. */
  lemma GetKeyErrors(lookup: KeyLookup)
    ensures GetKey(lookup).Failure? <==> !lookup.KeyFound?
    ensures lookup.LookupFailed? ==> GetKey(lookup) == Failure(Unauthorized("Failed to retrieve signing key."))
    ensures lookup.NoKey? ==> GetKey(lookup) == Failure(Unauthorized("Signing key is undefined."))
    ensures lookup.KeyFound? ==> GetKey(lookup) == Success(lookup.publicKey)
  {
  }

  /** A missing header, or one without the exact prefix "Bearer ", is refused
      before the verifier is consulted. */
  lemma NoTokenProvided(cfg: GuardConfig, header: Option<string>,
                        verify: (string, VerifyOptions) -> Verification)
    requires header.None? || !StartsWith(header.value, "Bearer ")
    ensures Authenticate(cfg, header, verify) == Failure(Unauthorized("No token provided"))
  {
  }

  /** The token is the text after "Bearer " up to the next space: a prefix of
      the rest, free of spaces, followed by a space or by the end. */
  lemma {:induction false} BearerTokenIsFirstWord(rest: string)
    ensures var t := BearerToken("Bearer " + rest);
      t <= rest && ' ' !in t && (|t| == |rest| || rest[|t|] == ' ')
  {
    var header := "Bearer " + rest;
    assert header[7..] == rest;
    assert header == "Bearer" + [' '] + rest;
    SplitAfterPart("Bearer", rest, ' ');
    SplitFirstPart(rest, ' ');
  }

  /** Two spaces after the scheme give an empty token; a later word is dropped. */
  lemma BearerTokenExamples()
    ensures BearerToken("Bearer  x") == ""
    ensures BearerToken("Bearer a b") == "a"
  {
    BearerTokenIsFirstWord(" x");
    BearerTokenIsFirstWord("a b");
  }

  /** The outcome depends only on the verifier's answer for the extracted token
      with the options RS256 and the configured issuer. */
  lemma VerifierAskedForRs256AndIssuer(cfg: GuardConfig, header: string,
                                       v1: (string, VerifyOptions) -> Verification,
                                       v2: (string, VerifyOptions) -> Verification)
    requires StartsWith(header, "Bearer ")
    requires v1(BearerToken(header), VerifyOptions(["RS256"], cfg.issuer))
             == v2(BearerToken(header), VerifyOptions(["RS256"], cfg.issuer))
    ensures Authenticate(cfg, Some(header), v1) == Authenticate(cfg, Some(header), v2)
  {
  }

  /** Verification errors map in order: expired first (though an expired-token
      error is also a JSON-web-token error), then other JSON-web-token errors,
      then an Unauthorized exception as it is, then a generic failure. Every
      outcome is an Unauthorized exception. */
  lemma ErrorMapping(e: VerifyError)
    ensures IsJsonWebTokenError(TokenExpired)
    ensures MapVerifyError(TokenExpired) == Unauthorized("Token expired")
    ensures MapVerifyError(JsonWebToken) == Unauthorized("Invalid token")
    ensures e.Thrown? && e.exception.Unauthorized? ==> MapVerifyError(e) == e.exception
    ensures e.Unknown? || (e.Thrown? && !e.exception.Unauthorized?)
            ==> MapVerifyError(e) == Unauthorized("Authentication failed")
    ensures MapVerifyError(e).Unauthorized?
  {
  }

  /** The guard's issuer is the issuer the auth service's passport strategy
      expects, and its key-set URL is the config service's public-key URL,
      when all three read the same server URL and realm. */
  lemma IssuerAgreesAcrossServices(server: string, realm: string, cfg: KeycloakConfig.Config,
                                   svc: KeycloakConfigService.ConfigService)
    requires server != "" && realm != ""
    requires cfg.authServerUrl == server && cfg.realm == realm
    requires svc.authServerUrl == server && svc.realm == realm
    ensures var g := Configure(Some(server), Some(realm));
      && g.Success?
      && g.value.issuer == KeycloakStrategy.StrategyOptionsFor(cfg).issuer
      && g.value.jwksUri == svc.GetPublicKeyUrl()
  {
  }
}
