/** `KeycloakAdminService` of the auth service: the cached admin token
    (`adminToken`, `tokenExpiration`) and `createUser`. HTTP calls are outcomes
    given as parameters; the clock is read as integer milliseconds. */
module KeycloakAdmin {
  import opened Js
  import opened KeycloakConfig
  import opened AuthDtos

  type Header = (string, string)

  datatype Credential = Credential(credentialType: string, value: JsValue, temporary: bool)

  /** The user-creation payload posted to the admin endpoint. */
  datatype UserRepresentation = UserRepresentation(
    userName: JsValue,
    email: JsValue,
    firstName: JsValue,
    lastName: JsValue,
    enabled: bool,
    credentials: seq<Credential>)

  datatype Body = Form(fields: seq<(string, string)>) | Json(user: UserRepresentation)

  /** An HTTP request the service issues. */
  datatype Request = Post(url: string, headers: seq<Header>, body: Body)

  /** What the token endpoint answered: `access_token` and `expires_in`
      (seconds), or the failure's `message`. */
  datatype GrantOutcome = Granted(accessToken: string, expiresIn: int) | GrantFailed(message: string)

  /** What the admin endpoint answered; on failure, the `errorMessage` of the
      response body if any, and the error's own `message`. */
  datatype PostOutcome = Accepted | PostFailed(errorMessage: Option<string>, message: string)

  datatype CreateUserResult = CreateUserResult(success: bool, message: string)

  datatype TokenCache = TokenCache(adminToken: Option<string>, tokenExpiration: Option<int>)

  /** The outcome of one call: its result or thrown message, the requests it
      issued and the cache afterwards. */
  datatype TokenStep = TokenStep(result: Result<string, string>, sent: seq<Request>, cache: TokenCache)

  datatype CreateStep = CreateStep(result: Result<CreateUserResult, string>, sent: seq<Request>, cache: TokenCache)

  /** `URLSearchParams.get`: the first value under `name`. */
  function FormValue(fields: seq<(string, string)>, name: string): Option<string> {
    if fields == [] then None
    else if fields[0].0 == name then Some(fields[0].1)
    else FormValue(fields[1..], name)
  }

  function HeaderValue(headers: seq<Header>, name: string): Option<string> {
    FormValue(headers, name)
  }

  /** The token request: a form-encoded password grant for `admin-cli`
      against the master realm. */
  function AdminTokenRequest(cfg: Config): Request {
    Post(
      cfg.authServerUrl + "/realms/master/protocol/openid-connect/token",
      [("Content-Type", "application/x-www-form-urlencoded")],
      Form([("grant_type", "password"), ("client_id", "admin-cli"),
            ("username", cfg.adminUsername), ("password", cfg.adminPassword)]))
  }

  /** The cache is used while a token is held and `now < tokenExpiration`;
      comparing with an unset expiration is false. */
  predicate CacheHit(cache: TokenCache, now: int) {
    Truthy(cache.adminToken) && cache.tokenExpiration.Some? && now < cache.tokenExpiration.value
  }

  /** `getAdminToken`, called at `now`; a fetched token's response arrives at `received`. */
  function GetAdminTokenStep(cfg: Config, cache: TokenCache, now: int, grant: GrantOutcome, received: int): TokenStep {
    if CacheHit(cache, now) then
      TokenStep(Success(cache.adminToken.value), [], cache)
    else
      match grant
      case Granted(token, expiresIn) =>
        TokenStep(Success(token), [AdminTokenRequest(cfg)],
                  TokenCache(Some(token), Some(received + expiresIn * 1000)))
      case GrantFailed(message) =>
        TokenStep(Failure("Failed to get admin token: " + message), [AdminTokenRequest(cfg)], cache)
  }

  function NewUserRepresentation(d: RegisterDto): UserRepresentation {
    UserRepresentation(d.userName, d.email, d.firstName, d.lastName, true,
                       [Credential("password", d.password, false)])
  }

  /** `'Failed to create user: ' + errorMessage || message`, where `+` binds
      before `||`. */
  function CreateUserFailureMessage(errorMessage: Option<string>, message: string): string {
    var left := "Failed to create user: " + Interpolate(errorMessage);
    if left != "" then left else message
  }

  function CreateUserRequest(env: Env, cfg: Config, token: string, d: RegisterDto): Request {
    Post(
      KeycloakUrls(env, cfg.realm).adminUrl,
      [("Authorization", "Bearer " + token), ("Content-Type", "application/json")],
      Json(NewUserRepresentation(d)))
  }

  /** `createUser`: obtain a token (a failure propagates as it is), then post the payload. */
  function CreateUserStep(env: Env, cfg: Config, cache: TokenCache, d: RegisterDto, now: int,
                          grant: GrantOutcome, received: int, post: PostOutcome): CreateStep
  {
    var t := GetAdminTokenStep(cfg, cache, now, grant, received);
    if t.result.Failure? then
      CreateStep(Failure(t.result.error), t.sent, t.cache)
    else
      var request := CreateUserRequest(env, cfg, t.result.value, d);
      match post
      case Accepted =>
        CreateStep(Success(CreateUserResult(true, "User created successfully")), t.sent + [request], t.cache)
      case PostFailed(errorMessage, message) =>
        CreateStep(Failure(CreateUserFailureMessage(errorMessage, message)), t.sent + [request], t.cache)
  }

  /** The token request is the password grant of section 4.3.2 of RFC 6749, for
      the public client `admin-cli`, sent form-encoded to the master realm. */
  lemma AdminTokenRequestIsPasswordGrant(cfg: Config)
    ensures var r := AdminTokenRequest(cfg);
      && r.url == cfg.authServerUrl + "/realms/master/protocol/openid-connect/token"
      && HeaderValue(r.headers, "Content-Type") == Some("application/x-www-form-urlencoded")
      && r.body.Form?
      && FormValue(r.body.fields, "grant_type") == Some("password")
      && FormValue(r.body.fields, "client_id") == Some("admin-cli")
      && FormValue(r.body.fields, "username") == Some(cfg.adminUsername)
      && FormValue(r.body.fields, "password") == Some(cfg.adminPassword)
  {
    var fields := AdminTokenRequest(cfg).body.fields;
    assert FormValue(fields[2..], "username") == Some(cfg.adminUsername);
    assert FormValue(fields[3..], "password") == Some(cfg.adminPassword);
    assert FormValue(fields[2..], "password") == FormValue(fields[3..], "password");
    assert FormValue(fields[1..], "password") == FormValue(fields[2..], "password");
  }

  /** A held token is returned while `now < tokenExpiration`, with no request
      and no change; otherwise exactly one token request is issued. */
  lemma CachedTokenReused(cfg: Config, cache: TokenCache, now: int, grant: GrantOutcome, received: int)
    ensures var s := GetAdminTokenStep(cfg, cache, now, grant, received);
      && (CacheHit(cache, now) ==> s == TokenStep(Success(cache.adminToken.value), [], cache))
      && (!CacheHit(cache, now) ==> s.sent == [AdminTokenRequest(cfg)])
  {
  }

  /** At `now == tokenExpiration` the token is fetched again. */
  lemma RefetchAtExpiration(cfg: Config, token: string, now: int, grant: GrantOutcome, received: int)
    ensures GetAdminTokenStep(cfg, TokenCache(Some(token), Some(now)), now, grant, received).sent
            == [AdminTokenRequest(cfg)]
  {
  }

  /** A fetch that succeeds stores the token and `received + expires_in * 1000`
      and returns the token; one that fails throws and keeps both fields. */
  lemma FetchUpdatesCache(cfg: Config, cache: TokenCache, now: int, grant: GrantOutcome, received: int)
    requires !CacheHit(cache, now)
    ensures var s := GetAdminTokenStep(cfg, cache, now, grant, received);
      && (grant.Granted? ==>
            s.result == Success(grant.accessToken)
            && s.cache == TokenCache(Some(grant.accessToken), Some(received + grant.expiresIn * 1000)))
      && (grant.GrantFailed? ==>
            s.result == Failure("Failed to get admin token: " + grant.message) && s.cache == cache)
  {
  }

  /** After a fetch of a non-empty token, a later call reuses it exactly when it
      comes before `received + expires_in * 1000`. */
  lemma {:induction false} FetchedTokenLifetime(cfg: Config, cache: TokenCache, now: int, token: string,
                                                 expiresIn: int, received: int,
                                                 later: int, grant: GrantOutcome, received': int)
    requires !CacheHit(cache, now) && token != ""
    ensures var first := GetAdminTokenStep(cfg, cache, now, Granted(token, expiresIn), received);
      var second := GetAdminTokenStep(cfg, first.cache, later, grant, received');
      && (later < received + expiresIn * 1000 ==> second == TokenStep(Success(token), [], first.cache))
      && (later >= received + expiresIn * 1000 ==> second.sent == [AdminTokenRequest(cfg)])
  {
    var first := GetAdminTokenStep(cfg, cache, now, Granted(token, expiresIn), received);
    assert first.cache == TokenCache(Some(token), Some(received + expiresIn * 1000));
    assert CacheHit(first.cache, later) <==> later < received + expiresIn * 1000;
  }

  /** The payload copies the four profile fields, is enabled, and carries one
      non-temporary password credential holding the submitted password. */
  lemma UserPayloadShape(d: RegisterDto)
    ensures var u := NewUserRepresentation(d);
      && u.userName == d.userName && u.email == d.email
      && u.firstName == d.firstName && u.lastName == d.lastName
      && u.enabled
      && |u.credentials| == 1
      && u.credentials[0] == Credential("password", d.password, false)
  {
  }

  /** The failure message never uses the error's own `message`. */
  lemma FailureMessageIgnoresMessage(errorMessage: Option<string>, message: string)
    ensures CreateUserFailureMessage(errorMessage, message)
            == "Failed to create user: " + Interpolate(errorMessage)
  {
  }

  /** `createUser` posts only after obtaining a token, with that token as bearer
      credential; a token failure is thrown as it is and nothing is posted. */
  lemma TokenBeforePost(env: Env, cfg: Config, cache: TokenCache, d: RegisterDto, now: int,
                        grant: GrantOutcome, received: int, post: PostOutcome)
    ensures var t := GetAdminTokenStep(cfg, cache, now, grant, received);
      var c := CreateUserStep(env, cfg, cache, d, now, grant, received, post);
      && c.cache == t.cache
      && (t.result.Failure? ==> c.result == Failure(t.result.error) && c.sent == t.sent)
      && (t.result.Success? ==>
            && |c.sent| == |t.sent| + 1
            && c.sent[..|t.sent|] == t.sent
            && c.sent[|t.sent|].url == KeycloakUrls(env, cfg.realm).adminUrl
            && HeaderValue(c.sent[|t.sent|].headers, "Authorization") == Some("Bearer " + t.result.value)
            && c.sent[|t.sent|].body == Json(NewUserRepresentation(d)))
  {
  }

  /** Success reports `{success: true, message: 'User created successfully'}`;
      a rejected post throws 'Failed to create user: ' and the provider's
      `errorMessage` ("undefined" when there is none). */
  lemma CreateUserOutcome(env: Env, cfg: Config, cache: TokenCache, d: RegisterDto, now: int,
                          grant: GrantOutcome, received: int, post: PostOutcome)
    requires GetAdminTokenStep(cfg, cache, now, grant, received).result.Success?
    ensures var c := CreateUserStep(env, cfg, cache, d, now, grant, received, post);
      && (post.Accepted? ==> c.result == Success(CreateUserResult(true, "User created successfully")))
      && (post.PostFailed? ==>
            c.result == Failure("Failed to create user: " + Interpolate(post.errorMessage)))
  {
  }

  class KeycloakAdminService {
    const env: Env
    const config: Config
    var adminToken: Option<string>
    var tokenExpiration: Option<int>

    function Cache(): TokenCache
      reads this
    {
      TokenCache(adminToken, tokenExpiration)
    }

    constructor (env: Env)
      ensures this.env == env && config == LoadConfig(env)
      ensures Cache() == TokenCache(None, None)
    {
      this.env := env;
      config := LoadConfig(env);
      adminToken := None;
      tokenExpiration := None;
    }

    method GetAdminToken(now: int, grant: GrantOutcome, received: int)
      returns (r: Result<string, string>, sent: seq<Request>)
      modifies this
      ensures var s := GetAdminTokenStep(config, old(Cache()), now, grant, received);
        r == s.result && sent == s.sent && Cache() == s.cache
    {
      if Truthy(adminToken) && tokenExpiration.Some? && now < tokenExpiration.value {
        return Success(adminToken.value), [];
      }
      sent := [AdminTokenRequest(config)];
      match grant {
        case Granted(token, expiresIn) =>
          adminToken := Some(token);
          tokenExpiration := Some(received + expiresIn * 1000);
          r := Success(token);
        case GrantFailed(message) =>
          r := Failure("Failed to get admin token: " + message);
      }
    }

    method CreateUser(d: RegisterDto, now: int, grant: GrantOutcome, received: int, post: PostOutcome)
      returns (r: Result<CreateUserResult, string>, sent: seq<Request>)
      modifies this
      ensures var c := CreateUserStep(env, config, old(Cache()), d, now, grant, received, post);
        r == c.result && sent == c.sent && Cache() == c.cache
    {
      var token;
      token, sent := GetAdminToken(now, grant, received);
      if token.Failure? {
        return Failure(token.error), sent;
      }
      var request := CreateUserRequest(env, config, token.value, d);
      sent := sent + [request];
      match post {
        case Accepted =>
          r := Success(CreateUserResult(true, "User created successfully"));
        case PostFailed(errorMessage, message) =>
          r := Failure(CreateUserFailureMessage(errorMessage, message));
      }
    }
  }
}
