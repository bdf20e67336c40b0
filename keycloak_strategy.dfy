/** `KeycloakStrategy` of the auth service: the passport-jwt options and
    `validate`, which turns a verified payload into the request's user. */
module KeycloakStrategy {
  import opened Js
  import opened Claims
  import opened KeycloakConfig

  datatype StrategyOptions = StrategyOptions(
    bearerFromAuthHeader: bool,
    ignoreExpiration: bool,
    secretOrKey: string,
    issuer: string,
    audience: string)

  /** The options handed to passport-jwt by the constructor. */
  function StrategyOptionsFor(cfg: Config): StrategyOptions {
    StrategyOptions(true, false, cfg.clientSecret, cfg.authServerUrl + "/realms/" + cfg.realm, cfg.clientId)
  }

  datatype RequestUser = RequestUser(
    userId: Option<string>,
    username: Option<string>,
    email: Option<string>,
    firstName: Option<string>,
    lastName: Option<string>,
    roles: seq<string>,
    accessToken: Option<string>)

  /** `payload.realm_access?.roles || []`: a list is truthy even when empty. */
  function RolesOf(p: Payload): seq<string> {
    match p.realmAccess
    case None => []
    case Some(access) =>
      match access.roles
      case None => []
      case Some(roles) => roles
  }

  /** `validate`: defined for every payload, it never rejects. */
  function Validate(p: Payload): RequestUser {
    RequestUser(p.sub, p.preferredUsername, p.email, p.givenName, p.familyName, RolesOf(p), p.accessToken)
  }

  /** The issuer expected is the realm URL on the configured server, expiry is
      enforced, and the token comes from the bearer Authorization header. */
  lemma StrategyChecksIssuerAndExpiry(cfg: Config)
    ensures var o := StrategyOptionsFor(cfg);
      && o.issuer == cfg.authServerUrl + "/realms/" + cfg.realm
      && !o.ignoreExpiration && o.bearerFromAuthHeader
      && o.secretOrKey == cfg.clientSecret && o.audience == cfg.clientId
  {
  }

  /** Each claim lands in its own field of the request user, unchanged;
      `access_token` is copied, so it is absent when the payload lacks it. */
  lemma ValidateCopiesClaims(p: Payload)
    ensures var u := Validate(p);
      && u.userId == p.sub && u.username == p.preferredUsername && u.email == p.email
      && u.firstName == p.givenName && u.lastName == p.familyName
      && u.accessToken == p.accessToken
      && (p.accessToken.None? ==> u.accessToken.None?)
  {
  }

  /** The roles are the realm roles when the token lists them, else empty. */
  lemma ValidateRoles(p: Payload)
    ensures var u := Validate(p);
      && (p.realmAccess.Some? && p.realmAccess.value.roles.Some? ==> u.roles == p.realmAccess.value.roles.value)
      && (p.realmAccess.None? || p.realmAccess.value.roles.None? ==> u.roles == [])
  {
  }
}
