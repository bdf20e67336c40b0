/** `KeycloakConfigService` of the auth service: four settings fixed by the
    constructor, getters, three endpoint URLs and the connect options. */
module KeycloakConfigService {
  import opened Js
  import opened KeycloakConfig

  const AuthUrlVar := "KEYCLOAK_AUTH_URL"

  datatype ConnectOptions = ConnectOptions(
    authServerUrl: string,
    realm: string,
    clientId: string,
    secret: string,
    policyEnforcement: PolicyEnforcement,
    tokenValidation: TokenValidation,
    bearerOnly: bool)

  datatype ConfigService = ConfigService(
    authServerUrl: string,
    realm: string,
    clientId: string,
    clientSecret: string)
  {
    function GetAuthServerUrl(): string { authServerUrl }
    function GetRealm(): string { realm }
    function GetClientId(): string { clientId }
    function GetClientSecret(): string { clientSecret }

    function GetPublicKeyUrl(): string {
      authServerUrl + "/realms/" + realm + "/protocol/openid-connect/certs"
    }

    function GetTokenUrl(): string {
      authServerUrl + "/realms/" + realm + "/protocol/openid-connect/token"
    }

    function GetUserInfoUrl(): string {
      authServerUrl + "/realms/" + realm + "/protocol/openid-connect/userinfo"
    }

    function CreateKeycloakConnectOptions(): ConnectOptions {
      ConnectOptions(authServerUrl, realm, clientId, clientSecret, Permissive, Online, true)
    }
  }

  /** The constructor: each setting from the configuration, with `||` defaults. */
  function NewConfigService(env: Env): ConfigService {
    ConfigService(
      authServerUrl := OrDefault(Lookup(env, AuthUrlVar), ""),
      realm := OrDefault(Lookup(env, RealmVar), ""),
      clientId := OrDefault(Lookup(env, ClientIdVar), ""),
      clientSecret := OrDefault(Lookup(env, ClientSecretVar), "mysecret"))
  }

  /** Each unset or empty setting defaults on its own, to "" except the client
      secret, which defaults to "mysecret"; a non-empty setting is stored as it
      is; the getters return exactly what the constructor stored. */
  lemma ServiceDefaults(env: Env)
    ensures var s := NewConfigService(env);
      && (!Truthy(Lookup(env, AuthUrlVar)) ==> s.GetAuthServerUrl() == "")
      && (!Truthy(Lookup(env, RealmVar)) ==> s.GetRealm() == "")
      && (!Truthy(Lookup(env, ClientIdVar)) ==> s.GetClientId() == "")
      && (!Truthy(Lookup(env, ClientSecretVar)) ==> s.GetClientSecret() == "mysecret")
      && (Truthy(Lookup(env, AuthUrlVar)) ==> s.GetAuthServerUrl() == env[AuthUrlVar])
      && (Truthy(Lookup(env, RealmVar)) ==> s.GetRealm() == env[RealmVar])
      && (Truthy(Lookup(env, ClientIdVar)) ==> s.GetClientId() == env[ClientIdVar])
      && (Truthy(Lookup(env, ClientSecretVar)) ==> s.GetClientSecret() == env[ClientSecretVar])
  {
  }

  /** The connect options copy the four settings and fix permissive enforcement,
      online validation and bearer-only mode. */
  lemma ConnectOptionsCopySettings(env: Env)
    ensures var s := NewConfigService(env);
      var o := s.CreateKeycloakConnectOptions();
      && o.authServerUrl == s.GetAuthServerUrl() && o.realm == s.GetRealm()
      && o.clientId == s.GetClientId() && o.secret == s.GetClientSecret()
      && o.policyEnforcement == Permissive && o.tokenValidation == Online && o.bearerOnly
  {
  }

  /** When the two server variables name the same non-empty URL, the service's
      token, userinfo and certs URLs are exactly those of `keycloakUrls` for the
      service's realm. */
  lemma AgreesWithKeycloakUrls(env: Env)
    requires AuthUrlVar in env && ServerUrlVar in env
    requires env[AuthUrlVar] == env[ServerUrlVar] != ""
    ensures var s := NewConfigService(env);
      var u := KeycloakUrls(env, s.GetRealm());
      && s.GetTokenUrl() == u.tokenUrl
      && s.GetUserInfoUrl() == u.userInfoUrl
      && s.GetPublicKeyUrl() == u.publicKeyUrl
  {
  }
}
