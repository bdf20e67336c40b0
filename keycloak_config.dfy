/** `keycloakConfig` and `keycloakUrls` of the auth service: settings read from
    the process environment with `||` defaults, and the Keycloak endpoint URLs. */
module KeycloakConfig {
  import opened Js

  /** `process.env`: a variable is either unset or holds a string. */
  type Env = map<string, string>

  const ServerUrlVar := "KEYCLOAK_SERVER_URL"
  const RealmVar := "KEYCLOAK_REALM"
  const ClientIdVar := "KEYCLOAK_CLIENT_ID"
  const ClientSecretVar := "KEYCLOAK_CLIENT_SECRET"
  const AdminUsernameVar := "KEYCLOAK_ADMIN_USERNAME"
  const AdminPasswordVar := "KEYCLOAK_ADMIN_PASSWORD"

  function Lookup(env: Env, name: string): Option<string> {
    if name in env then Some(env[name]) else None
  }

  /** The string values of the connect library's enforcement and validation enums. */
  datatype PolicyEnforcement = Permissive | Enforcing
  datatype TokenValidation = Online | Offline | NoValidation

  datatype Config = Config(
    realm: string,
    clientId: string,
    clientSecret: string,
    authServerUrl: string,
    policyEnforcement: PolicyEnforcement,
    tokenValidation: TokenValidation,
    adminUsername: string,
    adminPassword: string)

  /** `keycloakConfig`, evaluated against the environment. */
  function LoadConfig(env: Env): Config {
    Config(
      realm := OrDefault(Lookup(env, RealmVar), ""),
      clientId := OrDefault(Lookup(env, ClientIdVar), ""),
      clientSecret := OrDefault(Lookup(env, ClientSecretVar), ""),
      authServerUrl := OrDefault(Lookup(env, ServerUrlVar), ""),
      policyEnforcement := Permissive,
      tokenValidation := Online,
      adminUsername := OrDefault(Lookup(env, AdminUsernameVar), "admin"),
      adminPassword := OrDefault(Lookup(env, AdminPasswordVar), "admin"))
  }

  datatype Urls = Urls(tokenUrl: string, userInfoUrl: string, adminUrl: string, publicKeyUrl: string)

  /** `keycloakUrls(realm)`: interpolates the server variable itself, not the
      defaulted configuration value. */
  function KeycloakUrls(env: Env, realm: string): Urls {
    var server := Interpolate(Lookup(env, ServerUrlVar));
    Urls(
      tokenUrl := server + "/realms/" + realm + "/protocol/openid-connect/token",
      userInfoUrl := server + "/realms/" + realm + "/protocol/openid-connect/userinfo",
      adminUrl := server + "/admin/realms/" + realm + "/users",
      publicKeyUrl := server + "/realms/" + realm + "/protocol/openid-connect/certs")
  }

  /** Each unset or empty variable takes its own default, whatever the others
      hold: "" for the realm, client id, client secret and server URL, "admin"
      for both admin credentials; the modes are always permissive and online. */
  lemma ConfigDefaults(env: Env)
    ensures var c := LoadConfig(env);
      && (!Truthy(Lookup(env, RealmVar)) ==> c.realm == "")
      && (!Truthy(Lookup(env, ClientIdVar)) ==> c.clientId == "")
      && (!Truthy(Lookup(env, ClientSecretVar)) ==> c.clientSecret == "")
      && (!Truthy(Lookup(env, ServerUrlVar)) ==> c.authServerUrl == "")
      && (!Truthy(Lookup(env, AdminUsernameVar)) ==> c.adminUsername == "admin")
      && (!Truthy(Lookup(env, AdminPasswordVar)) ==> c.adminPassword == "admin")
      && c.policyEnforcement == Permissive && c.tokenValidation == Online
  {
  }

  /** A non-empty variable is taken as it is. */
  lemma ConfigTakesSetValues(env: Env)
    ensures var c := LoadConfig(env);
      && (Truthy(Lookup(env, RealmVar)) ==> c.realm == env[RealmVar])
      && (Truthy(Lookup(env, ClientIdVar)) ==> c.clientId == env[ClientIdVar])
      && (Truthy(Lookup(env, ClientSecretVar)) ==> c.clientSecret == env[ClientSecretVar])
      && (Truthy(Lookup(env, ServerUrlVar)) ==> c.authServerUrl == env[ServerUrlVar])
      && (Truthy(Lookup(env, AdminUsernameVar)) ==> c.adminUsername == env[AdminUsernameVar])
      && (Truthy(Lookup(env, AdminPasswordVar)) ==> c.adminPassword == env[AdminPasswordVar])
  {
  }

  /** The token, userinfo and certs URLs share one OpenID Connect prefix; the
      admin URL sits under `/admin/realms/` instead. */
  lemma UrlShapes(env: Env, realm: string)
    ensures var u := KeycloakUrls(env, realm);
      var server := Interpolate(Lookup(env, ServerUrlVar));
      var oidc := server + "/realms/" + realm + "/protocol/openid-connect/";
      && u.tokenUrl == oidc + "token"
      && u.userInfoUrl == oidc + "userinfo"
      && u.publicKeyUrl == oidc + "certs"
      && u.adminUrl == server + "/admin/realms/" + realm + "/users"
  {
  }

  /** With the server variable unset every URL begins with the text "undefined",
      although the configuration's server URL is then "". When the variable is
      set, the URLs begin with the configuration's server URL. */
  lemma UrlsIgnoreServerDefault(env: Env, realm: string)
    ensures var u := KeycloakUrls(env, realm);
      && (ServerUrlVar !in env ==>
            LoadConfig(env).authServerUrl == ""
            && "undefined" <= u.tokenUrl && "undefined" <= u.userInfoUrl
            && "undefined" <= u.adminUrl && "undefined" <= u.publicKeyUrl)
      && (ServerUrlVar in env ==>
            var s := LoadConfig(env).authServerUrl;
            s <= u.tokenUrl && s <= u.userInfoUrl && s <= u.adminUrl && s <= u.publicKeyUrl)
  {
  }
}
