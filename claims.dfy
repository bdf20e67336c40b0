/** The decoded Keycloak access-token payload, as the auth service, the passport
    strategy and the order service's guards read it. Every claim may be absent. */
module Claims {
  import opened Js

  /** The `realm_access` claim: an object whose `roles` list may be missing. */
  datatype RealmAccess = RealmAccess(roles: Option<seq<string>>)

  /** Claim names in the token: sub, preferred_username, email, given_name,
      family_name, realm_access, access_token. */
  datatype Payload = Payload(
    sub: Option<string>,
    preferredUsername: Option<string>,
    email: Option<string>,
    givenName: Option<string>,
    familyName: Option<string>,
    realmAccess: Option<RealmAccess>,
    accessToken: Option<string>)
}
