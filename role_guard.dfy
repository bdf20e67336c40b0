/** `RolesGuard` of the order service: a route's required roles (the `roles`
    metadata) against the realm roles of `request.user`. */
module RolesGuard {
  import opened Js
  import opened Claims
  import opened Nest

  const RolesNotFoundMessage := "User roles not found in token."

  /** `requiredRoles.some((role) => userRoles.includes(role))`, element by element. */
  function SomeIncluded(required: seq<string>, userRoles: seq<string>): bool {
    if required == [] then false
    else (required[0] in userRoles) || SomeIncluded(required[1..], userRoles)
  }

  function DenialMessage(required: seq<string>): string {
    "Insufficient permissions. Required role(s): " + Join(required, ", ") + "."
  }

  /** `canActivate`: `requiredRoles` is absent when the route has no roles
      metadata; `user` is `request.user`. */
  function CanActivate(requiredRoles: Option<seq<string>>, user: Option<Payload>): Result<bool, HttpException> {
    if requiredRoles.None? then Success(true)
    else if user.None? || user.value.realmAccess.None? || user.value.realmAccess.value.roles.None? then
      Failure(Forbidden(RolesNotFoundMessage))
    else if !SomeIncluded(requiredRoles.value, user.value.realmAccess.value.roles.value) then
      Failure(Forbidden(DenialMessage(requiredRoles.value)))
    else Success(true)
  }

  /** The scan finds a match exactly when some required role is a user role. */
  lemma {:induction false} SomeIncludedIff(required: seq<string>, userRoles: seq<string>)
    ensures SomeIncluded(required, userRoles) <==> exists i :: 0 <= i < |required| && required[i] in userRoles
  {
    if required != [] {
      SomeIncludedIff(required[1..], userRoles);
      if exists i :: 0 <= i < |required| && required[i] in userRoles {
        var i :| 0 <= i < |required| && required[i] in userRoles;
        if i > 0 { assert required[1..][i - 1] in userRoles; }
      }
      if exists i :: 0 <= i < |required[1..]| && required[1..][i] in userRoles {
        var i :| 0 <= i < |required[1..]| && required[1..][i] in userRoles;
        assert required[i + 1] in userRoles;
      }
    }
  }

  /** Without roles metadata every request passes, whoever the user is. */
  lemma NoMetadataGrants(user: Option<Payload>)
    ensures CanActivate(None, user) == Success(true)
  {
  }

  /** With metadata, a missing user, `realm_access` or role list is Forbidden. */
  lemma MissingRolesForbidden(required: seq<string>, user: Option<Payload>)
    requires user.None? || user.value.realmAccess.None? || user.value.realmAccess.value.roles.None?
    ensures CanActivate(Some(required), user) == Failure(Forbidden(RolesNotFoundMessage))
  {
  }

  /** With metadata and a role list, access is granted iff at least one required
      role is held; a denial names the required roles joined by ", ". */
  lemma GrantedIffAnyRole(required: seq<string>, user: Payload)
    requires user.realmAccess.Some? && user.realmAccess.value.roles.Some?
    ensures var roles := user.realmAccess.value.roles.value;
      var r := CanActivate(Some(required), Some(user));
      && (r == Success(true) <==> exists i :: 0 <= i < |required| && required[i] in roles)
      && (r.Failure? ==> r.error == Forbidden(DenialMessage(required)))
  {
    SomeIncludedIff(required, user.realmAccess.value.roles.value);
  }

  /** An empty required-role list is not skipped: it always ends in Forbidden. */
  lemma EmptyRequiredAlwaysForbidden(user: Option<Payload>)
    ensures CanActivate(Some([]), user).Failure?
    ensures CanActivate(Some([]), user).error.Forbidden?
  {
  }

  /** The guard never answers false: it grants or throws. */
  lemma NeverFalse(requiredRoles: Option<seq<string>>, user: Option<Payload>)
    ensures CanActivate(requiredRoles, user) != Success(false)
  {
  }
}
