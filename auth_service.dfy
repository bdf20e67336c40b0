/** The auth service's reconciliation of Keycloak claims with the local `User`
    collection: `findOrCreateUserFromKeycloak` and `getUserProfile`. The
    collection is a table keyed by `keycloakId`. */
module AuthService {
  import opened Js
  import opened Claims
  import opened UserSchema

  type Users = map<string, User>

  /** A database failure as the service sees it: a schema validation error
      listing the failing paths, or a unique-index violation (server code 11000). */
  datatype DbError = ValidationError(paths: set<string>) | DuplicateKey

  datatype AuthError = Unauthorized(message: string) | Database(cause: DbError)

  const DuplicateKeyCode: int := 11000
  const MissingSubjectMessage := "Keycloak payload missing subject ID."
  const DuplicateUserMessage :=
    "A local user with this email or username already exists. Please contact support."

  /** The `code` property of a thrown database error. */
  function ErrorCode(e: DbError): Option<int> {
    if e.DuplicateKey? then Some(DuplicateKeyCode) else None
  }

  /** The table invariant: each record sits under its own `keycloakId`, meets
      the schema, and no two records share a `userName` or an `email`. */
  ghost predicate Consistent(users: Users) {
    && (forall k :: k in users ==> users[k].keycloakId == k && WellFormed(users[k]))
    && (forall k, k' :: k in users && k' in users && k != k' ==>
          users[k].userName != users[k'].userName && users[k].email != users[k'].email)
  }

  /** Would storing `u` violate a unique index? A new record clashes with any
      record; an updated one only with the records of other users. */
  predicate Clashes(users: Users, u: User, isNew: bool) {
    (isNew && u.keycloakId in users)
    || exists k :: k in users && k != u.keycloakId
                   && (users[k].userName == u.userName || users[k].email == u.email)
  }

  /** `document.save()`: validation first, then the unique indexes; on success
      the record is written under its `keycloakId`. */
  function Save(users: Users, d: UserDoc, cutoff: int, isNew: bool): (r: Result<(User, Users), DbError>)
    ensures r.Success? ==> ToDoc(r.value.0) == d && r.value.1 == users[r.value.0.keycloakId := r.value.0]
    ensures r.Failure? <==> InvalidPaths(d, cutoff) != {} || Clashes(users, Validate(d, cutoff).value, isNew)
    ensures r.Failure? ==>
      r.error == (if InvalidPaths(d, cutoff) != {} then ValidationError(InvalidPaths(d, cutoff)) else DuplicateKey)
  {
    match Validate(d, cutoff)
    case Failure(paths) => Failure(ValidationError(paths))
    case Success(u) =>
      if Clashes(users, u, isNew) then Failure(DuplicateKey)
      else Success((u, users[u.keycloakId := u]))
  }

  /** The document built for an unknown subject. */
  function CreationDoc(p: Payload): UserDoc {
    UserDoc(
      keycloakId := p.sub,
      firstName := Some(OrDefault(p.givenName, "N/A")),
      lastName := Some(OrDefault(p.familyName, "N/A")),
      age := None,
      dateOfBirth := None,
      userName := Or(p.preferredUsername, p.email),
      email := SetEmail(p.email))
  }

  /** The stored document after the three assignments of the update branch. */
  function UpdatedDoc(u: User, p: Payload): UserDoc {
    ToDoc(u).(firstName := p.givenName, lastName := p.familyName, email := SetEmail(p.email))
  }

  datatype Reconciled = Reconciled(result: Result<User, AuthError>, users: Users)

  /** What one call of `findOrCreateUserFromKeycloak` returns or throws, and the
      table afterwards. `cutoff` is today minus 18 years, for the schema. */
  function FindOrCreate(users: Users, p: Payload, cutoff: int): Reconciled {
    if !Truthy(p.sub) then
      Reconciled(Failure(Unauthorized(MissingSubjectMessage)), users)
    else if p.sub.value !in users then
      match Save(users, CreationDoc(p), cutoff, true)
      case Success((u, users')) => Reconciled(Success(u), users')
      case Failure(e) =>
        if ErrorCode(e) == Some(DuplicateKeyCode) then
          Reconciled(Failure(Unauthorized(DuplicateUserMessage)), users)
        else
          Reconciled(Failure(Database(e)), users)
    else
      match Save(users, UpdatedDoc(users[p.sub.value], p), cutoff, false)
      case Success((u, users')) => Reconciled(Success(u), users')
      case Failure(e) => Reconciled(Failure(Database(e)), users)
  }

  /** A payload without a (truthy) `sub` is refused and the table is untouched. */
  lemma MissingSubjectRejected(users: Users, p: Payload, cutoff: int)
    requires !Truthy(p.sub)
    ensures FindOrCreate(users, p, cutoff) == Reconciled(Failure(Unauthorized(MissingSubjectMessage)), users)
  {
  }

  /** A new subject gets exactly one new record, with the defaulting rules:
      'N/A' for falsy names, `preferred_username || email` as user name and
      the lower-cased payload email. */
  lemma CreationAddsOneRecord(users: Users, p: Payload, cutoff: int)
    requires Truthy(p.sub) && p.sub.value !in users
    requires FindOrCreate(users, p, cutoff).result.Success?
    ensures var out := FindOrCreate(users, p, cutoff);
      var u := out.result.value;
      && out.users == users[p.sub.value := u]
      && |out.users| == |users| + 1
      && u.keycloakId == p.sub.value
      && u.firstName == (if Truthy(p.givenName) then p.givenName.value else "N/A")
      && u.lastName == (if Truthy(p.familyName) then p.familyName.value else "N/A")
      && Some(u.userName) == (if Truthy(p.preferredUsername) then p.preferredUsername else p.email)
      && Some(u.email) == SetEmail(p.email)
      && u.age.None? && u.dateOfBirth.None?
  {
    var d := CreationDoc(p);
    var s := Save(users, d, cutoff, true);
    assert s.Success?;
    var u := s.value.0;
    assert ToDoc(u) == d;
    assert u.keycloakId == p.sub.value;
    assert FindOrCreate(users, p, cutoff) == Reconciled(Success(u), users[p.sub.value := u]);
    assert (users[p.sub.value := u]).Keys == users.Keys + {p.sub.value};
  }

  /** On creation, a unique-index violation becomes Unauthorized and leaves no
      record behind; a validation error is rethrown unchanged. */
  lemma CreationFailures(users: Users, p: Payload, cutoff: int)
    requires Truthy(p.sub) && p.sub.value !in users
    ensures var out := FindOrCreate(users, p, cutoff);
      var paths := InvalidPaths(CreationDoc(p), cutoff);
      && (paths != {} ==> out == Reconciled(Failure(Database(ValidationError(paths))), users))
      && ((paths == {} && Clashes(users, Validate(CreationDoc(p), cutoff).value, true))
          ==> out == Reconciled(Failure(Unauthorized(DuplicateUserMessage)), users))
      && (out.result.Failure? ==> out.users == users)
  {
  }

  /** An existing record has first name, last name and email overwritten by the
      payload, with no fallback; its id, user name, age and birth date stay. */
  lemma UpdateOverwritesNames(users: Users, p: Payload, cutoff: int)
    requires Truthy(p.sub) && p.sub.value in users
    requires FindOrCreate(users, p, cutoff).result.Success?
    ensures var out := FindOrCreate(users, p, cutoff);
      var u := out.result.value;
      var old_ := users[p.sub.value];
      && out.users == users[p.sub.value := u]
      && out.users.Keys == users.Keys
      && Some(u.firstName) == p.givenName && Some(u.lastName) == p.familyName
      && Some(u.email) == SetEmail(p.email)
      && u.keycloakId == old_.keycloakId && u.userName == old_.userName
      && u.age == old_.age && u.dateOfBirth == old_.dateOfBirth
  {
  }

  /** A blank or missing `given_name` or `family_name` on an existing record
      fails the save with a validation error on `firstName` or `lastName`,
      which is thrown as it is; nothing changes. */
  lemma UpdateWithBlankNameFails(users: Users, p: Payload, cutoff: int)
    requires Truthy(p.sub) && p.sub.value in users
    requires !Truthy(p.givenName) || !Truthy(p.familyName)
    ensures var out := FindOrCreate(users, p, cutoff);
      && out.users == users
      && out.result.Failure? && out.result.error.Database?
      && out.result.error.cause.ValidationError?
      && (!Truthy(p.givenName) ==> "firstName" in out.result.error.cause.paths)
      && (!Truthy(p.familyName) ==> "lastName" in out.result.error.cause.paths)
  {
    var d := UpdatedDoc(users[p.sub.value], p);
    assert !Truthy(p.givenName) ==> "firstName" in InvalidPaths(d, cutoff);
    assert !Truthy(p.familyName) ==> "lastName" in InvalidPaths(d, cutoff);
  }

  /** Records of other subjects are never touched, and at most the subject's own
      key is added. */
  lemma OtherRecordsUnchanged(users: Users, p: Payload, cutoff: int)
    ensures var out := FindOrCreate(users, p, cutoff);
      && (forall k :: k in users && (p.sub.None? || k != p.sub.value)
            ==> k in out.users && out.users[k] == users[k])
      && (out.users.Keys == users.Keys
          || (p.sub.Some? && out.users.Keys == users.Keys + {p.sub.value}))
  {
  }

  /** On success the table holds exactly one record for the subject: the one returned. */
  lemma OneRecordPerSubject(users: Users, p: Payload, cutoff: int)
    requires Consistent(users)
    requires FindOrCreate(users, p, cutoff).result.Success?
    ensures var out := FindOrCreate(users, p, cutoff);
      && Truthy(p.sub)
      && p.sub.value in out.users
      && out.users[p.sub.value] == out.result.value
      && (forall k :: k in out.users && out.users[k].keycloakId == p.sub.value ==> k == p.sub.value)
  {
    var out := FindOrCreate(users, p, cutoff);
    var u := out.result.value;
    assert u.keycloakId == p.sub.value;
  }

  /** A call keeps the table consistent. */
  lemma PreservesConsistency(users: Users, p: Payload, cutoff: int)
    requires Consistent(users)
    ensures Consistent(FindOrCreate(users, p, cutoff).users)
  {
    var out := FindOrCreate(users, p, cutoff);
    if out.result.Success? {
      var u := out.result.value;
      var d := if p.sub.value !in users then CreationDoc(p) else UpdatedDoc(users[p.sub.value], p);
      var isNew := p.sub.value !in users;
      assert Save(users, d, cutoff, isNew) == Success((u, out.users));
      SetEmailIdempotent(p.email);
      assert d.email == SetEmail(d.email);
      assert WellFormed(u);
      assert !Clashes(users, u, isNew);
      forall k, k' | k in out.users && k' in out.users && k != k'
        ensures out.users[k].userName != out.users[k'].userName
        ensures out.users[k].email != out.users[k'].email
      {
        if k == u.keycloakId {
          assert k' in users && out.users[k'] == users[k'];
        } else if k' == u.keycloakId {
          assert k in users && out.users[k] == users[k];
        }
      }
    }
  }

  /** Repeating a successful call with the same payload adds no record. When the
      payload carries both names it returns the same user and changes nothing. */
  lemma RepeatAddsNoRecord(users: Users, p: Payload, cutoff: int)
    requires FindOrCreate(users, p, cutoff).result.Success?
    ensures var first := FindOrCreate(users, p, cutoff);
      var second := FindOrCreate(first.users, p, cutoff);
      && second.users.Keys == first.users.Keys
      && (Truthy(p.givenName) && Truthy(p.familyName) ==> second == first)
  {
    var first := FindOrCreate(users, p, cutoff);
    var u := first.result.value;
    var id := p.sub.value;
    assert id in first.users && first.users[id] == u;
    if Truthy(p.givenName) && Truthy(p.familyName) {
      SetEmailIdempotent(p.email);
      assert UpdatedDoc(u, p) == ToDoc(u);
      var v := Validate(ToDoc(u), cutoff);
      assert v == Validate(UpdatedDoc(u, p), cutoff);
      assert v.Success? && v.value == u;
      assert first.users[id := u] == first.users;
    }
  }

  /** The update branch has no 'N/A' fallback: a profile first created from a
      payload without `given_name` cannot be reconciled again from that payload. */
  lemma RepeatWithoutGivenNameFails(users: Users, p: Payload, cutoff: int)
    requires Truthy(p.sub) && p.sub.value !in users && !Truthy(p.givenName)
    requires FindOrCreate(users, p, cutoff).result.Success?
    ensures var first := FindOrCreate(users, p, cutoff);
      var second := FindOrCreate(first.users, p, cutoff);
      && first.users[p.sub.value].firstName == "N/A"
      && second.users == first.users
      && second.result.Failure? && second.result.error.Database?
  {
    var first := FindOrCreate(users, p, cutoff);
    CreationAddsOneRecord(users, p, cutoff);
    UpdateWithBlankNameFails(first.users, p, cutoff);
  }

  /** The service object; `users` is the collection behind the `User` model. */
  class AuthService {
    var users: Users

    ghost predicate Valid()
      reads this
    {
      Consistent(users)
    }

    constructor (initial: Users)
      requires Consistent(initial)
      ensures Valid() && users == initial
    {
      users := initial;
    }

    /** `findOrCreateUserFromKeycloak`: look the subject up, then either create
        the record (catching duplicate keys) or overwrite its names and email. */
    method FindOrCreateUserFromKeycloak(p: Payload, cutoff: int) returns (r: Result<User, AuthError>)
      requires Valid()
      modifies this
      ensures Valid()
      ensures r == FindOrCreate(old(users), p, cutoff).result
      ensures users == FindOrCreate(old(users), p, cutoff).users
    {
      PreservesConsistency(users, p, cutoff);
      if !Truthy(p.sub) {
        return Failure(Unauthorized(MissingSubjectMessage));
      }
      var keycloakId := p.sub.value;
      var found := GetUserProfile(keycloakId);
      if found.None? {
        var saved := Save(users, CreationDoc(p), cutoff, true);
        if saved.Failure? {
          if ErrorCode(saved.error) == Some(DuplicateKeyCode) {
            return Failure(Unauthorized(DuplicateUserMessage));
          }
          return Failure(Database(saved.error));
        }
        users := saved.value.1;
        r := Success(saved.value.0);
      } else {
        var doc := ToDoc(found.value);
        doc := doc.(firstName := p.givenName);
        doc := doc.(lastName := p.familyName);
        doc := doc.(email := SetEmail(p.email));
        var saved := Save(users, doc, cutoff, false);
        if saved.Failure? {
          return Failure(Database(saved.error));
        }
        users := saved.value.1;
        r := Success(saved.value.0);
      }
    }

    /** `getUserProfile`: the record with that `keycloakId`, or null. */
    method GetUserProfile(keycloakId: string) returns (r: Option<User>)
      ensures r.Some? <==> keycloakId in users
      ensures r.Some? ==> r.value == users[keycloakId]
    {
      if keycloakId in users {
        r := Some(users[keycloakId]);
      } else {
        r := None;
      }
    }
  }
}
