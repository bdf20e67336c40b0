/** The Mongoose `User` schema of the auth service: required and unique paths,
    the lower-casing email setter, the email pattern and the two age rules. */
module UserSchema {
  import opened Js

  /** A user document before `save()`: any path may still be unset. Dates are
      milliseconds since the epoch. */
  datatype UserDoc = UserDoc(
    keycloakId: Option<string>,
    firstName: Option<string>,
    lastName: Option<string>,
    age: Option<int>,
    dateOfBirth: Option<int>,
    userName: Option<string>,
    email: Option<string>)

  /** A stored user: every required path is set. */
  datatype User = User(
    keycloakId: string,
    firstName: string,
    lastName: string,
    age: Option<int>,
    dateOfBirth: Option<int>,
    userName: string,
    email: string)

  function ToDoc(u: User): UserDoc {
    UserDoc(Some(u.keycloakId), Some(u.firstName), Some(u.lastName), u.age,
            u.dateOfBirth, Some(u.userName), Some(u.email))
  }

  /** The `lowercase: true` setter, applied whenever `email` is assigned. */
  function SetEmail(e: Option<string>): (r: Option<string>)
    ensures r.Some? <==> e.Some?
    ensures r.Some? ==> |r.value| == |e.value| && ToLower(r.value) == r.value
    ensures r.Some? ==> forall i :: 0 <= i < |r.value| ==> LowerChar(r.value[i]) == LowerChar(e.value[i])
  {
    match e
    case None => None
    case Some(s) =>
      var t := ToLower(s);
      assert ToLower(t) == t by {
        forall i | 0 <= i < |t| ensures ToLower(t)[i] == t[i] { }
      }
      Some(t)
  }

  predicate NoWhitespace(s: string) {
    forall k :: 0 <= k < |s| ==> !IsWhitespace(s[k])
  }

  /** `\S+`: a non-empty run of non-space characters. */
  predicate NonSpaceRun(s: string) {
    |s| > 0 && NoWhitespace(s)
  }

  /** The regular expression `^\S+@\S+\.\S+$` as it reads: the whole text is
      three non-space runs joined by an `@` and a `.`. */
  ghost predicate MatchesEmailRegex(s: string) {
    exists a: string, b: string, c: string
      :: NonSpaceRun(a) && NonSpaceRun(b) && NonSpaceRun(c) && s == a + "@" + b + "." + c
  }

  /** The same pattern by positions: no whitespace anywhere, an `@` after at
      least one character, and a later `.` with a character between and one after. */
  predicate IsEmailShaped(s: string) {
    NoWhitespace(s)
    && exists i, j :: 0 < i && i + 1 < j && j + 1 < |s| && s[i] == '@' && s[j] == '.'
  }

  lemma EmailShapeMatchesRegex(s: string)
    ensures IsEmailShaped(s) <==> MatchesEmailRegex(s)
  {
    if IsEmailShaped(s) {
      var i, j :| 0 < i && i + 1 < j && j + 1 < |s| && s[i] == '@' && s[j] == '.';
      var a, b, c := s[..i], s[i + 1..j], s[j + 1..];
      assert s == a + "@" + b + "." + c;
      assert NonSpaceRun(a) && NonSpaceRun(b) && NonSpaceRun(c);
    }
    if MatchesEmailRegex(s) {
      var a: string, b: string, c: string :|
        NonSpaceRun(a) && NonSpaceRun(b) && NonSpaceRun(c) && s == a + "@" + b + "." + c;
      var i, j := |a|, |a| + 1 + |b|;
      assert s[i] == '@' && s[j] == '.';
      forall k | 0 <= k < |s| ensures !IsWhitespace(s[k]) {
        if k < i { assert s[k] == a[k]; }
        else if i < k < j { assert s[k] == b[k - i - 1]; }
        else if j < k { assert s[k] == c[k - j - 1]; }
      }
    }
  }

  /** The schema's validators, path by path: `required` (which also refuses the
      empty string), `min: 18` on age, the date-of-birth rule against `cutoff`
      (today minus 18 years), and `match` on email. */
  function InvalidPaths(d: UserDoc, cutoff: int): set<string> {
    (if Truthy(d.keycloakId) then {} else {"keycloakId"})
    + (if Truthy(d.firstName) then {} else {"firstName"})
    + (if Truthy(d.lastName) then {} else {"lastName"})
    + (if d.age.Some? && d.age.value < 18 then {"age"} else {})
    + (if d.dateOfBirth.Some? && d.dateOfBirth.value > cutoff then {"dateOfBirth"} else {})
    + (if Truthy(d.userName) then {} else {"userName"})
    + (if Truthy(d.email) && IsEmailShaped(d.email.value) then {} else {"email"})
  }

  /** The conditions on a stored user that do not depend on the clock. */
  predicate WellFormed(u: User) {
    && u.keycloakId != ""
    && u.firstName != ""
    && u.lastName != ""
    && (u.age.Some? ==> u.age.value >= 18)
    && u.userName != ""
    && IsEmailShaped(u.email)
    && ToLower(u.email) == u.email
  }

  /** Runs the validators; on success yields the user the document describes. */
  function Validate(d: UserDoc, cutoff: int): (r: Result<User, set<string>>)
    ensures r.Failure? <==> InvalidPaths(d, cutoff) != {}
    ensures r.Failure? ==> r.error == InvalidPaths(d, cutoff)
    ensures r.Success? ==> ToDoc(r.value) == d
    ensures r.Success? ==> r.value.dateOfBirth.None? || r.value.dateOfBirth.value <= cutoff
    ensures r.Success? && d.email == SetEmail(d.email) ==> WellFormed(r.value)
  {
    var paths := InvalidPaths(d, cutoff);
    if paths != {} then Failure(paths)
    else
      assert "keycloakId" !in paths && "firstName" !in paths && "lastName" !in paths;
      assert "userName" !in paths && "email" !in paths && "age" !in paths && "dateOfBirth" !in paths;
      Success(User(d.keycloakId.value, d.firstName.value, d.lastName.value, d.age,
                   d.dateOfBirth, d.userName.value, d.email.value))
  }

  /** A valid email is stored lower-cased: assigning it again changes nothing. */
  lemma {:induction false} SetEmailIdempotent(e: Option<string>)
    ensures SetEmail(SetEmail(e)) == SetEmail(e)
  {
    if e.Some? {
      var t := SetEmail(e).value;
      assert ToLower(t) == t;
    }
  }

  /** An absent date of birth is accepted; a present one only up to the cutoff. */
  lemma DateOfBirthRule(d: UserDoc, cutoff: int)
    ensures "dateOfBirth" in InvalidPaths(d, cutoff)
        <==> d.dateOfBirth.Some? && d.dateOfBirth.value > cutoff
  {
  }

  /** Age is optional; when present it must be at least 18. */
  lemma AgeRule(d: UserDoc, cutoff: int)
    ensures "age" in InvalidPaths(d, cutoff) <==> d.age.Some? && d.age.value < 18
  {
  }
}
