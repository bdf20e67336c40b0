/** The auth service's request bodies, `RegisterDto` and `LoginDto`, with the
    checks their class-validator decorators declare. Nothing installs a
    validation pipe, so these predicates describe what is declared, not what
    is enforced. */
module AuthDtos {
  import opened Js
  import opened ClassValidator

  datatype RegisterDto = RegisterDto(
    userName: JsValue,
    password: JsValue,
    email: JsValue,
    firstName: JsValue,
    lastName: JsValue)

  /** All decorators of `RegisterDto`; `isEmail` stands for the `@IsEmail()` format check. */
  predicate ValidRegisterDto(d: RegisterDto, isEmail: string -> bool) {
    && IsString(d.userName) && IsNotEmpty(d.userName) && MinLength(d.userName, 3)
    && IsString(d.password) && IsNotEmpty(d.password) && MinLength(d.password, 6)
    && IsString(d.email) && IsNotEmpty(d.email) && d.email.Str? && isEmail(d.email.text)
    && IsString(d.firstName)
    && IsString(d.lastName)
  }

  datatype LoginDto = LoginDto(username: JsValue, password: JsValue)

  predicate ValidLoginDto(d: LoginDto) {
    && IsString(d.username) && IsNotEmpty(d.username)
    && IsString(d.password) && IsNotEmpty(d.password) && MinLength(d.password, 6)
  }

  /** What a valid registration body amounts to, field by field. */
  lemma RegisterDtoFields(d: RegisterDto, isEmail: string -> bool)
    ensures ValidRegisterDto(d, isEmail) <==>
      && d.userName.Str? && |d.userName.text| >= 3
      && d.password.Str? && |d.password.text| >= 6
      && d.email.Str? && d.email.text != "" && isEmail(d.email.text)
      && d.firstName.Str? && d.lastName.Str?
  {
  }

  /** First and last name may be empty strings. */
  lemma RegisterNamesMayBeEmpty(isEmail: string -> bool)
    requires isEmail("a@b.c")
    ensures ValidRegisterDto(RegisterDto(Str("ann"), Str("secret"), Str("a@b.c"), Str(""), Str("")), isEmail)
  {
  }

  /** What a valid login body amounts to: a non-empty user name of any length
      and a password of at least six characters. */
  lemma LoginDtoFields(d: LoginDto)
    ensures ValidLoginDto(d) <==>
      d.username.Str? && d.username.text != "" && d.password.Str? && |d.password.text| >= 6
  {
  }

  /** `@MinLength(6)` already excludes every value `@IsNotEmpty()` rejects. */
  lemma MinLengthSubsumesNotEmpty(v: JsValue)
    ensures MinLength(v, 6) ==> IsNotEmpty(v) && IsString(v)
  {
  }

  /** A one-character user name is accepted at login. */
  lemma LoginUsernameHasNoMinimum()
    ensures ValidLoginDto(LoginDto(Str("a"), Str("secret")))
  {
  }
}
