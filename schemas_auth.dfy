/** The sign-in and registration payloads. */
module AuthSchemas {
  import opened Common
  import opened Strings
  import opened GeneralSchemas

  /** `loginSchema`. */
  datatype LoginInput = LoginInput(email: Field<string>, password: Field<string>)

  datatype Credentials = Credentials(email: string, password: string)

  function ParseLogin(fmt: Formats, x: LoginInput): (r: Option<Credentials>)
    ensures r.Some? <==> ParseEmail(fmt, x.email).Some? && RequiredString(x.password, 8, None)
    ensures r.Some? ==> r.value.email == Lower(x.email.value) && IsLower(r.value.email)
    ensures r.Some? ==> r.value.password == x.password.value && JsLength(r.value.password) >= 8
  {
    var email := ParseEmail(fmt, x.email);
    if email.Some? && RequiredString(x.password, 8, None)
    then Some(Credentials(email.value, x.password.value))
    else None
  }

  /** `registerSchema`; `confirmPassword` is not one of its members, so a
      confirmation sent by the form is stripped and never compared. */
  datatype RegisterInput = RegisterInput(
    email: Field<string>, name: Field<string>, password: Field<string>, confirmPassword: Field<string>)

  datatype Registration = Registration(email: string, name: string, password: string)

  function ParseRegister(fmt: Formats, x: RegisterInput): (r: Option<Registration>)
    ensures r.Some? <==> ParseEmail(fmt, x.email).Some? && RequiredString(x.name, 1, None) && RequiredString(x.password, 8, None)
    ensures r.Some? ==> r.value.email == Lower(x.email.value) && IsLower(r.value.email)
    ensures r.Some? ==> r.value.name == x.name.value && JsLength(r.value.name) >= 1
    ensures r.Some? ==> r.value.password == x.password.value && JsLength(r.value.password) >= 8
  {
    var email := ParseEmail(fmt, x.email);
    if email.Some? && RequiredString(x.name, 1, None) && RequiredString(x.password, 8, None)
    then Some(Registration(email.value, x.name.value, x.password.value))
    else None
  }

  /** The confirmation never matters: a mismatched one is accepted as well as
      a matching one or none. */
  lemma RegisterIgnoresConfirmation(fmt: Formats, x: RegisterInput, c: Field<string>)
    ensures ParseRegister(fmt, x.(confirmPassword := c)) == ParseRegister(fmt, x)
  {
  }

  /** Registration and sign-in apply the same e-mail rule, so an address that
      registers is one that signs in (given a long enough password). */
  lemma LoginAcceptsRegisteredEmail(fmt: Formats, x: RegisterInput)
    requires ParseRegister(fmt, x).Some?
    ensures ParseLogin(fmt, LoginInput(x.email, x.password)).Some?
    ensures ParseLogin(fmt, LoginInput(x.email, x.password)).value.email == ParseRegister(fmt, x).value.email
  {
  }
}
