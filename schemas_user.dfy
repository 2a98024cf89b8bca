/** The user, account, session and verification-token schemas. */
module UserSchemas {
  import opened Common
  import opened Strings
  import opened GeneralSchemas
  import AuthSchemas

  /** `UserSchema`; the password-hash member is spelled `passowrdHash` in
      the source, so a payload carrying `passwordHash` leaves it absent. */
  datatype UserInput = UserInput(
    id: Field<string>, email: Field<string>, name: Field<string>, passowrdHash: Field<string>,
    createdAt: Field<string>, updatedAt: Field<string>, emailVerified: Field<string>, image: Field<string>)

  predicate ValidUser(fmt: Formats, x: UserInput) {
    && OptionalCuid(fmt, x.id)
    && ParseEmail(fmt, x.email).Some?
    && OptionalString(x.name, 8)
    && OptionalString(x.passowrdHash, 8)
    && OptionalDate(fmt, x.createdAt) && OptionalDate(fmt, x.updatedAt)
    && OptionalDate(fmt, x.emailVerified)
    && NullableUrl(fmt, x.image)
  }

  /** A name or hash, when given, has at least eight characters. */
  lemma ValidUserBounds(fmt: Formats, x: UserInput)
    requires ValidUser(fmt, x)
    ensures x.name.Given? ==> JsLength(x.name.value) >= 8
    ensures x.passowrdHash.Given? ==> JsLength(x.passowrdHash.value) >= 8
    ensures !x.name.Null? && !x.passowrdHash.Null?
  {
  }

  /** A name registration accepts can be one `UserSchema` refuses: the two
      schemas disagree on names of one to seven characters. */
  lemma RegisterNameTooShortForUser(fmt: Formats, r: AuthSchemas.RegisterInput, u: UserInput)
    requires AuthSchemas.ParseRegister(fmt, r).Some? && JsLength(r.name.value) < 8
    ensures !ValidUser(fmt, u.(name := r.name))
  {
  }

  /** `CreateUserSchema`: `name`, `email` and `passowrdHash` picked. */
  datatype CreateUserInput = CreateUserInput(name: Field<string>, email: Field<string>, passowrdHash: Field<string>)

  predicate ValidCreateUser(fmt: Formats, x: CreateUserInput) {
    ParseEmail(fmt, x.email).Some? && OptionalString(x.name, 8) && OptionalString(x.passowrdHash, 8)
  }

  /** Only the e-mail is required, and the picked members keep the user
      schema's rules. */
  lemma CreateUserOnlyEmailRequired(fmt: Formats, x: CreateUserInput)
    ensures ValidCreateUser(fmt, x) ==> ParseEmail(fmt, x.email).Some?
    ensures ParseEmail(fmt, x.email).Some? ==> ValidCreateUser(fmt, CreateUserInput(Absent, x.email, Absent))
    ensures ValidCreateUser(fmt, x) <==> ValidUser(fmt, UserInput(Absent, x.email, x.name, x.passowrdHash, Absent, Absent, Absent, Absent))
  {
  }

  /** `UpdateUserSchema = UserSchema.partial().omit({id})`: every member is
      optional and an `id` is not part of the payload (the schema strips it). */
  predicate ValidUpdateUser(fmt: Formats, x: UserInput) {
    && (x.email.Absent? || ParseEmail(fmt, x.email).Some?)
    && OptionalString(x.name, 8)
    && OptionalString(x.passowrdHash, 8)
    && OptionalDate(fmt, x.createdAt) && OptionalDate(fmt, x.updatedAt)
    && OptionalDate(fmt, x.emailVerified)
    && NullableUrl(fmt, x.image)
  }

  lemma UpdateUserPartialWithoutId(fmt: Formats, x: UserInput, id: Field<string>)
    ensures ValidUpdateUser(fmt, UserInput(Absent, Absent, Absent, Absent, Absent, Absent, Absent, Absent))
    ensures ValidUpdateUser(fmt, x.(id := id)) == ValidUpdateUser(fmt, x)
    ensures ValidUser(fmt, x) ==> ValidUpdateUser(fmt, x)
  {
  }

  /** `accountSchema`. */
  datatype AccountInput = AccountInput(
    id: Field<string>, userId: Field<string>, accountType: Field<string>, provider: Field<string>,
    providerAccountId: Field<string>, refreshToken: Field<string>, accessToken: Field<string>,
    expiresAt: Field<real>, tokenType: Field<string>, scope: Field<string>,
    idToken: Field<string>, sessionState: Field<string>)

  predicate OptionalText(f: Field<string>) {
    !f.Null?
  }

  predicate ValidAccount(fmt: Formats, x: AccountInput) {
    && OptionalCuid(fmt, x.id)
    && RequiredCuid(fmt, x.userId)
    && RequiredString(x.accountType, 1, None)
    && RequiredString(x.provider, 1, None)
    && RequiredString(x.providerAccountId, 1, None)
    && OptionalText(x.refreshToken) && OptionalText(x.accessToken)
    && (x.expiresAt.Absent? || (x.expiresAt.Given? && x.expiresAt.value == x.expiresAt.value.Floor as real))
    && OptionalText(x.tokenType) && OptionalText(x.scope)
    && OptionalText(x.idToken) && OptionalText(x.sessionState)
  }

  /** An account names its type, provider and provider account, and an
      expiry, when present, is a whole number (of either sign). */
  lemma ValidAccountShape(fmt: Formats, x: AccountInput)
    requires ValidAccount(fmt, x)
    ensures JsLength(x.accountType.value) >= 1 && JsLength(x.provider.value) >= 1 && JsLength(x.providerAccountId.value) >= 1
    ensures x.expiresAt.Given? ==> x.expiresAt.value == x.expiresAt.value.Floor as real
    ensures ValidAccount(fmt, x.(expiresAt := Given(-5.0)))
    ensures !ValidAccount(fmt, x.(expiresAt := Given(0.5)))
  {
  }

  /** `sessionSchema`. */
  datatype SessionInput = SessionInput(id: Field<string>, sessionToken: Field<string>, userId: Field<string>, expires: Field<string>)

  predicate ValidSession(fmt: Formats, x: SessionInput) {
    OptionalCuid(fmt, x.id) && RequiredString(x.sessionToken, 1, None) && RequiredCuid(fmt, x.userId) && RequiredDate(fmt, x.expires)
  }

  /** `verificationTokenSchema`. */
  datatype VerificationTokenInput = VerificationTokenInput(identifier: Field<string>, token: Field<string>, expires: Field<string>)

  predicate ValidVerificationToken(fmt: Formats, x: VerificationTokenInput) {
    RequiredString(x.identifier, 1, None) && RequiredString(x.token, 1, None) && RequiredDate(fmt, x.expires)
  }

  /** Sessions need a non-empty token and verification tokens a non-empty
      identifier and token; a missing expiry is refused while a `null` one
      passes (it coerces to the epoch). */
  lemma TokenSchemasShape(fmt: Formats, s: SessionInput, v: VerificationTokenInput)
    ensures ValidSession(fmt, s) ==> JsLength(s.sessionToken.value) >= 1
    ensures ValidVerificationToken(fmt, v) ==> JsLength(v.identifier.value) >= 1 && JsLength(v.token.value) >= 1
    ensures !ValidSession(fmt, s.(expires := Absent)) && !ValidVerificationToken(fmt, v.(expires := Absent))
    ensures ValidVerificationToken(fmt, v) ==> ValidVerificationToken(fmt, v.(expires := Null))
  {
  }
}
