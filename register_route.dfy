/** `POST /api/auth/register`: creating an account for an e-mail address no
    user has yet, storing only the hash of the password. */
module RegisterRoute {
  import opened Common
  import opened Strings
  import opened ApiErrors
  import opened GeneralSchemas
  import opened AuthSchemas
  import opened Store

  /** The message of the catch-all 500. */
  const GenericError := "Something went wrong"

  /** The members the handler selects from the new row: no hash. */
  datatype PublicUser = PublicUser(id: Id, name: string, email: string)

  predicate EmailTaken(users: seq<User>, email: string) {
    exists u :: u in users && u.email == email
  }

  /** `POST /api/auth/register`; `hash` is the password hashing function. */
  method Post(db: Db, fmt: Formats, body: RegisterInput, hash: string -> string) returns (r: Response<PublicUser>)
    requires db.Valid()
    modifies db
    ensures db.Valid()
    ensures db.folders == old(db.folders) && db.files == old(db.files) && db.blobs == old(db.blobs)
    ensures ParseRegister(fmt, body).None? ==> r == Failure(500, GenericError, None) && db.users == old(db.users)
    ensures var reg := ParseRegister(fmt, body);
      reg.Some? && EmailTaken(old(db.users), reg.value.email) ==>
      r == Failure(409, "User with this email already exists", Some("AUTH_001")) && db.users == old(db.users)
    ensures r.Success? <==>
      ParseRegister(fmt, body).Some? && !EmailTaken(old(db.users), ParseRegister(fmt, body).value.email)
    ensures r.Success? ==>
      var reg := ParseRegister(fmt, body).value;
      && r.status == 201
      && r.data == PublicUser(r.data.id, reg.name, reg.email)
      && (forall u :: u in old(db.users) ==> u.id != r.data.id)
      && db.users == old(db.users) + [User(r.data.id, Some(reg.name), reg.email, Some(hash(reg.password)))]
  {
    var reg := ParseRegister(fmt, body);
    if reg.None? {
      return Catch(Unexpected, GenericError);
    }
    if FindUserByEmail(db.users, reg.value.email).Some? {
      return Catch(Raised(ApiError("User with this email already exists", 409, Some("AUTH_001"))), GenericError);
    }
    var hashed := hash(reg.value.password);
    var id := db.NewId();
    var user := User(id, Some(reg.value.name), reg.value.email, Some(hashed));
    db.users := db.users + [user];
    r := Success(201, PublicUser(id, reg.value.name, reg.value.email));
  }

  /** Uniqueness is blind to case: once an address is registered, any
      spelling of it in other letter cases finds the stored row and is
      refused. */
  lemma CaseVariantTaken(fmt: Formats, users: seq<User>, a: RegisterInput, b: RegisterInput, id: Id, h: Option<string>)
    requires ParseRegister(fmt, a).Some? && ParseRegister(fmt, b).Some?
    requires Lower(a.email.value) == Lower(b.email.value)
    ensures EmailTaken(users + [User(id, Some(ParseRegister(fmt, a).value.name), ParseRegister(fmt, a).value.email, h)],
                       ParseRegister(fmt, b).value.email)
  {
    var u := User(id, Some(ParseRegister(fmt, a).value.name), ParseRegister(fmt, a).value.email, h);
    assert u in users + [u];
  }
}
