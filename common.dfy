/** Values shared by every part of the model: optional values, JSON object
    members as a schema validator sees them, and JavaScript truthiness of
    the strings the handlers test with `if (x)`. */
module Common {

  type Id = string

  datatype Option<T> = None | Some(value: T)

  /** A member of a parsed JSON object: missing, explicitly `null`, or given. */
  datatype Field<T> = Absent | Null | Given(value: T)

  /** A browser `File` sent as a multipart part: its name and MIME type (its
      bytes are not modelled). */
  datatype FormFile = FormFile(name: string, mimeType: string)

  /** `if (s)` on a string: every string except the empty one is truthy. */
  predicate TruthyString(s: string) {
    s != ""
  }

  /** `x || null` / `if (x)` on a nullable string: a present, non-empty value. */
  function Truthy(x: Option<string>): (r: Option<string>)
    ensures r.Some? <==> x.Some? && x.value != ""
    ensures r.Some? ==> r == x
  {
    if x.Some? && TruthyString(x.value) then x else None
  }

  /** The same test on a JSON member: `undefined` and `null` are both falsy. */
  function TruthyField(f: Field<string>): (r: Option<string>)
    ensures r.Some? <==> f.Given? && f.value != ""
    ensures r.Some? ==> r.value == f.value
  {
    if f.Given? && TruthyString(f.value) then Some(f.value) else None
  }

  /** The session callback exposes `session.user.id`; the handlers test it with
      `if (!session?.user?.id)`, so an empty id counts as no session. */
  function Principal(session: Option<Id>): (r: Option<Id>)
    ensures r.Some? ==> r.value != "" && session == r
    ensures r.None? ==> session.None? || session.value == ""
  {
    Truthy(session)
  }
}
