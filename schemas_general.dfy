/** The shared building blocks of the request schemas: identifiers, e-mail
    addresses, dates, positive integers and pagination. */
module GeneralSchemas {
  import opened Common
  import opened Strings

  /** The string formats the schema library decides by its own grammars
      (collision-resistant ids, e-mail addresses, URLs, date coercion). The
      model keeps them opaque: every schema takes them as a parameter, so what
      is proved here holds whatever those grammars are. */
  datatype Formats = Formats(
    isCuid: string -> bool,
    isEmail: string -> bool,
    isUrl: string -> bool,
    isDate: string -> bool)

  /** The e-mail grammar ignores the case of letters, as the library's
      case-insensitive pattern does. */
  ghost predicate CaseBlindEmail(fmt: Formats) {
    forall s :: fmt.isEmail(Lower(s)) == fmt.isEmail(s)
  }

  // Member shapes the schemas combine.

  predicate RequiredCuid(fmt: Formats, f: Field<string>) {
    f.Given? && fmt.isCuid(f.value)
  }

  /** `cuidSchema.optional()`: absent, or an id; `null` is refused. */
  predicate OptionalCuid(fmt: Formats, f: Field<string>) {
    f.Absent? || RequiredCuid(fmt, f)
  }

  /** `cuidSchema.nullable().optional()`: absent, `null`, or an id. */
  predicate NullableCuid(fmt: Formats, f: Field<string>) {
    f.Absent? || f.Null? || RequiredCuid(fmt, f)
  }

  /** `z.string().min(min)`, and `.max(max)` when one is given. */
  predicate RequiredString(f: Field<string>, min: nat, max: Option<nat>) {
    f.Given? && min <= JsLength(f.value) && (max.Some? ==> JsLength(f.value) <= max.value)
  }

  /** `z.string().min(min).optional()`. */
  predicate OptionalString(f: Field<string>, min: nat) {
    f.Absent? || RequiredString(f, min, None)
  }

  /** `z.string().url().nullable().optional()`. */
  predicate NullableUrl(fmt: Formats, f: Field<string>) {
    f.Absent? || f.Null? || fmt.isUrl(f.value)
  }

  /** `z.coerce.date()`: the value goes through `new Date(...)` first, so a
      `null` becomes the epoch and is accepted, while a missing value becomes
      an invalid date and is refused. */
  predicate RequiredDate(fmt: Formats, f: Field<string>) {
    f.Null? || (f.Given? && fmt.isDate(f.value))
  }

  /** `datetimeSchema.optional()` (and `.nullable().optional()`). */
  predicate OptionalDate(fmt: Formats, f: Field<string>) {
    f.Absent? || RequiredDate(fmt, f)
  }

  /** `emailSchema = z.string().email().toLowerCase()`: the address is checked
      as given, then lower-cased. */
  function ParseEmail(fmt: Formats, f: Field<string>): (r: Option<string>)
    ensures r.Some? <==> f.Given? && fmt.isEmail(f.value)
    ensures r.Some? ==> IsLower(r.value) && r.value == Lower(f.value)
  {
    if f.Given? && fmt.isEmail(f.value) then Some(Lower(f.value)) else None
  }

  /** Parsing an address the schema produced gives it back unchanged, and two
      inputs that differ only in letter case parse to the same address. */
  lemma EmailNormalForm(fmt: Formats, s: string, s': string)
    requires CaseBlindEmail(fmt)
    requires ParseEmail(fmt, Given(s)).Some?
    ensures ParseEmail(fmt, Given(ParseEmail(fmt, Given(s)).value)) == ParseEmail(fmt, Given(s))
    ensures Lower(s') == Lower(s) ==> ParseEmail(fmt, Given(s')) == ParseEmail(fmt, Given(s))
  {
    assert fmt.isEmail(Lower(s)) == fmt.isEmail(s);
    assert fmt.isEmail(Lower(s')) == fmt.isEmail(s');
    LowerIdempotent(s);
  }

  /** `z.number().int().positive()` on a JSON number. */
  predicate PositiveInt(x: real) {
    x == x.Floor as real && x > 0.0
  }

  /** The accepted numbers are exactly the whole numbers from 1 upwards. */
  lemma PositiveIntExactly(x: real, n: int)
    ensures PositiveInt(x) ==> x >= 1.0 && x.Floor >= 1
    ensures PositiveInt(n as real) <==> n >= 1
    ensures x != x.Floor as real ==> !PositiveInt(x)
  {
  }

  datatype Pagination = Pagination(page: int, limit: int)

  /** `page`: a positive integer, 1 when absent. */
  predicate PageOk(f: Field<real>) {
    f.Absent? || (f.Given? && PositiveInt(f.value))
  }

  /** `limit`: a positive integer no greater than 100, 10 when absent. */
  predicate LimitOk(f: Field<real>) {
    f.Absent? || (f.Given? && PositiveInt(f.value) && f.value <= 100.0)
  }

  function ParsePagination(page: Field<real>, limit: Field<real>): (r: Option<Pagination>)
    ensures r.Some? <==> PageOk(page) && LimitOk(limit)
    ensures r.Some? ==> r.value.page >= 1 && 1 <= r.value.limit <= 100
    ensures r.Some? && page.Absent? ==> r.value.page == 1
    ensures r.Some? && limit.Absent? ==> r.value.limit == 10
    ensures r.Some? && page.Given? ==> r.value.page as real == page.value
    ensures r.Some? && limit.Given? ==> r.value.limit as real == limit.value
  {
    if PageOk(page) && LimitOk(limit) then
      Some(Pagination(
        if page.Given? then page.value.Floor else 1,
        if limit.Given? then limit.value.Floor else 10))
    else None
  }

  /** The defaults satisfy the constraints they stand in for: leaving both
      members out is the same as sending page 1 and limit 10. */
  lemma PaginationDefaults()
    ensures ParsePagination(Absent, Absent) == Some(Pagination(1, 10))
    ensures ParsePagination(Given(1.0), Given(10.0)) == ParsePagination(Absent, Absent)
    ensures ParsePagination(Null, Absent).None? && ParsePagination(Absent, Given(101.0)).None?
  {
  }
}
