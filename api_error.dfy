/** The error class the route handlers throw, the table of shared error
    entries, and the JSON envelope every handler answers with. */
module ApiErrors {
  import opened Common

  /** `ApiError(message, statusCode = 400, code?)`: a message, an HTTP status
      and an optional machine-readable code. */
  datatype ApiError = ApiError(message: string, statusCode: int, code: Option<string>)

  /** The constructor: a `statusCode` left out (`undefined`) becomes 400; the
      code stays absent unless one is passed. */
  function NewApiError(message: string, statusCode: Option<int>, code: Option<string>): (e: ApiError)
    ensures e.message == message && e.code == code
    ensures statusCode.None? ==> e.statusCode == 400
    ensures statusCode.Some? ==> e.statusCode == statusCode.value
  {
    ApiError(message, if statusCode.Some? then statusCode.value else 400, code)
  }

  /** The keys of the `API_ERRORS` table. */
  datatype ErrorKind = Unauthorized | Forbidden | NotFound | ValidationError | StorageError

  datatype ErrorEntry = ErrorEntry(code: string, message: string, statusCode: int)

  function Entry(k: ErrorKind): ErrorEntry {
    match k
    case Unauthorized => ErrorEntry("AUTH_001", "Unauthorized access", 401)
    case Forbidden => ErrorEntry("AUTH_002", "Forbidden access", 403)
    case NotFound => ErrorEntry("RESOURCE_001", "Resource not found", 404)
    case ValidationError => ErrorEntry("VALIDATION_001", "Validation error", 400)
    case StorageError => ErrorEntry("STORAGE_001", "Storage operation failed", 500)
  }

  /** `new ApiError(E.message, E.statusCode, E.code)` for a table entry E, the
      way every handler raises one. */
  function Raise(k: ErrorKind): (e: ApiError)
    ensures e.code == Some(Entry(k).code) && e.statusCode == Entry(k).statusCode
    ensures e.message == Entry(k).message
  {
    NewApiError(Entry(k).message, Some(Entry(k).statusCode), Some(Entry(k).code))
  }

  /** The table's statuses are the ones its names promise, every status is an
      HTTP error status, and no two entries share a code, so a code names its
      entry. */
  lemma EntryTable(k: ErrorKind, k': ErrorKind)
    ensures Entry(Unauthorized).statusCode == 401 && Entry(Forbidden).statusCode == 403
    ensures Entry(NotFound).statusCode == 404 && Entry(ValidationError).statusCode == 400
    ensures Entry(StorageError).statusCode == 500
    ensures 400 <= Entry(k).statusCode < 600
    ensures Entry(k).code == Entry(k').code ==> k == k'
  {
    assert Entry(k).code[..4] != Entry(k').code[..4] || Entry(k).code[5..] != Entry(k').code[5..] || k == k';
  }

  /** What a handler threw: an `ApiError`, or anything else (a validation
      failure from the schema layer, a database or parsing exception). */
  datatype Thrown = Raised(err: ApiError) | Unexpected

  /** The JSON envelope: `{success: true, data}` with a status,
      `{success: false, error, code}` with a status, or, when a handler
      falls off its end, no response at all. */
  datatype Response<T> =
    | Success(status: int, data: T)
    | Failure(status: int, error: string, code: Option<string>)
    | NoResponse

  /** The catch block shared by the folder, file-upload and registration
      handlers: an `ApiError` keeps its status, message and code; anything
      else becomes a code-less 500 with the handler's generic message. */
  function Catch<T>(t: Thrown, generic: string): (r: Response<T>)
    ensures r.Failure?
    ensures t.Raised? ==> r.status == t.err.statusCode && r.error == t.err.message && r.code == t.err.code
    ensures t.Unexpected? ==> r.status == 500 && r.error == generic && r.code.None?
  {
    match t
    case Raised(e) => Failure(e.statusCode, e.message, e.code)
    case Unexpected => Failure(500, generic, None)
  }
}
