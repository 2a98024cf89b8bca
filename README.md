# File storage: request handlers, schemas and dashboard folder state

This project is a Dafny model of the core of a small file-storage web application. Signed-in users keep files in nested folders. File contents go to a blob store, and the rows describing users, folders and files go to a relational database. The model covers:

- **Request validation** (`GeneralSchemas`, `FolderSchemas`, `FileSchemas`, `AuthSchemas`, `UserSchemas`):
  - A JSON member is `Absent`, `Null` or `Given`.
  - The id, e-mail, URL and date grammars of the schema library are opaque predicates, passed in as `Formats`.
- **API errors** (`ApiErrors`):
  - the `ApiError` constructor;
  - the `API_ERRORS` table;
  - the catch block the handlers share, which maps what a handler threw to a JSON failure.
- **The database** (`Store`): a `Db` class whose fields are the tables. Its own methods are the constructor and `NewId`, which picks a fresh id. It holds:
  - users, folders and files as sequences of rows;
  - the set of pathnames the blob store holds;
  - an invariant: unique ids, unique e-mails, and folder and file parents owned by the same user.
- **The handlers**, as module-level methods that take a `db: Db` and update its tables in place (`modifies db`):
  - `POST`/`GET /api/folders` (`FoldersRoute`);
  - `POST`/`GET /api/files` (`FilesRoute`);
  - `PATCH /api/files/trash` (`TrashRoute`);
  - `POST /api/auth/register` (`RegisterRoute`).
- **The blob upload helper** (`StorageUpload`):
  - the blob path it builds;
  - the blob id it derives from the returned URL.
- **The dashboard page's folder state** (`Dashboard`):
  - the loop that walks parent links to build the breadcrumb path;
  - the breadcrumb items;
  - the navigation URL.
- **The display helpers** (`FileUtils`): size units, icon choice and previewability.
- **Shared helpers:**
  - strings (`Strings`);
  - filtering, insertion sort and lexicographic order (`Ordering`);
  - JavaScript truthiness (`Common`).

Things outside the model are parameters, so the proofs hold for every choice of them:

- the session (`Option<Id>`);
- the clock (`now: nat`);
- the environment name (`env`);
- the blob store's `put` (a function from path and file to a result);
- `JSON.parse` of the metadata part (`parse`);
- the password hash (`hash`);
- a failing database insert (`insertFails`).

## Model

| member | source | states |
|---|---|---|
| Common.Truthy | app/api/folders/route.ts:26 | a nullable string is truthy exactly when present and non-empty, and then it is the value itself |
| Common.TruthyField | app/api/files/route.ts:35-36 | a JSON member is truthy exactly when given and non-empty; `null` and a missing member are both falsy |
| Common.Principal | app/api/folders/route.ts:11-17 | the session names a user exactly when it has a non-empty id |
| ApiErrors.NewApiError | lib/api/error.ts:1-6 | message and code are kept; a status left out becomes 400, a given one is kept |
| ApiErrors.Raise | lib/api/error.ts:8-34 | raising a table entry gives an error carrying exactly that entry's message, status and code |
| ApiErrors.EntryTable | lib/api/error.ts:8-34 | UNAUTHORIZED is 401, FORBIDDEN 403, NOT_FOUND 404, VALIDATION_ERROR 400, STORAGE_ERROR 500; every status is a 4xx or 5xx; no two entries share a code |
| ApiErrors.Catch | app/api/folders/route.ts:62-82 | an `ApiError` is answered with its own status, message and code; anything else is a code-less 500 with the handler's generic message |
| Strings.ContainsIffOccurs | lib/file-utils.ts:25-40 | `includes` holds exactly when the needle occurs at some index |
| Strings.LowerChar | lib/api/schemas/general.ts:4 | a capital letter becomes its own small letter (code plus 32), and every other character is unchanged |
| Strings.Lower | lib/api/schemas/general.ts:4 | lowering keeps the length, maps each character by `LowerChar`, and leaves an already-lower string as it is |
| Strings.LowerIdempotent | lib/api/schemas/general.ts:4 | lowering twice is lowering once |
| Strings.LowerIdentifiesCaseVariants | lib/api/schemas/general.ts:4 | two strings lower to the same text exactly when they differ only in the case of ASCII letters |
| Strings.NatToDecimal | lib/storage/upload.ts:11 | the decimal text of a timestamp is non-empty, all digits, with no leading zero |
| Strings.DecimalRoundTrip | lib/storage/upload.ts:11 | reading the decimal text back gives the number |
| Strings.DecimalInjective | lib/storage/upload.ts:11 | different timestamps have different texts |
| Strings.LastSegment | lib/storage/upload.ts:22 | `split('/').pop()` is a suffix without `/`, either the whole string or preceded by `/` |
| Strings.LastSegmentUnique | lib/storage/upload.ts:22 | those three facts determine the last segment |
| Strings.JsLength | lib/api/schemas/folder/index.ts:6 | the length zod bounds is the UTF-16 length: at least the number of characters and at most twice it |
| Strings.JsLengthAppend | lib/api/schemas/folder/index.ts:6 | the length of a concatenation is the sum of the lengths |
| Strings.JsLengthCountsAstralTwice | lib/api/schemas/folder/index.ts:6 | the UTF-16 length equals the character count exactly when no character lies outside the Basic Multilingual Plane |
| Strings.AstralRunLength | lib/api/schemas/folder/index.ts:6 | `k` copies of a character outside the Basic Multilingual Plane have length `2k` |
| Ordering.Filter | app/api/folders/route.ts:106-128 | a `where` filter keeps exactly the matching rows with their multiplicities, and no others |
| Ordering.Insert | app/api/folders/route.ts:106-128 | inserting adds exactly the element and keeps a sorted sequence sorted under a total order |
| Ordering.SortBy | app/api/folders/route.ts:106-128 | an `orderBy` result is a permutation of its input, sorted under a total order |
| Ordering.SortedPairwise | app/api/folders/route.ts:106-128 | under a transitive order, neighbours in order means every pair in order |
| Ordering.LexLeTotal | app/api/folders/route.ts:106-128 | any two names are comparable |
| Ordering.LexLeTransitive | app/api/folders/route.ts:106-128 | the name order is transitive |
| Ordering.LexLeAntisymmetric | app/api/folders/route.ts:106-128 | names ordered both ways are equal |
| GeneralSchemas.ParseEmail | lib/api/schemas/general.ts:4 | an address is accepted exactly when the e-mail grammar accepts it as sent, and comes out lower-cased |
| GeneralSchemas.EmailNormalForm | lib/api/schemas/general.ts:4 | under a case-blind grammar, re-parsing a parsed address changes nothing, and case variants parse alike |
| GeneralSchemas.PositiveIntExactly | lib/api/schemas/general.ts:6 | the accepted numbers are exactly the whole numbers from 1 up |
| GeneralSchemas.ParsePagination | lib/api/schemas/general.ts:9-12 | page is accepted when a positive integer, limit when also at most 100; the defaults are 1 and 10; given values are kept |
| GeneralSchemas.PaginationDefaults | lib/api/schemas/general.ts:9-12 | leaving both out equals sending 1 and 10; `null` and 101 are refused |
| FolderSchemas.ParseCreateFolder | lib/api/schemas/folder/index.ts:13-18 | accepted exactly with a 1-255 character name, a nullable optional parent id, and a `userId` that is not `null` |
| FolderSchemas.CreateFolderKeepsFolderRules | lib/api/schemas/folder/index.ts:4-18 | the create payload keeps the name and parent rules yet accepts any owner id, which the full folder schema refuses |
| FolderSchemas.UpdateFolderOnlyIdRequired | lib/api/schemas/folder/index.ts:20-25 | an update needs an id and nothing else; a given name keeps the 1-255 bound |
| FolderSchemas.ParseFolderQuery | lib/api/schemas/folder/index.ts:27-30 | accepted with a nullable optional parent and a non-null `includeFiles`; `includeFiles` is true only when sent true |
| FolderSchemas.FolderQueryDefaults | lib/api/schemas/folder/index.ts:27-30 | `includeFiles` defaults to false, and a `null` parent is accepted |
| FolderSchemas.ValidFolder | lib/api/schemas/folder/index.ts:4-11 | a stored folder: optional id, a name of 1 to 255 code units, optional dates, an owner id and an optional or null parent id |
| FolderSchemas.ValidUpdateFolder | lib/api/schemas/folder/index.ts:20-25 | an update: a required id, with an optional name and an optional or null parent id |
| FolderSchemas.AstralNameCountsTwice | lib/api/schemas/folder/index.ts:4-18 | the name bound counts code units: 127 astral characters are accepted and 200 are refused |
| FileSchemas.ValidFileBounds | lib/api/schemas/file/index.ts:4-16 | a stored file has a 1-255 character name, a non-empty type and a positive whole size |
| FileSchemas.CreateFileRelaxesOwner | lib/api/schemas/file/index.ts:18-28 | the create payload accepts any owner id, which the stored-file schema refuses |
| FileSchemas.UpdateFileOnlyIdRequired | lib/api/schemas/file/index.ts:30-35 | an update needs an id and nothing else; a given name keeps the bound |
| FileSchemas.ParseFileUpload | lib/api/schemas/file/index.ts:38-46 | accepted exactly when the part is a `File` and the metadata is valid; name, type and size come from the metadata |
| FileSchemas.UploadNameUnbounded | lib/api/schemas/file/index.ts:38-46 | upload metadata accepts a name longer than 255 characters that the stored-file schema refuses |
| FileSchemas.ValidFile | lib/api/schemas/file/index.ts:4-16 | a stored file: name of 1 to 255 code units, non-empty type, positive whole size, URL, storage path, blob id, owner id and optional or null folder |
| FileSchemas.ValidCreateFile | lib/api/schemas/file/index.ts:18-28 | the create payload: the stored-file rules without id and dates, with the owner relaxed to any optional string |
| FileSchemas.ValidUpdateFile | lib/api/schemas/file/index.ts:30-35 | an update: a required id, with an optional name and an optional or null folder |
| FileSchemas.ValidUploadMetadata | lib/api/schemas/file/index.ts:38-46 | upload metadata: non-empty name and type, positive whole size, optional or null folder id |
| AuthSchemas.ParseLogin | lib/api/schemas/auth/index.ts:4-7 | accepted exactly with a valid e-mail and a password of at least 8 characters; the e-mail comes out lower-cased |
| AuthSchemas.ParseRegister | lib/api/schemas/auth/index.ts:9-13 | accepted exactly with a valid e-mail, a non-empty name and a password of at least 8 characters |
| AuthSchemas.RegisterIgnoresConfirmation | lib/api/schemas/auth/index.ts:9-13 | the confirmation member never changes the result |
| AuthSchemas.LoginAcceptsRegisteredEmail | lib/api/schemas/auth/index.ts:4-13 | credentials that register also pass the sign-in schema, with the same stored address |
| UserSchemas.ValidUserBounds | lib/api/schemas/user/index.ts:4-13 | a given name or password hash has at least 8 characters, and neither may be `null` |
| UserSchemas.RegisterNameTooShortForUser | lib/api/schemas/user/index.ts:4-13 | a registration name shorter than 8 characters is refused by the user schema |
| UserSchemas.CreateUserOnlyEmailRequired | lib/api/schemas/user/index.ts:15-19 | only the e-mail is required, and the picked members keep the user schema's rules |
| UserSchemas.UpdateUserPartialWithoutId | lib/api/schemas/user/index.ts:21 | every member is optional, the id is ignored, and every valid user is a valid update |
| UserSchemas.ValidAccountShape | lib/api/schemas/user/index.ts:23-36 | an account has non-empty type, provider and provider id, and any whole `expires_at`, negative included |
| UserSchemas.TokenSchemasShape | lib/api/schemas/user/index.ts:38-50 | session and verification tokens are non-empty and need an expiry; `null` coerces to a date |
| UserSchemas.ValidUser | lib/api/schemas/user/index.ts:4-13 | a user: optional id, a required e-mail, optional name and password hash of at least 8 code units, optional dates and image |
| UserSchemas.ValidCreateUser | lib/api/schemas/user/index.ts:15-19 | the create payload: name, e-mail and password hash picked from the user rules |
| UserSchemas.ValidUpdateUser | lib/api/schemas/user/index.ts:21 | the update payload: every user member optional, the id ignored |
| UserSchemas.ValidAccount | lib/api/schemas/user/index.ts:23-36 | an account: non-empty type, provider and provider account id, owner id, optional texts and a whole `expires_at` |
| UserSchemas.ValidSession | lib/api/schemas/user/index.ts:38-43 | a session: optional id, non-empty token, owner id and an expiry date |
| UserSchemas.ValidVerificationToken | lib/api/schemas/user/index.ts:46-50 | a verification token: non-empty identifier and token and an expiry date |
| FileUtils.IconClasses | lib/file-utils.ts:17-46 | each icon is given exactly for the types the ordered tests select |
| FileUtils.MediaPrefixFirst | lib/file-utils.ts:19-24 | an image, video or audio prefix decides before any substring test |
| FileUtils.FileTypeIcon | lib/file-utils.ts:17-46 | the icon of the first test, in the source's order, that the type passes |
| FileUtils.PdfGetsGenericIcon | lib/file-utils.ts:25-26 | `application/pdf` gets the generic icon |
| FileUtils.PreviewNeedsBareCategory | lib/file-utils.ts:51-59 | the type is compared exactly with the bare category; a full MIME type previews only by extension |
| FileUtils.CanPreviewFile | lib/file-utils.ts:51-59 | previewable exactly for the bare categories image, video and audio, or the pdf and office extensions |
| FileUtils.FullTypePreviewsByExtension | lib/file-utils.ts:51-59 | a type containing `/` never matches a category, so such a file previews exactly for the pdf and office extensions |
| FileUtils.UnitIndex | lib/file-utils.ts:10 | the exponent is the one whose power lies at or below the size, with the next power above it |
| FileUtils.ScaledSizeInRange | lib/file-utils.ts:10-11 | the scaled size's whole part is between 1 and 1023 |
| FileUtils.AsWrittenUnitUndefinedFromTebibyte | lib/file-utils.ts:9-11 | as written, the unit is defined exactly below 1024^4 bytes |
| FileUtils.SizeUnitAsWritten | lib/file-utils.ts:7-11 | the unit as written: "Bytes" for zero, otherwise the table entry at the exponent, "undefined" past its end |
| FileUtils.SizeUnit | lib/file-utils.ts:7-11 | the corrected unit is always one of the four table names, and agrees with the code wherever the code gives one |
| FileUtils.SizeUnitExamples | lib/file-utils.ts:7-11 | 0 and 1023 bytes are Bytes, 1024 is KB, 1 MiB is MB, 1 GiB is GB, and 1 TiB is undefined as written and GB corrected |
| StorageUpload.BlobIdOf | lib/storage/upload.ts:22 | the blob id is the URL's last segment, or a single space when that is empty; never empty, never containing `/` |
| StorageUpload.PutAt | lib/storage/upload.ts:14-31 | a failed put becomes STORAGE_ERROR; otherwise url and path are the store's and the id is derived from the url |
| StorageUpload.AsWrittenPathShape | lib/storage/upload.ts:9-12 | with a folder the path is `user/folder/time-env-name`; without one the time follows the user id directly |
| StorageUpload.AsWrittenRootPathsCollide | lib/storage/upload.ts:9-12 | as written, two different users' root uploads can share a path |
| StorageUpload.BlobPath | lib/storage/upload.ts:9-12 | the corrected path ends with the file's name |
| StorageUpload.UploadAgreesInFolder | lib/storage/upload.ts:9-23 | with a folder the corrected upload is the upload as written |
| StorageUpload.UploadAsWritten | lib/storage/upload.ts:4-31 | `upload` as written: a put at the written path |
| StorageUpload.Upload | lib/storage/upload.ts:4-31 | `upload` with the owner's id always followed by `/` |
| StorageUpload.BlobPathDeterminesOwner | lib/storage/upload.ts:9-12 | with the corrected prefix, equal paths mean the same owner |
| Store.FindOwnedFolder | app/api/folders/route.ts:27-32 | the lookup finds a folder of that id and owner exactly when one exists |
| Store.FindOwnedFile | app/api/files/trash/route.ts:14-23 | the index found holds the file of that id and owner; none is found exactly when no such row exists |
| Store.FindUserByEmail | app/api/auth/register/route.ts:16-18 | the user found has the address; none is found exactly when no user has it |
| Store.Db.NewId | app/api/folders/route.ts:43-56 | the generated id is non-empty and used by no user, folder or file |
| Store.Db.Valid | app/api/folders/route.ts:25-47 | the table invariant every handler keeps: unique ids and e-mails, and every parent folder and file folder owned by the row's owner |
| FoldersRoute.CreateRequest | app/api/folders/route.ts:19-23 | injecting the session id as owner makes validation depend only on name and parent |
| FoldersRoute.OwnsFolderGrows | app/api/folders/route.ts:43-56 | appending a folder keeps every ownership fact |
| FoldersRoute.Post | app/api/folders/route.ts:8-83 | 401 without a session and 500 on invalid input; 404 FOLDER_002 when a truthy parent is not the caller's; otherwise 201 with a fresh id, appending exactly the new folder (a falsy parent stored as root) and keeping the invariant |
| FoldersRoute.ParamField | app/api/folders/route.ts:96-98 | a missing query parameter reads as `null`, a present one as its text |
| FoldersRoute.ListQuery | app/api/folders/route.ts:96-104 | valid exactly when the parent parameter is absent or an id; `includeFiles` is true only for the text "true" |
| FoldersRoute.NameOrdersTotal | app/api/folders/route.ts:106-150 | ordering folders and files by name is total and transitive |
| FoldersRoute.ListedFolders | app/api/folders/route.ts:106-128 | exactly the caller's folders under the parent, in name order |
| FoldersRoute.ListedFiles | app/api/folders/route.ts:130-150 | exactly the caller's files in the folder, in name order |
| FoldersRoute.FolderEntries | app/api/folders/route.ts:106-128 | each listed folder carries its members and the counts of its children and files |
| FoldersRoute.FileEntries | app/api/folders/route.ts:130-150 | each listed file carries its selected members |
| FoldersRoute.Get | app/api/folders/route.ts:85-177 | 401 without a session, 500 on an invalid query, otherwise 200 with the listed folders, and the listed files only when asked for |
| FoldersRoute.CreatedFolderListed | app/api/folders/route.ts:43-128 | a created folder appears in its owner's listing under its parent, and other listings are unchanged |
| FilesRoute.Admit | app/api/files/route.ts:9-33 | 401 without a session; 400 VALIDATION_002 when a part is missing; an unparsable or invalid metadata part is an unexpected error; otherwise the upload is admitted with the parsed metadata |
| FilesRoute.Record | app/api/files/route.ts:52-74 | a failed upload is STORAGE_001; a stored blob is recorded even if the insert then fails with 500; otherwise exactly the new row is appended and 201 is answered |
| FilesRoute.Post | app/api/files/route.ts:7-92 | as written: rejected uploads fail as admitted; 404 FOLDER_001 for a folder not the caller's; with no folder id no response at all |
| FilesRoute.PostFixed | app/api/files/route.ts:7-92 | corrected: always a response, and with no folder the file is stored at the root |
| FilesRoute.FoldersByDate | app/api/files/route.ts:115-123 | exactly the caller's folders under the parent, newest first |
| FilesRoute.FilesByDate | app/api/files/route.ts:125-136 | exactly the caller's files in the folder, newest first |
| FilesRoute.Get | app/api/files/route.ts:94-163 | 401 without a session, 500 on an invalid query, otherwise 200 with the folders and, when asked, the files |
| FilesRoute.GetIgnoresViewType | app/api/files/route.ts:105-107 | the view type the pages send never changes the answer |
| FilesRoute.SameFoldersAsFolderRoute | app/api/files/route.ts:115-123 | this listing and the folder route's list the same folders, in different orders |
| TrashRoute.SetTrashed | app/api/files/trash/route.ts:14-23 | `trashed` is set as sent (kept when missing), `trashedAt` is now exactly when trashing, and nothing else changes |
| TrashRoute.TrashThenRestore | app/api/files/trash/route.ts:14-23 | trashing then restoring gives back an untrashed row |
| TrashRoute.RepeatIsLatest | app/api/files/trash/route.ts:14-23 | repeating an update equals doing it once at the later time |
| TrashRoute.UpdatedFiles | app/api/files/trash/route.ts:14-23 | only the addressed row changes |
| TrashRoute.Patch | app/api/files/trash/route.ts:5-31 | succeeds exactly for a signed-in caller's own file with a non-null `trashed`; every failure, unauthenticated included, is a code-less 500 that changes nothing; on success only the addressed row changes, and the reply is that row after the update |
| RegisterRoute.Post | app/api/auth/register/route.ts:8-71 | 500 on invalid input; 409 AUTH_001 for a taken address; otherwise 201 and exactly one new user, with a fresh id and the hashed password, whose hash is not returned |
| RegisterRoute.CaseVariantTaken | app/api/auth/register/route.ts:13-26 | after registering, any case variant of the address is taken |
| Dashboard.Up | components/dashboard.tsx:83-92 | a step up is taken exactly when `parentId` is truthy and its fetch succeeds |
| Dashboard.PathTo | components/dashboard.tsx:77-98 | the path ends with the starting folder |
| Dashboard.PathLinks | components/dashboard.tsx:77-98 | each entry is the fetched parent of the next |
| Dashboard.PathStartsAtTop | components/dashboard.tsx:77-98 | when the walk ends, the first entry has no fetchable parent |
| Dashboard.PathIsParentChain | components/dashboard.tsx:77-98 | with a consistent lookup, consecutive entries are parent and child by id |
| Dashboard.PathIgnoresSpareSteps | components/dashboard.tsx:77-98 | any step bound large enough gives the same path |
| Dashboard.SelfParentNeverEnds | components/dashboard.tsx:77-98 | a folder that is its own parent makes the loop run forever |
| Dashboard.FetchFolderPath | components/dashboard.tsx:77-98 | the loop builds the root-first chain of fetched parents ending at the folder |
| Dashboard.DashboardState.constructor | components/dashboard.tsx:21-22 | the page starts with no folder and an empty path |
| Dashboard.DashboardState.LoadFolder | components/dashboard.tsx:38-52 | with no folder parameter, no folder and an empty path; with one whose fetch succeeds, that folder and its path; with one whose fetch fails, the state is kept |
| Dashboard.BreadcrumbItems | components/dashboard.tsx:119-126 | "My Drive" leads to the root, then one crumb per path entry |
| Dashboard.NavigateUrl | components/dashboard.tsx:100-106 | the folder's page for a truthy id, the root page otherwise |
| Dashboard.FolderParam | components/dashboard.tsx:26 | the `folder` parameter of a page URL |
| Dashboard.NavigateRoundTrip | components/dashboard.tsx:100-106 | reading the folder parameter back from the navigation URL gives the folder, or none for the root |
| Dashboard.CrumbNavigation | components/dashboard.tsx:100-126 | the first crumb goes to the root and crumb i to the i-th path entry |

## Left out

- Network, database and blob I/O, `async`/`await` and concurrent requests. Each handler runs atomically on one `Db`. Two requests racing on the same e-mail or the same row are not modelled.
- The schema library's id (cuid), e-mail, URL and date grammars are opaque predicates in `Formats`. The validation-error message text is not modelled: such a failure is an "unexpected" error, which the handlers answer with 500.
- `JSON.parse` of the upload metadata is the parameter `parse`. Type errors inside a JSON body, and bodies that are not objects, are not modelled: every member is `Absent`, `Null` or `Given` with the right type. A body that is not valid JSON makes `request.json()` throw, and the folder POST, trash PATCH and register POST then answer 500. The model takes bodies already parsed, so it does not include that case.
- bcrypt is the parameter `hash`. The cost factor and salting are not modelled.
- `Store.Db.NewId`: the fresh id is a run of `c` characters, not a cuid. Only freshness is modelled.
- Insert failures in the folder and registration handlers are not modelled. Only the file upload has an `insertFails` parameter, because there a failing insert leaves an orphaned blob.
- `TrashRoute.Patch`: the database's automatic `updatedAt` stamp is not modelled. The row keeps its old `updatedAt`.
- Strings are sequences of Unicode scalar values. Length bounds use `Strings.JsLength`, which counts UTF-16 code units as the schemas do. Lower-casing covers the ASCII letters only.
- `Ordering.LexLe`: name order compares scalar values. That is neither UTF-16 code-unit order nor the database's collation: characters outside the Basic Multilingual Plane sort after U+E000 to U+FFFF here.
- `FileUtils`: the scaled number, `toFixed(2)` and floating-point `Math.log` are not modelled. The model states the unit and the integer bounds of the exact scaled size. Rounding to two decimals can still display 1024: 1048575 bytes is 1023.999… KB and shows as "1024 KB". The exponent is the exact integer one, assuming `Math.log` rounds correctly at powers of 1024.
- The per-id folder route (`/api/folders/[id]`) is not part of this model. Its answers are a `Lookup` map given to the dashboard.
- `Dashboard.FetchFolderPath`: the loop has no cycle guard. The method takes a ghost step bound and requires that the walk ends within it (`WalkEnds`). `Dashboard.SelfParentNeverEnds` shows why the bound cannot be dropped.
- `Dashboard.FolderParam`: URL encoding of the id is not modelled.
- The dashboard's rendering, toasts, uploads and file lists, and the rest of the UI, are not modelled. The same goes for authentication flows other than registration.
- `FileUtils.CanPreviewFile` follows the code, which compares the type with bare categories such as "image". Unit tests of the repository pass full MIME types such as "image/jpeg" and expect `true`.

## Findings

| source | as written | input that shows it | evidently intended | confidence | as-written member | corrected member |
|---|---|---|---|---|---|---|
| lib/file-utils.ts:9-11 | the unit table stops at "GB", so the index is past its end from 1024^4 bytes on | `formatFileSize(1099511627776)` ends in "undefined" | clamp the unit to the last table entry (or extend the table) | high, not executed | FileUtils.AsWrittenUnitUndefinedFromTebibyte | FileUtils.SizeUnit |
| lib/storage/upload.ts:9 | with no folder, the prefix is the user id with no `/` after it | user "u1" at time 23 and user "u12" at time 3 get the same path "u123-env-name" | `userId + "/"`, so the path names its owner | low, not executed: the handler as written calls `upload` only inside `if (folderId)`, so only the corrected handler `FilesRoute.PostFixed` reaches the root branch; a collision also needs owner ids of different lengths, which generated cuids do not have | StorageUpload.AsWrittenRootPathsCollide | StorageUpload.BlobPathDeterminesOwner |
| app/api/files/route.ts:35-75 | the upload and insert happen only inside `if (folderId)`, so without a folder the handler returns nothing | metadata with no `folderId`, valid session and file | upload to the root and answer 201 | high, not executed | FilesRoute.Post | FilesRoute.PostFixed |
