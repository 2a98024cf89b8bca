/** `/api/files`: uploading a file into an owned folder (blob first, then the
    row), and listing the caller's folders and files under one folder. */
module FilesRoute {
  import opened Common
  import opened ApiErrors
  import opened GeneralSchemas
  import opened FileSchemas
  import opened Ordering
  import opened Store
  import opened StorageUpload
  import FoldersRoute

  /** The message of the upload handler's catch-all 500. */
  const UploadError := "Internal Server Error"
  /** The message of the listing handler's catch-all 500. */
  const ListError := "Internal server error"

  /** `!file`: a missing part is falsy, and so is an empty text part; a
      `File` object is always truthy. */
  predicate PartPresent(p: Option<FormPart>) {
    p.Some? && !(p.value.TextPart? && p.value.text == "")
  }

  /** The checks before any lookup: a session, both parts, metadata that
      `JSON.parse` reads (`parse`), and the upload schema. */
  datatype Gate = Pass(owner: Id, file: FormFile, meta: UploadMetadata) | Stop(thrown: Thrown)

  function Admit(fmt: Formats, session: Option<Id>, file: Option<FormPart>, metadata: Option<string>,
                 parse: string -> Option<UploadMetadataInput>): (g: Gate)
    ensures Principal(session).None? ==> g == Stop(Raised(Raise(Unauthorized)))
    ensures Principal(session).Some? && !(PartPresent(file) && Truthy(metadata).Some?) ==>
      g == Stop(Raised(ApiError("File and metadata are required", 400, Some("VALIDATION_002"))))
    ensures g.Pass? <==>
      && Principal(session).Some? && PartPresent(file) && Truthy(metadata).Some?
      && parse(metadata.value).Some? && ParseFileUpload(fmt, file.value, parse(metadata.value).value).Some?
    ensures g.Stop? && Principal(session).Some? && PartPresent(file) && Truthy(metadata).Some? ==> g.thrown == Unexpected
    ensures g.Pass? ==>
      && g.owner == session.value && file == Some(FilePart(g.file))
      && Some(g.meta) == ParseFileUpload(fmt, file.value, parse(metadata.value).value)
  {
    var owner := Principal(session);
    if owner.None? then Stop(Raised(Raise(Unauthorized)))
    else if !(PartPresent(file) && Truthy(metadata).Some?) then
      Stop(Raised(ApiError("File and metadata are required", 400, Some("VALIDATION_002"))))
    else
      var json := parse(metadata.value);
      if json.None? then Stop(Unexpected)
      else
        var parsed := ParseFileUpload(fmt, file.value, json.value);
        if parsed.None? then Stop(Unexpected)
        else Pass(owner.value, file.value.file, parsed.value)
  }

  /** The row `prisma.file.create` inserts for an upload. */
  function NewFileRow(id: Id, owner: Id, meta: UploadMetadata, blob: Blob, folder: Option<Id>, now: nat): FileRow {
    FileRow(id, meta.name, meta.mimeType, meta.size, blob.url, blob.path, blob.blobId, owner, folder, now, now, false, None)
  }

  /** After a successful upload: the blob store holds the new pathname, and
      the row is inserted unless the insert fails, in which case the blob
      stays behind with no row naming it. */
  method Record(db: Db, owner: Id, meta: UploadMetadata, folder: Option<Id>, outcome: UploadOutcome,
                now: nat, insertFails: bool) returns (r: Response<FileRow>)
    requires db.Valid()
    requires folder.Some? ==> OwnsFolder(db.folders, owner, folder.value)
    modifies db
    ensures db.Valid()
    ensures db.users == old(db.users) && db.folders == old(db.folders)
    ensures outcome.UploadFailed? ==>
      r == Failure(outcome.err.statusCode, outcome.err.message, outcome.err.code)
      && db.files == old(db.files) && db.blobs == old(db.blobs)
    ensures outcome.Uploaded? ==> db.blobs == old(db.blobs) + {outcome.blob.path}
    ensures outcome.Uploaded? && insertFails ==> r == Failure(500, UploadError, None) && db.files == old(db.files)
    ensures outcome.Uploaded? && !insertFails ==>
      && r.Success? && r.status == 201
      && r.data == NewFileRow(r.data.id, owner, meta, outcome.blob, folder, now)
      && (forall x :: x in old(db.files) ==> x.id != r.data.id)
      && db.files == old(db.files) + [r.data]
  {
    if outcome.UploadFailed? {
      return Catch(Raised(outcome.err), UploadError);
    }
    db.blobs := db.blobs + {outcome.blob.path};
    if insertFails {
      return Catch(Unexpected, UploadError);
    }
    var id := db.NewId();
    var row := NewFileRow(id, owner, meta, outcome.blob, folder, now);
    forall x | x in db.files + [row] && x.folderId.Some?
      ensures OwnsFolder(db.folders, x.userId, x.folderId.value)
    {
    }
    db.files := db.files + [row];
    r := Success(201, row);
  }

  /** `POST /api/files` as written: the row is stored only inside
      `if (folderId)`, so a valid upload with no folder reaches the end of
      the handler and answers nothing. */
  method Post(db: Db, fmt: Formats, session: Option<Id>, file: Option<FormPart>, metadata: Option<string>,
              parse: string -> Option<UploadMetadataInput>, put: Put, now: nat, env: string, insertFails: bool)
    returns (r: Response<FileRow>)
    requires db.Valid()
    modifies db
    ensures db.Valid()
    ensures db.users == old(db.users) && db.folders == old(db.folders)
    ensures Admit(fmt, session, file, metadata, parse).Stop? ==>
      && r == Catch(Admit(fmt, session, file, metadata, parse).thrown, UploadError)
      && db.files == old(db.files) && db.blobs == old(db.blobs)
    ensures var g := Admit(fmt, session, file, metadata, parse);
      g.Pass? && TruthyField(g.meta.folderId).None? ==>
      r == NoResponse && db.files == old(db.files) && db.blobs == old(db.blobs)
    ensures var g := Admit(fmt, session, file, metadata, parse);
      g.Pass? && TruthyField(g.meta.folderId).Some? && !OwnsFolder(old(db.folders), g.owner, g.meta.folderId.value) ==>
      r == Failure(404, "Folder not found", Some("FOLDER_001")) && db.files == old(db.files) && db.blobs == old(db.blobs)
    ensures var g := Admit(fmt, session, file, metadata, parse);
      g.Pass? ==>
      var folder := TruthyField(g.meta.folderId);
      var outcome := UploadAsWritten(put, g.file, g.owner, folder, now, env);
      folder.Some? && OwnsFolder(old(db.folders), g.owner, folder.value) ==>
      && (outcome.UploadFailed? ==>
            r == Failure(500, "Storage operation failed", Some("STORAGE_001"))
            && db.files == old(db.files) && db.blobs == old(db.blobs))
      && (outcome.Uploaded? ==> db.blobs == old(db.blobs) + {outcome.blob.path})
      && (outcome.Uploaded? && insertFails ==> r == Failure(500, UploadError, None) && db.files == old(db.files))
      && (outcome.Uploaded? && !insertFails ==>
            && r.Success? && r.status == 201
            && r.data == NewFileRow(r.data.id, g.owner, g.meta, outcome.blob, folder, now)
            && (forall x :: x in old(db.files) ==> x.id != r.data.id)
            && db.files == old(db.files) + [r.data])
  {
    var g := Admit(fmt, session, file, metadata, parse);
    if g.Stop? {
      return Catch(g.thrown, UploadError);
    }
    var folder := TruthyField(g.meta.folderId);
    if folder.Some? {
      if FindOwnedFolder(db.folders, folder.value, g.owner).None? {
        return Catch(Raised(ApiError("Folder not found", 404, Some("FOLDER_001"))), UploadError);
      }
      var outcome := UploadAsWritten(put, g.file, g.owner, folder, now, env);
      r := Record(db, g.owner, g.meta, folder, outcome, now, insertFails);
      return;
    }
    r := NoResponse;
  }

  /** `POST /api/files` with the root case completed: with no folder the file
      is uploaded under the owner's root prefix and stored with a `null`
      folder; every request is answered. */
  method PostFixed(db: Db, fmt: Formats, session: Option<Id>, file: Option<FormPart>, metadata: Option<string>,
                   parse: string -> Option<UploadMetadataInput>, put: Put, now: nat, env: string, insertFails: bool)
    returns (r: Response<FileRow>)
    requires db.Valid()
    modifies db
    ensures db.Valid()
    ensures !r.NoResponse?
    ensures db.users == old(db.users) && db.folders == old(db.folders)
    ensures Admit(fmt, session, file, metadata, parse).Stop? ==>
      && r == Catch(Admit(fmt, session, file, metadata, parse).thrown, UploadError)
      && db.files == old(db.files) && db.blobs == old(db.blobs)
    ensures var g := Admit(fmt, session, file, metadata, parse);
      g.Pass? && TruthyField(g.meta.folderId).Some? && !OwnsFolder(old(db.folders), g.owner, g.meta.folderId.value) ==>
      r == Failure(404, "Folder not found", Some("FOLDER_001")) && db.files == old(db.files) && db.blobs == old(db.blobs)
    ensures var g := Admit(fmt, session, file, metadata, parse);
      g.Pass? ==>
      var folder := TruthyField(g.meta.folderId);
      var outcome := Upload(put, g.file, g.owner, folder, now, env);
      (folder.Some? ==> OwnsFolder(old(db.folders), g.owner, folder.value)) ==>
      && (outcome.UploadFailed? ==>
            r == Failure(500, "Storage operation failed", Some("STORAGE_001"))
            && db.files == old(db.files) && db.blobs == old(db.blobs))
      && (outcome.Uploaded? ==> db.blobs == old(db.blobs) + {outcome.blob.path})
      && (outcome.Uploaded? && insertFails ==> r == Failure(500, UploadError, None) && db.files == old(db.files))
      && (outcome.Uploaded? && !insertFails ==>
            && r.Success? && r.status == 201
            && r.data == NewFileRow(r.data.id, g.owner, g.meta, outcome.blob, folder, now)
            && (forall x :: x in old(db.files) ==> x.id != r.data.id)
            && db.files == old(db.files) + [r.data])
  {
    var g := Admit(fmt, session, file, metadata, parse);
    if g.Stop? {
      return Catch(g.thrown, UploadError);
    }
    var folder := TruthyField(g.meta.folderId);
    if folder.Some? && FindOwnedFolder(db.folders, folder.value, g.owner).None? {
      return Catch(Raised(ApiError("Folder not found", 404, Some("FOLDER_001"))), UploadError);
    }
    var outcome := Upload(put, g.file, g.owner, folder, now, env);
    r := Record(db, g.owner, g.meta, folder, outcome, now, insertFails);
  }

  predicate FolderNewerOrSame(a: Folder, b: Folder) {
    a.createdAt >= b.createdAt
  }

  predicate FileNewerOrSame(a: FileRow, b: FileRow) {
    a.createdAt >= b.createdAt
  }

  /** The folder query of this listing: the rows of `owner` under `parent`,
      newest first. */
  function FoldersByDate(rows: seq<Folder>, owner: Id, parent: Option<Id>): (r: seq<Folder>)
    ensures forall f :: multiset(r)[f] == if f.userId == owner && f.parentId == parent then multiset(rows)[f] else 0
    ensures forall i, j :: 0 <= i < j < |r| ==> r[i].createdAt >= r[j].createdAt
  {
    var r := SortBy(Filter(rows, (f: Folder) => f.userId == owner && f.parentId == parent), FolderNewerOrSame);
    SortedPairwise(r, FolderNewerOrSame);
    r
  }

  /** The file query of this listing: the rows of `owner` in `folder`, newest
      first. */
  function FilesByDate(rows: seq<FileRow>, owner: Id, folder: Option<Id>): (r: seq<FileRow>)
    ensures forall x :: multiset(r)[x] == if x.userId == owner && x.folderId == folder then multiset(rows)[x] else 0
    ensures forall i, j :: 0 <= i < j < |r| ==> r[i].createdAt >= r[j].createdAt
  {
    var r := SortBy(Filter(rows, (x: FileRow) => x.userId == owner && x.folderId == folder), FileNewerOrSame);
    SortedPairwise(r, FileNewerOrSame);
    r
  }

  datatype Listing = Listing(folders: seq<Folder>, files: seq<FileRow>)

  /** `GET /api/files?folderId=…&includeFiles=…`; the view `type` the pages
      send is accepted and never read. */
  function Get(db: Db, fmt: Formats, session: Option<Id>, folderParam: Option<string>, includeParam: Option<string>,
               viewType: Option<string>): (r: Response<Listing>)
    reads db
    ensures Principal(session).None? ==> r == Failure(401, "Unauthorized access", Some("AUTH_001"))
    ensures Principal(session).Some? && FoldersRoute.ListQuery(fmt, folderParam, includeParam).None? ==>
      r == Failure(500, ListError, None)
    ensures r.Success? <==> Principal(session).Some? && FoldersRoute.ListQuery(fmt, folderParam, includeParam).Some?
    ensures r.Success? ==>
      var parent := TruthyField(FoldersRoute.ParamField(folderParam));
      && r.status == 200
      && r.data.folders == FoldersByDate(db.folders, session.value, parent)
      && (includeParam == Some("true") ==> r.data.files == FilesByDate(db.files, session.value, parent))
      && (includeParam != Some("true") ==> r.data.files == [])
  {
    var owner := Principal(session);
    if owner.None? then Catch(Raised(Raise(Unauthorized)), ListError)
    else
      var query := FoldersRoute.ListQuery(fmt, folderParam, includeParam);
      if query.None? then Catch(Unexpected, ListError)
      else
        var parent := TruthyField(query.value.parentId);
        var files := if query.value.includeFiles then FilesByDate(db.files, owner.value, parent) else [];
        Success(200, Listing(FoldersByDate(db.folders, owner.value, parent), files))
  }

  /** The view type never changes the answer. */
  lemma GetIgnoresViewType(db: Db, fmt: Formats, session: Option<Id>, folderParam: Option<string>, includeParam: Option<string>,
                           t1: Option<string>, t2: Option<string>)
    ensures Get(db, fmt, session, folderParam, includeParam, t1) == Get(db, fmt, session, folderParam, includeParam, t2)
  {
  }

  /** Both listings name the same folders: this one newest first, the folder
      route's by name. */
  lemma SameFoldersAsFolderRoute(rows: seq<Folder>, owner: Id, parent: Option<Id>)
    ensures multiset(FoldersByDate(rows, owner, parent)) == multiset(FoldersRoute.ListedFolders(rows, owner, parent))
  {
    var a := FoldersByDate(rows, owner, parent);
    var b := FoldersRoute.ListedFolders(rows, owner, parent);
    forall f: Folder ensures multiset(a)[f] == multiset(b)[f] {
    }
  }
}
