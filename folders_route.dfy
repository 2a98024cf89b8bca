/** `/api/folders`: creating a folder under an owned parent, and listing the
    caller's folders (and, on request, files) under one parent. */
module FoldersRoute {
  import opened Common
  import opened ApiErrors
  import opened GeneralSchemas
  import opened FolderSchemas
  import opened Ordering
  import opened Store

  /** The message of the catch-all 500 in both handlers. */
  const GenericError := "Internal server error"

  /** The members `POST` selects from the new row. */
  datatype FolderCreated = FolderCreated(id: Id, name: string, parentId: Option<Id>, createdAt: nat, updatedAt: nat)

  /** The body after validation, with the session's id injected as `userId`
      over whatever the body carried. */
  function CreateRequest(fmt: Formats, owner: Id, body: CreateFolderInput): (r: Option<CreateFolder>)
    ensures r.Some? <==> ParseCreateFolder(fmt, CreateFolderInput(body.name, body.parentId, Absent)).Some?
    ensures r.Some? ==> r.value.name == body.name.value && r.value.parentId == body.parentId
  {
    ParseCreateFolder(fmt, body.(userId := Given(owner)))
  }

  /** Appending a row keeps every existing ownership fact. */
  lemma OwnsFolderGrows(rows: seq<Folder>, f: Folder, owner: Id, id: Id)
    requires OwnsFolder(rows, owner, id)
    ensures OwnsFolder(rows + [f], owner, id)
  {
    var g :| g in rows && g.id == id && g.userId == owner;
    assert g in rows + [f];
  }

  /** `POST /api/folders`. */
  method Post(db: Db, fmt: Formats, session: Option<Id>, body: CreateFolderInput, now: nat) returns (r: Response<FolderCreated>)
    requires db.Valid()
    modifies db
    ensures db.Valid()
    ensures db.users == old(db.users) && db.files == old(db.files) && db.blobs == old(db.blobs)
    ensures Principal(session).None? ==>
      r == Failure(401, "Unauthorized access", Some("AUTH_001")) && db.folders == old(db.folders)
    ensures Principal(session).Some? && CreateRequest(fmt, session.value, body).None? ==>
      r == Failure(500, GenericError, None) && db.folders == old(db.folders)
    ensures Principal(session).Some? && CreateRequest(fmt, session.value, body).Some?
            && TruthyField(body.parentId).Some?
            && !OwnsFolder(old(db.folders), session.value, body.parentId.value) ==>
      r == Failure(404, "Parent folder not found or access denied", Some("FOLDER_002")) && db.folders == old(db.folders)
    ensures r.Success? <==>
      && Principal(session).Some? && CreateRequest(fmt, session.value, body).Some?
      && (TruthyField(body.parentId).Some? ==> OwnsFolder(old(db.folders), session.value, body.parentId.value))
    ensures r.Success? ==>
      && r.status == 201
      && r.data == FolderCreated(r.data.id, body.name.value, TruthyField(body.parentId), now, now)
      && (forall f :: f in old(db.folders) ==> f.id != r.data.id)
      && db.folders == old(db.folders) + [Folder(r.data.id, body.name.value, session.value, TruthyField(body.parentId), now, now)]
  {
    var owner := Principal(session);
    if owner.None? {
      return Catch(Raised(Raise(Unauthorized)), GenericError);
    }
    var data := CreateRequest(fmt, owner.value, body);
    if data.None? {
      return Catch(Unexpected, GenericError);
    }
    var parent := TruthyField(data.value.parentId);
    if parent.Some? && FindOwnedFolder(db.folders, parent.value, owner.value).None? {
      return Catch(Raised(ApiError("Parent folder not found or access denied", 404, Some("FOLDER_002"))), GenericError);
    }
    var id := db.NewId();
    var folder := Folder(id, data.value.name, owner.value, parent, now, now);
    forall f | f in db.folders && f.parentId.Some?
      ensures OwnsFolder(db.folders + [folder], f.userId, f.parentId.value)
    {
      OwnsFolderGrows(db.folders, folder, f.userId, f.parentId.value);
    }
    forall x | x in db.files && x.folderId.Some?
      ensures OwnsFolder(db.folders + [folder], x.userId, x.folderId.value)
    {
      OwnsFolderGrows(db.folders, folder, x.userId, x.folderId.value);
    }
    if parent.Some? {
      OwnsFolderGrows(db.folders, folder, owner.value, parent.value);
    }
    db.folders := db.folders + [folder];
    r := Success(201, FolderCreated(id, folder.name, parent, now, now));
  }

  /** A query-string value: `searchParams.get` answers `null` when the
      parameter is missing. */
  function ParamField(p: Option<string>): (f: Field<string>)
    ensures f.Absent? == false
    ensures p.None? <==> f.Null?
    ensures p.Some? ==> f == Given(p.value)
  {
    if p.Some? then Given(p.value) else Null
  }

  /** The listing query: `includeFiles` is true only for the exact text "true". */
  function ListQuery(fmt: Formats, parentParam: Option<string>, includeParam: Option<string>): (r: Option<FolderQuery>)
    ensures r.Some? <==> NullableCuid(fmt, ParamField(parentParam))
    ensures r.Some? ==> (r.value.includeFiles <==> includeParam == Some("true"))
    ensures r.Some? ==> r.value.parentId == ParamField(parentParam)
  {
    ParseFolderQuery(fmt, FolderQueryInput(ParamField(parentParam), Given(includeParam == Some("true"))))
  }

  predicate FolderNameLe(a: Folder, b: Folder) {
    LexLe(a.name, b.name)
  }

  predicate FileNameLe(a: FileRow, b: FileRow) {
    LexLe(a.name, b.name)
  }

  lemma NameOrdersTotal()
    ensures Total(FolderNameLe) && Total(FileNameLe)
    ensures Transitive(FolderNameLe) && Transitive(FileNameLe)
  {
    forall a: Folder, b: Folder ensures FolderNameLe(a, b) || FolderNameLe(b, a) {
      LexLeTotal(a.name, b.name);
    }
    forall a: FileRow, b: FileRow ensures FileNameLe(a, b) || FileNameLe(b, a) {
      LexLeTotal(a.name, b.name);
    }
    forall a: Folder, b: Folder, c: Folder | FolderNameLe(a, b) && FolderNameLe(b, c)
      ensures FolderNameLe(a, c)
    {
      LexLeTransitive(a.name, b.name, c.name);
    }
    forall a: FileRow, b: FileRow, c: FileRow | FileNameLe(a, b) && FileNameLe(b, c)
      ensures FileNameLe(a, c)
    {
      LexLeTransitive(a.name, b.name, c.name);
    }
  }

  /** The folder query: exactly the rows of `owner` whose parent is `parent`
      (`null` for the root), each once per row, by name ascending. */
  function ListedFolders(rows: seq<Folder>, owner: Id, parent: Option<Id>): (r: seq<Folder>)
    ensures forall f :: multiset(r)[f] == if f.userId == owner && f.parentId == parent then multiset(rows)[f] else 0
    ensures forall i, j :: 0 <= i < j < |r| ==> LexLe(r[i].name, r[j].name)
  {
    NameOrdersTotal();
    var r := SortBy(Filter(rows, (f: Folder) => f.userId == owner && f.parentId == parent), FolderNameLe);
    SortedPairwise(r, FolderNameLe);
    r
  }

  /** The file query: exactly the rows of `owner` in `folder` (`null` for the
      root), by name ascending. */
  function ListedFiles(rows: seq<FileRow>, owner: Id, folder: Option<Id>): (r: seq<FileRow>)
    ensures forall x :: multiset(r)[x] == if x.userId == owner && x.folderId == folder then multiset(rows)[x] else 0
    ensures forall i, j :: 0 <= i < j < |r| ==> LexLe(r[i].name, r[j].name)
  {
    NameOrdersTotal();
    var r := SortBy(Filter(rows, (x: FileRow) => x.userId == owner && x.folderId == folder), FileNameLe);
    SortedPairwise(r, FileNameLe);
    r
  }

  /** `_count.children`: the folders whose parent is `id`, whoever owns them. */
  function ChildCount(folders: seq<Folder>, id: Id): nat {
    |Filter(folders, (g: Folder) => g.parentId == Some(id))|
  }

  /** `_count.files`: the files whose folder is `id`, trashed or not. */
  function FileCount(files: seq<FileRow>, id: Id): nat {
    |Filter(files, (x: FileRow) => x.folderId == Some(id))|
  }

  /** A listed folder: the selected members and the two counts. */
  datatype FolderEntry = FolderEntry(id: Id, name: string, parentId: Option<Id>, createdAt: nat, updatedAt: nat,
                                     children: nat, files: nat)

  /** A listed file: the selected members. */
  datatype FileEntry = FileEntry(id: Id, name: string, mimeType: string, size: int, createdAt: nat, updatedAt: nat)

  datatype Listing = Listing(folders: seq<FolderEntry>, files: seq<FileEntry>)

  function FolderEntries(folders: seq<Folder>, files: seq<FileRow>, rows: seq<Folder>): (r: seq<FolderEntry>)
    ensures |r| == |rows|
    ensures forall i :: 0 <= i < |rows| ==>
      && r[i].id == rows[i].id && r[i].name == rows[i].name && r[i].parentId == rows[i].parentId
      && r[i].createdAt == rows[i].createdAt && r[i].updatedAt == rows[i].updatedAt
      && r[i].children == ChildCount(folders, rows[i].id) && r[i].files == FileCount(files, rows[i].id)
  {
    seq(|rows|, i requires 0 <= i < |rows| =>
      var f := rows[i];
      FolderEntry(f.id, f.name, f.parentId, f.createdAt, f.updatedAt, ChildCount(folders, f.id), FileCount(files, f.id)))
  }

  function FileEntries(rows: seq<FileRow>): (r: seq<FileEntry>)
    ensures |r| == |rows|
    ensures forall i :: 0 <= i < |rows| ==>
      r[i] == FileEntry(rows[i].id, rows[i].name, rows[i].mimeType, rows[i].size, rows[i].createdAt, rows[i].updatedAt)
  {
    seq(|rows|, i requires 0 <= i < |rows| =>
      var x := rows[i];
      FileEntry(x.id, x.name, x.mimeType, x.size, x.createdAt, x.updatedAt))
  }

  /** `GET /api/folders?parentId=…&includeFiles=…`. */
  function Get(db: Db, fmt: Formats, session: Option<Id>, parentParam: Option<string>, includeParam: Option<string>): (r: Response<Listing>)
    reads db
    ensures Principal(session).None? ==> r == Failure(401, "Unauthorized access", Some("AUTH_001"))
    ensures Principal(session).Some? && ListQuery(fmt, parentParam, includeParam).None? ==> r == Failure(500, GenericError, None)
    ensures r.Success? <==> Principal(session).Some? && ListQuery(fmt, parentParam, includeParam).Some?
    ensures r.Success? ==>
      var parent := TruthyField(ParamField(parentParam));
      && r.status == 200
      && r.data.folders == FolderEntries(db.folders, db.files, ListedFolders(db.folders, session.value, parent))
      && (includeParam == Some("true") ==> r.data.files == FileEntries(ListedFiles(db.files, session.value, parent)))
      && (includeParam != Some("true") ==> r.data.files == [])
  {
    var owner := Principal(session);
    if owner.None? then Catch(Raised(Raise(Unauthorized)), GenericError)
    else
      var query := ListQuery(fmt, parentParam, includeParam);
      if query.None? then Catch(Unexpected, GenericError)
      else
        var parent := TruthyField(query.value.parentId);
        var folders := FolderEntries(db.folders, db.files, ListedFolders(db.folders, owner.value, parent));
        var files := if query.value.includeFiles then FileEntries(ListedFiles(db.files, owner.value, parent)) else [];
        Success(200, Listing(folders, files))
  }

  /** What `POST` appends, `GET` lists: the new row is listed under its
      parent for its owner, and every other owner's or parent's listing is
      unchanged. */
  lemma CreatedFolderListed(rows: seq<Folder>, f: Folder, owner: Id, parent: Option<Id>)
    ensures f in ListedFolders(rows + [f], f.userId, f.parentId)
    ensures (owner != f.userId || parent != f.parentId) ==>
      multiset(ListedFolders(rows + [f], owner, parent)) == multiset(ListedFolders(rows, owner, parent))
  {
    AppendCount(rows, f);
    var mine := ListedFolders(rows + [f], f.userId, f.parentId);
    assert f in multiset(mine);
    if owner != f.userId || parent != f.parentId {
      var a := ListedFolders(rows + [f], owner, parent);
      var b := ListedFolders(rows, owner, parent);
      forall g: Folder ensures multiset(a)[g] == multiset(b)[g] {
        assert multiset(a)[g] == if g.userId == owner && g.parentId == parent then multiset(rows + [f])[g] else 0;
        assert multiset(b)[g] == if g.userId == owner && g.parentId == parent then multiset(rows)[g] else 0;
        AppendCountOther(rows, f, g);
      }
      assert multiset(a) == multiset(b);
    }
  }

  lemma AppendCount(rows: seq<Folder>, f: Folder)
    ensures multiset(ListedFolders(rows + [f], f.userId, f.parentId))[f] > 0
  {
    assert multiset(rows + [f]) == multiset(rows) + multiset{f};
  }

  lemma AppendCountOther(rows: seq<Folder>, f: Folder, g: Folder)
    ensures g != f ==> multiset(rows + [f])[g] == multiset(rows)[g]
  {
    assert multiset(rows + [f]) == multiset(rows) + multiset{f};
  }
}
