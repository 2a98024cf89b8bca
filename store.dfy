/** The relational store the route handlers talk to: the user, folder and
    file tables, held as sequences of rows in one object that the handlers
    update, together with the set of blob pathnames the blob store holds. */
module Store {
  import opened Common

  datatype User = User(id: Id, name: Option<string>, email: string, passwordHash: Option<string>)

  /** A folder row; `parentId` is `null` for a folder at the root. Times are
      the clock's milliseconds. */
  datatype Folder = Folder(id: Id, name: string, userId: Id, parentId: Option<Id>, createdAt: nat, updatedAt: nat)

  /** A file row; `folderId` is `null` for a file at the root. */
  datatype FileRow = FileRow(
    id: Id, name: string, mimeType: string, size: int,
    url: string, storagePath: string, blobId: string,
    userId: Id, folderId: Option<Id>,
    createdAt: nat, updatedAt: nat,
    trashed: bool, trashedAt: Option<nat>)

  predicate UniqueFolderIds(rows: seq<Folder>) {
    forall i, j :: 0 <= i < j < |rows| ==> rows[i].id != rows[j].id
  }

  predicate UniqueFileIds(rows: seq<FileRow>) {
    forall i, j :: 0 <= i < j < |rows| ==> rows[i].id != rows[j].id
  }

  predicate UniqueUsers(rows: seq<User>) {
    forall i, j :: 0 <= i < j < |rows| ==> rows[i].id != rows[j].id && rows[i].email != rows[j].email
  }

  /** Some folder of `owner` has this id. */
  predicate OwnsFolder(rows: seq<Folder>, owner: Id, id: Id) {
    exists g :: g in rows && g.id == id && g.userId == owner
  }

  /** The hierarchy rule: a folder's parent, and a file's folder, when not
      null, is a folder of the same owner. */
  predicate ParentsOwned(folders: seq<Folder>) {
    forall f :: f in folders && f.parentId.Some? ==> OwnsFolder(folders, f.userId, f.parentId.value)
  }

  predicate FoldersOwned(folders: seq<Folder>, files: seq<FileRow>) {
    forall x :: x in files && x.folderId.Some? ==> OwnsFolder(folders, x.userId, x.folderId.value)
  }

  /** `findFirst({where: {id, userId: owner}})` on the folder table. */
  function FindOwnedFolder(rows: seq<Folder>, id: Id, owner: Id): (r: Option<Folder>)
    ensures r.Some? ==> r.value in rows && r.value.id == id && r.value.userId == owner
    ensures r.None? <==> !OwnsFolder(rows, owner, id)
  {
    if rows == [] then None
    else if rows[0].id == id && rows[0].userId == owner then Some(rows[0])
    else
      assert rows == [rows[0]] + rows[1..];
      FindOwnedFolder(rows[1..], id, owner)
  }

  /** Where the row with this id and owner sits in the file table. */
  function FindOwnedFile(rows: seq<FileRow>, id: Id, owner: Id): (r: Option<nat>)
    ensures r.Some? ==> r.value < |rows| && rows[r.value].id == id && rows[r.value].userId == owner
    ensures r.None? <==> forall i :: 0 <= i < |rows| ==> !(rows[i].id == id && rows[i].userId == owner)
  {
    if rows == [] then None
    else if rows[0].id == id && rows[0].userId == owner then Some(0)
    else
      var rest := FindOwnedFile(rows[1..], id, owner);
      if rest.Some? then Some(rest.value + 1) else None
  }

  /** `findUnique({where: {email}})` on the user table. */
  function FindUserByEmail(rows: seq<User>, email: string): (r: Option<User>)
    ensures r.Some? ==> r.value in rows && r.value.email == email
    ensures r.None? <==> forall u :: u in rows ==> u.email != email
  {
    if rows == [] then None
    else if rows[0].email == email then Some(rows[0])
    else
      assert rows == [rows[0]] + rows[1..];
      FindUserByEmail(rows[1..], email)
  }

  class Db {
    var users: seq<User>
    var folders: seq<Folder>
    var files: seq<FileRow>
    /** Pathnames of the blobs the blob store holds. */
    var blobs: set<string>

    /** What the tables guarantee between requests: unique ids, unique
        e-mails, and the hierarchy rule. */
    ghost predicate Valid()
      reads this
    {
      && UniqueUsers(users)
      && UniqueFolderIds(folders) && UniqueFileIds(files)
      && ParentsOwned(folders) && FoldersOwned(folders, files)
    }

    /** A new, empty store. */
    constructor ()
      ensures Valid()
      ensures users == [] && folders == [] && files == [] && blobs == {}
    {
      users, folders, files, blobs := [], [], [], {};
    }

    /** An id no row of any table uses: a run of `c` longer than every id in
        the store, standing in for the database's generated cuid. */
    method NewId() returns (id: Id)
      ensures forall u :: u in users ==> u.id != id
      ensures forall f :: f in folders ==> f.id != id
      ensures forall x :: x in files ==> x.id != id
      ensures id != ""
    {
      var longest: nat := 0;
      var i := 0;
      while i < |users|
        invariant 0 <= i <= |users|
        invariant forall k :: 0 <= k < i ==> |users[k].id| <= longest
      {
        if |users[i].id| > longest { longest := |users[i].id|; }
        i := i + 1;
      }
      i := 0;
      while i < |folders|
        invariant 0 <= i <= |folders|
        invariant forall k :: 0 <= k < |users| ==> |users[k].id| <= longest
        invariant forall k :: 0 <= k < i ==> |folders[k].id| <= longest
      {
        if |folders[i].id| > longest { longest := |folders[i].id|; }
        i := i + 1;
      }
      i := 0;
      while i < |files|
        invariant 0 <= i <= |files|
        invariant forall k :: 0 <= k < |users| ==> |users[k].id| <= longest
        invariant forall k :: 0 <= k < |folders| ==> |folders[k].id| <= longest
        invariant forall k :: 0 <= k < i ==> |files[k].id| <= longest
      {
        if |files[i].id| > longest { longest := |files[i].id|; }
        i := i + 1;
      }
      id := seq(longest + 1, _ => 'c');
    }
  }
}
