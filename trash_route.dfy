/** `PATCH /api/files/trash`: moving one of the caller's files to the trash
    or out of it, in place. */
module TrashRoute {
  import opened Common
  import opened ApiErrors
  import opened Store

  /** The only message this handler fails with: its catch block answers
      every error, an `ApiError` included, with a code-less 500. */
  const GenericError := "Internal Server Error"

  /** The JSON body `{fileId, trashed}`; `trashed` may be missing. */
  datatype TrashBody = TrashBody(fileId: Field<string>, trashed: Field<bool>)

  /** The update's data on one row: `trashed` as sent (kept when the member
      is missing), `trashedAt` the current time when `trashed` is true and
      null otherwise. */
  function SetTrashed(x: FileRow, trashed: Option<bool>, now: nat): (y: FileRow)
    ensures y.trashed == (if trashed.Some? then trashed.value else x.trashed)
    ensures y.trashedAt == (if trashed == Some(true) then Some(now) else None)
    ensures y.(trashed := x.trashed, trashedAt := x.trashedAt) == x
  {
    x.(trashed := if trashed.Some? then trashed.value else x.trashed,
       trashedAt := if trashed == Some(true) then Some(now) else None)
  }

  /** Trashing and then restoring clears both members, whatever they were,
      and gives back an untrashed row exactly. */
  lemma TrashThenRestore(x: FileRow, t1: nat, t2: nat)
    ensures SetTrashed(SetTrashed(x, Some(true), t1), Some(false), t2) == x.(trashed := false, trashedAt := None)
    ensures !x.trashed && x.trashedAt.None? ==> SetTrashed(SetTrashed(x, Some(true), t1), Some(false), t2) == x
  {
  }

  /** Nothing is required of the current state: sending the same value
      twice is the same as sending it once at the later time, so
      re-trashing a trashed file only moves `trashedAt` forward. */
  lemma RepeatIsLatest(x: FileRow, b: Option<bool>, t1: nat, t2: nat)
    ensures SetTrashed(SetTrashed(x, b, t1), b, t2) == SetTrashed(x, b, t2)
    ensures x.trashed ==> SetTrashed(x, Some(true), t2).trashedAt == Some(t2)
  {
  }

  /** The row the update addresses: the given id, owned by the caller. */
  predicate Addressed(rows: seq<FileRow>, owner: Id, id: Id) {
    exists i :: 0 <= i < |rows| && rows[i].id == id && rows[i].userId == owner
  }

  /** The table after the update: the addressed row changed as `SetTrashed`
      says, every other row as it was. */
  function UpdatedFiles(rows: seq<FileRow>, id: Id, trashed: Option<bool>, now: nat): (r: seq<FileRow>)
    ensures |r| == |rows|
    ensures forall j :: 0 <= j < |rows| ==> r[j] == if rows[j].id == id then SetTrashed(rows[j], trashed, now) else rows[j]
  {
    seq(|rows|, j requires 0 <= j < |rows| => if rows[j].id == id then SetTrashed(rows[j], trashed, now) else rows[j])
  }

  /** `PATCH /api/files/trash`. */
  method Patch(db: Db, session: Option<Id>, body: TrashBody, now: nat) returns (r: Response<FileRow>)
    requires db.Valid()
    modifies db
    ensures db.Valid()
    ensures db.users == old(db.users) && db.folders == old(db.folders) && db.blobs == old(db.blobs)
    ensures r.Success? <==>
      && Principal(session).Some? && body.fileId.Given? && !body.trashed.Null?
      && Addressed(old(db.files), session.value, body.fileId.value)
    ensures !r.Success? ==> r == Failure(500, GenericError, None) && db.files == old(db.files)
    ensures r.Success? ==>
      var trashed := if body.trashed.Given? then Some(body.trashed.value) else None;
      && r.status == 200
      && db.files == UpdatedFiles(old(db.files), body.fileId.value, trashed, now)
      && r.data.id == body.fileId.value && r.data.userId == session.value
      && r.data in db.files
      && FindOwnedFile(old(db.files), body.fileId.value, session.value).Some?
      && r.data == SetTrashed(old(db.files)[FindOwnedFile(old(db.files), body.fileId.value, session.value).value], trashed, now)
      && r.data.trashedAt == (if trashed == Some(true) then Some(now) else None)
  {
    var owner := Principal(session);
    if owner.None? {
      // the 401 `ApiError` thrown here reaches the catch-all like any other error
      return Failure(500, GenericError, None);
    }
    if !body.fileId.Given? || body.trashed.Null? {
      return Failure(500, GenericError, None);
    }
    var i := FindOwnedFile(db.files, body.fileId.value, owner.value);
    if i.None? {
      return Failure(500, GenericError, None);
    }
    var trashed := if body.trashed.Given? then Some(body.trashed.value) else None;
    var rows := UpdatedFiles(db.files, body.fileId.value, trashed, now);
    forall x | x in rows && x.folderId.Some?
      ensures OwnsFolder(db.folders, x.userId, x.folderId.value)
    {
      var j :| 0 <= j < |rows| && rows[j] == x;
      assert db.files[j] in db.files;
    }
    db.files := rows;
    r := Success(200, rows[i.value]);
  }
}
