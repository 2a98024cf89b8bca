/** Uploading a file's bytes to the blob store: the storage path built from
    the owner, the folder and a time-stamped name, the call to the store's
    `put`, and the id taken from the returned URL. */
module StorageUpload {
  import opened Common
  import opened Strings
  import opened ApiErrors

  /** The blob store's `put(path, file)`: the public URL and pathname of the
      stored blob, or a failure. The store itself is not modelled. */
  datatype PutResult = Stored(url: string, pathname: string) | PutFailed

  type Put = (string, FormFile) -> PutResult

  /** `{url, path, blobId}` returned to the caller. */
  datatype Blob = Blob(url: string, path: string, blobId: string)

  datatype UploadOutcome = Uploaded(blob: Blob) | UploadFailed(err: ApiError)

  /** `pathPrefix` as written: with a folder, `userId/folderId/`; without
      one, the bare user id with no separator. */
  function PathPrefixAsWritten(userId: Id, folderId: Option<Id>): string {
    if Truthy(folderId).Some? then userId + "/" + folderId.value + "/" else userId
  }

  /** `fileName`: `Date.now()`, the environment name and the original name,
      joined by dashes. */
  function BlobFileName(now: nat, env: string, file: FormFile): string {
    NatToDecimal(now) + "-" + env + "-" + file.name
  }

  function BlobPathAsWritten(userId: Id, folderId: Option<Id>, now: nat, env: string, file: FormFile): string {
    PathPrefixAsWritten(userId, folderId) + BlobFileName(now, env, file)
  }

  /** `blob.url.split('/').pop() || " "`: the URL's last segment, or a single
      space when that segment is empty. */
  function BlobIdOf(url: string): (id: string)
    ensures id != "" && '/' !in id
    ensures LastSegment(url) != "" ==> id == LastSegment(url) && EndsWith(url, id)
    ensures LastSegment(url) == "" ==> id == " "
  {
    var last := LastSegment(url);
    if last == "" then " " else last
  }

  /** Storing at a given path: a failed `put` becomes the storage error of
      the error table; a stored blob is reported with the store's own
      pathname, not the path that was asked for. */
  function PutAt(put: Put, path: string, file: FormFile): (r: UploadOutcome)
    ensures r.UploadFailed? <==> put(path, file).PutFailed?
    ensures r.UploadFailed? ==> r.err == Raise(StorageError)
    ensures r.Uploaded? ==> && r.blob.url == put(path, file).url
                            && r.blob.path == put(path, file).pathname
                            && r.blob.blobId == BlobIdOf(put(path, file).url)
  {
    match put(path, file)
    case Stored(url, pathname) => Uploaded(Blob(url, pathname, BlobIdOf(url)))
    case PutFailed => UploadFailed(Raise(StorageError))
  }

  /** `upload({file, userId, folderId})` as written. */
  function UploadAsWritten(put: Put, file: FormFile, userId: Id, folderId: Option<Id>, now: nat, env: string): UploadOutcome {
    PutAt(put, BlobPathAsWritten(userId, folderId, now, env, file), file)
  }

  /** With a folder the path is `userId/folderId/name`; without one the user
      id runs straight into the time-stamped name. Either way the original
      file name ends the path. */
  lemma AsWrittenPathShape(userId: Id, folderId: Option<Id>, now: nat, env: string, file: FormFile)
    ensures Truthy(folderId).Some? ==>
      BlobPathAsWritten(userId, folderId, now, env, file) == userId + "/" + folderId.value + "/" + BlobFileName(now, env, file)
    ensures Truthy(folderId).None? ==>
      BlobPathAsWritten(userId, folderId, now, env, file) == userId + BlobFileName(now, env, file)
    ensures EndsWith(BlobPathAsWritten(userId, folderId, now, env, file), file.name)
    ensures StartsWith(BlobFileName(now, env, file), NatToDecimal(now) + "-" + env + "-")
  {
    var p := BlobPathAsWritten(userId, folderId, now, env, file);
    assert p == (PathPrefixAsWritten(userId, folderId) + NatToDecimal(now) + "-" + env + "-") + file.name;
  }

  /** Without a folder, the written path does not tell owners apart: user
      "u1" uploading at time 23 and user "u12" uploading at time 3 ask the
      store for the same path. */
  lemma AsWrittenRootPathsCollide(env: string, file: FormFile)
    ensures "u1" != "u12"
    ensures BlobPathAsWritten("u1", None, 23, env, file) == BlobPathAsWritten("u12", None, 3, env, file)
  {
    assert NatToDecimal(23) == "23";
    assert NatToDecimal(3) == "3";
  }

  /** The corrected prefix: the owner's id is always followed by `/`. */
  function PathPrefix(userId: Id, folderId: Option<Id>): string {
    if Truthy(folderId).Some? then userId + "/" + folderId.value + "/" else userId + "/"
  }

  function BlobPath(userId: Id, folderId: Option<Id>, now: nat, env: string, file: FormFile): (p: string)
    ensures EndsWith(p, file.name)
  {
    var p := PathPrefix(userId, folderId) + BlobFileName(now, env, file);
    assert p == (PathPrefix(userId, folderId) + NatToDecimal(now) + "-" + env + "-") + file.name;
    p
  }

  /** `upload` with the corrected prefix. */
  function Upload(put: Put, file: FormFile, userId: Id, folderId: Option<Id>, now: nat, env: string): UploadOutcome {
    PutAt(put, BlobPath(userId, folderId, now, env, file), file)
  }

  /** Where a folder is given, the corrected upload is the upload as written. */
  lemma UploadAgreesInFolder(put: Put, file: FormFile, userId: Id, folderId: Option<Id>, now: nat, env: string)
    requires Truthy(folderId).Some?
    ensures BlobPath(userId, folderId, now, env, file) == BlobPathAsWritten(userId, folderId, now, env, file)
    ensures Upload(put, file, userId, folderId, now, env) == UploadAsWritten(put, file, userId, folderId, now, env)
  {
  }

  /** With the corrected prefix the path names its owner: two uploads by
      users whose ids contain no `/` reach the same path only if it is the
      same user, whatever their folders, times and names. */
  lemma BlobPathDeterminesOwner(u1: Id, f1: Option<Id>, t1: nat, file1: FormFile,
                                u2: Id, f2: Option<Id>, t2: nat, file2: FormFile, env: string)
    requires '/' !in u1 && '/' !in u2
    requires BlobPath(u1, f1, t1, env, file1) == BlobPath(u2, f2, t2, env, file2)
    ensures u1 == u2
  {
    var r1 := if Truthy(f1).Some? then f1.value + "/" + BlobFileName(t1, env, file1) else BlobFileName(t1, env, file1);
    var r2 := if Truthy(f2).Some? then f2.value + "/" + BlobFileName(t2, env, file2) else BlobFileName(t2, env, file2);
    assert BlobPath(u1, f1, t1, env, file1) == u1 + "/" + r1;
    assert BlobPath(u2, f2, t2, env, file2) == u2 + "/" + r2;
    OwnerBeforeFirstSlash(u1, r1, u2, r2);
  }

  /** A string `u + "/" + r` with no `/` in `u` determines `u`. */
  lemma OwnerBeforeFirstSlash(u1: string, r1: string, u2: string, r2: string)
    requires '/' !in u1 && '/' !in u2
    requires u1 + "/" + r1 == u2 + "/" + r2
    ensures u1 == u2
  {
    var s := u1 + "/" + r1;
    var n := if |u1| < |u2| then |u1| else |u2|;
    assert s[n] == (u2 + "/" + r2)[n];
    assert u1 == s[..|u1|] == u2;
  }
}
