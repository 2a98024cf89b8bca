/** The file schemas: a stored file, the create and update payloads, and the
    multipart upload (a file part plus a JSON metadata part). */
module FileSchemas {
  import opened Common
  import opened Strings
  import opened GeneralSchemas

  /** `fileSchema`. */
  datatype FileInput = FileInput(
    id: Field<string>, name: Field<string>, mimeType: Field<string>, size: Field<real>,
    url: Field<string>, storagePath: Field<string>, blobId: Field<string>,
    createdAt: Field<string>, updatedAt: Field<string>,
    userId: Field<string>, folderId: Field<string>)

  predicate PositiveSize(f: Field<real>) {
    f.Given? && PositiveInt(f.value)
  }

  predicate ValidFile(fmt: Formats, x: FileInput) {
    && OptionalCuid(fmt, x.id)
    && RequiredString(x.name, 1, Some(255))
    && RequiredString(x.mimeType, 1, None)
    && PositiveSize(x.size)
    && x.url.Given? && fmt.isUrl(x.url.value)
    && RequiredString(x.storagePath, 1, None)
    && RequiredString(x.blobId, 1, None)
    && OptionalDate(fmt, x.createdAt) && OptionalDate(fmt, x.updatedAt)
    && RequiredCuid(fmt, x.userId)
    && NullableCuid(fmt, x.folderId)
  }

  /** A stored file's name has 1 to 255 characters, its type is non-empty and
      its size is a whole number of at least one byte. */
  lemma ValidFileBounds(fmt: Formats, x: FileInput)
    requires ValidFile(fmt, x)
    ensures 1 <= JsLength(x.name.value) <= 255 && JsLength(x.mimeType.value) >= 1
    ensures x.size.value >= 1.0 && x.size.value == x.size.value.Floor as real
  {
  }

  /** `createFileSchema`: the stored members except id, dates and owner, plus
      a `userId` relaxed to any optional string. */
  datatype CreateFileInput = CreateFileInput(
    name: Field<string>, mimeType: Field<string>, size: Field<real>,
    url: Field<string>, storagePath: Field<string>, blobId: Field<string>,
    folderId: Field<string>, userId: Field<string>)

  predicate ValidCreateFile(fmt: Formats, x: CreateFileInput) {
    && RequiredString(x.name, 1, Some(255))
    && RequiredString(x.mimeType, 1, None)
    && PositiveSize(x.size)
    && x.url.Given? && fmt.isUrl(x.url.value)
    && RequiredString(x.storagePath, 1, None)
    && RequiredString(x.blobId, 1, None)
    && NullableCuid(fmt, x.folderId)
    && (x.userId.Absent? || x.userId.Given?)
  }

  /** The create payload keeps every picked rule of the stored-file schema and
      accepts an owner that is not an id, which the stored-file schema refuses. */
  lemma CreateFileRelaxesOwner(fmt: Formats, x: CreateFileInput, owner: string, other: string)
    requires fmt.isCuid(owner) && !fmt.isCuid(other)
    ensures ValidCreateFile(fmt, x.(userId := Given(other)))
        <==> ValidFile(fmt, FileInput(Absent, x.name, x.mimeType, x.size, x.url, x.storagePath, x.blobId,
                                      Absent, Absent, Given(owner), x.folderId))
    ensures !ValidFile(fmt, FileInput(Absent, x.name, x.mimeType, x.size, x.url, x.storagePath, x.blobId,
                                      Absent, Absent, Given(other), x.folderId))
  {
  }

  /** `updateFileSchema`: an id is required; `name` and `folderId` are
      optional, with the stored-file rules when present. */
  datatype UpdateFileInput = UpdateFileInput(id: Field<string>, name: Field<string>, folderId: Field<string>)

  predicate ValidUpdateFile(fmt: Formats, x: UpdateFileInput) {
    && RequiredCuid(fmt, x.id)
    && (x.name.Absent? || RequiredString(x.name, 1, Some(255)))
    && NullableCuid(fmt, x.folderId)
  }

  lemma UpdateFileOnlyIdRequired(fmt: Formats, x: UpdateFileInput)
    ensures ValidUpdateFile(fmt, x) ==> RequiredCuid(fmt, x.id)
    ensures RequiredCuid(fmt, x.id) ==> ValidUpdateFile(fmt, UpdateFileInput(x.id, Absent, Null))
    ensures ValidUpdateFile(fmt, x) && x.name.Given? ==> 1 <= JsLength(x.name.value) <= 255
  {
  }

  /** A multipart part: a `File`, or a plain text value. */
  datatype FormPart = FilePart(file: FormFile) | TextPart(text: string)

  /** `fileUploadSchema.metadata`. */
  datatype UploadMetadataInput = UploadMetadataInput(
    name: Field<string>, mimeType: Field<string>, size: Field<real>, folderId: Field<string>)

  datatype UploadMetadata = UploadMetadata(name: string, mimeType: string, size: int, folderId: Field<string>)

  predicate ValidUploadMetadata(fmt: Formats, x: UploadMetadataInput) {
    && RequiredString(x.name, 1, None)
    && RequiredString(x.mimeType, 1, None)
    && PositiveSize(x.size)
    && NullableCuid(fmt, x.folderId)
  }

  /** `fileUploadSchema`: the file part must be a `File`, and the metadata
      must pass its schema; the parsed metadata is returned. */
  function ParseFileUpload(fmt: Formats, file: FormPart, metadata: UploadMetadataInput): (r: Option<UploadMetadata>)
    ensures r.Some? <==> file.FilePart? && ValidUploadMetadata(fmt, metadata)
    ensures r.Some? ==> && r.value.name == metadata.name.value && r.value.mimeType == metadata.mimeType.value
                        && r.value.size >= 1 && r.value.size as real == metadata.size.value
                        && r.value.folderId == metadata.folderId
  {
    if file.FilePart? && ValidUploadMetadata(fmt, metadata)
    then Some(UploadMetadata(metadata.name.value, metadata.mimeType.value, metadata.size.value.Floor, metadata.folderId))
    else None
  }

  /** Unlike the stored-file schema, upload metadata puts no upper bound on
      the name: a 256-character name passes the upload and fails `fileSchema`. */
  lemma UploadNameUnbounded(fmt: Formats, name: string, x: FileInput)
    requires JsLength(name) > 255
    ensures ParseFileUpload(fmt, FilePart(FormFile(name, "t")), UploadMetadataInput(Given(name), Given("t"), Given(1.0), Absent)).Some?
    ensures !ValidFile(fmt, x.(name := Given(name)))
  {
  }
}
