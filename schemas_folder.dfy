/** The folder schemas: a stored folder, the create and update payloads, and
    the listing query. */
module FolderSchemas {
  import opened Common
  import opened Strings
  import opened GeneralSchemas

  /** `z.string().min(1).max(255)`: the bounds count UTF-16 code units. */
  predicate FolderName(s: string) {
    1 <= JsLength(s) <= 255
  }

  /** `folderSchema`. */
  datatype FolderInput = FolderInput(
    id: Field<string>, name: Field<string>,
    createdAt: Field<string>, updatedAt: Field<string>,
    userId: Field<string>, parentId: Field<string>)

  predicate ValidFolder(fmt: Formats, x: FolderInput) {
    && OptionalCuid(fmt, x.id)
    && x.name.Given? && FolderName(x.name.value)
    && OptionalDate(fmt, x.createdAt) && OptionalDate(fmt, x.updatedAt)
    && RequiredCuid(fmt, x.userId)
    && NullableCuid(fmt, x.parentId)
  }

  /** `createFolderSchema`: `name` and `parentId` picked from the folder
      schema, plus a `userId` relaxed to any optional string. */
  datatype CreateFolderInput = CreateFolderInput(name: Field<string>, parentId: Field<string>, userId: Field<string>)

  datatype CreateFolder = CreateFolder(name: string, parentId: Field<string>)

  function ParseCreateFolder(fmt: Formats, x: CreateFolderInput): (r: Option<CreateFolder>)
    ensures r.Some? <==> x.name.Given? && FolderName(x.name.value) && NullableCuid(fmt, x.parentId) && !x.userId.Null?
    ensures r.Some? ==> r.value.name == x.name.value && r.value.parentId == x.parentId
  {
    if x.name.Given? && FolderName(x.name.value) && NullableCuid(fmt, x.parentId) && !x.userId.Null?
    then Some(CreateFolder(x.name.value, x.parentId))
    else None
  }

  /** The bound counts code units, not characters: 127 copies of an astral
      character (254 units) make an accepted name, 200 copies (400 units)
      a refused one. */
  lemma AstralNameCountsTwice(fmt: Formats, c: char)
    requires Astral(c)
    ensures ParseCreateFolder(fmt, CreateFolderInput(Given(seq(127, _ => c)), Absent, Absent)).Some?
    ensures ParseCreateFolder(fmt, CreateFolderInput(Given(seq(200, _ => c)), Absent, Absent)).None?
  {
    AstralRunLength(c, 127);
    AstralRunLength(c, 200);
  }

  /** The picked members keep the folder schema's rules (a name of 1 to 255
      code units, an absent, null or id parent) while the owner becomes any
      string: a create payload is accepted exactly when a folder with the same
      name and parent and a well-formed owner would be. */
  lemma CreateFolderKeepsFolderRules(fmt: Formats, name: Field<string>, parentId: Field<string>, owner: string, other: string)
    requires fmt.isCuid(owner) && !fmt.isCuid(other)
    ensures ParseCreateFolder(fmt, CreateFolderInput(name, parentId, Given(other))).Some?
        <==> ValidFolder(fmt, FolderInput(Absent, name, Absent, Absent, Given(owner), parentId))
    ensures !ValidFolder(fmt, FolderInput(Absent, name, Absent, Absent, Given(other), parentId))
  {
  }

  /** `updateFolderSchema`: an id is required; `name` and `parentId` are
      optional, with the folder schema's rules when present. */
  datatype UpdateFolderInput = UpdateFolderInput(id: Field<string>, name: Field<string>, parentId: Field<string>)

  predicate ValidUpdateFolder(fmt: Formats, x: UpdateFolderInput) {
    && RequiredCuid(fmt, x.id)
    && (x.name.Absent? || (x.name.Given? && FolderName(x.name.value)))
    && NullableCuid(fmt, x.parentId)
  }

  /** An update may leave out everything but the id, and never the id. */
  lemma UpdateFolderOnlyIdRequired(fmt: Formats, x: UpdateFolderInput)
    ensures ValidUpdateFolder(fmt, x) ==> RequiredCuid(fmt, x.id)
    ensures RequiredCuid(fmt, x.id) ==> ValidUpdateFolder(fmt, UpdateFolderInput(x.id, Absent, Absent))
    ensures ValidUpdateFolder(fmt, x) && x.name.Given? ==> 1 <= JsLength(x.name.value) <= 255
  {
  }

  /** `folderQuerySchema`. */
  datatype FolderQueryInput = FolderQueryInput(parentId: Field<string>, includeFiles: Field<bool>)

  datatype FolderQuery = FolderQuery(parentId: Field<string>, includeFiles: bool)

  function ParseFolderQuery(fmt: Formats, x: FolderQueryInput): (r: Option<FolderQuery>)
    ensures r.Some? <==> NullableCuid(fmt, x.parentId) && !x.includeFiles.Null?
    ensures r.Some? ==> r.value.parentId == x.parentId
    ensures r.Some? ==> (r.value.includeFiles <==> x.includeFiles == Given(true))
  {
    if NullableCuid(fmt, x.parentId) && !x.includeFiles.Null?
    then Some(FolderQuery(x.parentId, x.includeFiles.Given? && x.includeFiles.value))
    else None
  }

  /** `includeFiles` defaults to false, and a query with no parent is always
      accepted. */
  lemma FolderQueryDefaults(fmt: Formats)
    ensures ParseFolderQuery(fmt, FolderQueryInput(Absent, Absent)) == Some(FolderQuery(Absent, false))
    ensures ParseFolderQuery(fmt, FolderQueryInput(Null, Given(true))) == Some(FolderQuery(Null, true))
  {
  }
}
