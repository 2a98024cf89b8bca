/** Display helpers for files: the icon chosen for a MIME type, whether a
    file can be previewed, and the unit a size is shown in. */
module FileUtils {
  import opened Strings

  datatype Icon = FileImage | FileVideo | FileAudio | FileIcon | FileText | FileArchive | FileCode

  predicate IsMedia(t: string) {
    StartsWith(t, "image/") || StartsWith(t, "video/") || StartsWith(t, "audio/")
  }

  predicate IsDocument(t: string) {
    || Contains(t, "document") || Contains(t, "word")
    || Contains(t, "spreadsheet") || Contains(t, "excel")
    || Contains(t, "presentation") || Contains(t, "powerpoint")
  }

  predicate IsArchive(t: string) {
    Contains(t, "zip") || Contains(t, "rar") || Contains(t, "tar") || Contains(t, "7z")
  }

  predicate IsCode(t: string) {
    Contains(t, "code") || Contains(t, "json") || Contains(t, "html") || Contains(t, "css") || Contains(t, "javascript")
  }

  /** `getFileTypeIcon`: tests in a fixed order, the first that matches wins. */
  function FileTypeIcon(t: string): Icon {
    if StartsWith(t, "image/") then FileImage
    else if StartsWith(t, "video/") then FileVideo
    else if StartsWith(t, "audio/") then FileAudio
    else if Contains(t, "pdf") then FileIcon
    else if Contains(t, "document") || Contains(t, "word") then FileText
    else if Contains(t, "spreadsheet") || Contains(t, "excel") then FileText
    else if Contains(t, "presentation") || Contains(t, "powerpoint") then FileText
    else if Contains(t, "zip") || Contains(t, "rar") || Contains(t, "tar") || Contains(t, "7z") then FileArchive
    else if Contains(t, "code") || Contains(t, "json") || Contains(t, "html") || Contains(t, "css") || Contains(t, "javascript") then FileCode
    else FileIcon
  }

  /** Which icon a type gets, stated per icon: a media prefix decides before
      any substring, "pdf" falls back to the generic icon, and the document,
      archive and code families follow in that order. */
  lemma IconClasses(t: string)
    ensures FileTypeIcon(t) == FileImage <==> StartsWith(t, "image/")
    ensures FileTypeIcon(t) == FileVideo <==> !StartsWith(t, "image/") && StartsWith(t, "video/")
    ensures FileTypeIcon(t) == FileAudio <==> !StartsWith(t, "image/") && !StartsWith(t, "video/") && StartsWith(t, "audio/")
    ensures FileTypeIcon(t) == FileText <==> !IsMedia(t) && !Contains(t, "pdf") && IsDocument(t)
    ensures FileTypeIcon(t) == FileArchive <==> !IsMedia(t) && !Contains(t, "pdf") && !IsDocument(t) && IsArchive(t)
    ensures FileTypeIcon(t) == FileCode <==> !IsMedia(t) && !Contains(t, "pdf") && !IsDocument(t) && !IsArchive(t) && IsCode(t)
    ensures FileTypeIcon(t) == FileIcon <==> !IsMedia(t) && (Contains(t, "pdf") || (!IsDocument(t) && !IsArchive(t) && !IsCode(t)))
  {
  }

  /** The media prefixes win over every substring test: an image type that
      names an archive is still an image. */
  lemma MediaPrefixFirst(rest: string)
    ensures FileTypeIcon("image/" + rest) == FileImage
    ensures FileTypeIcon("video/" + rest) == FileVideo
    ensures FileTypeIcon("audio/" + rest) == FileAudio
  {
    assert ("image/" + rest)[..6] == "image/";
    assert ("video/" + rest)[..6] == "video/";
    assert ("audio/" + rest)[..6] == "audio/";
  }

  /** The PDF type from the unit tests gets the generic icon, the same as a
      type nothing matches. */
  lemma PdfGetsGenericIcon()
    ensures FileTypeIcon("application/pdf") == FileIcon
  {
    ContainsAt("application/pdf", "pdf", 12);
    assert "application/pdf"[..6][1] == 'p' != "audio/"[1];
  }

  /** `canPreviewFile(fileType, fileExtension)`: the type is compared with the
      bare categories, the extension with the document extensions. */
  predicate CanPreviewFile(fileType: string, fileExtension: string) {
    || fileType == "image" || fileType == "video" || fileType == "audio"
    || fileExtension == "pdf"
    || fileExtension in ["doc", "docx", "xls", "xlsx", "ppt", "pptx"]
  }

  /** A full MIME type, one containing `/`, never matches a category, so
      such a file previews exactly when its extension is a document one. */
  lemma FullTypePreviewsByExtension(fileType: string, fileExtension: string)
    requires '/' in fileType
    ensures CanPreviewFile(fileType, fileExtension) <==>
      fileExtension in ["pdf", "doc", "docx", "xls", "xlsx", "ppt", "pptx"]
  {
    assert '/' !in "image" && '/' !in "video" && '/' !in "audio";
  }

  /** The comparison is exact: a full MIME type such as "image/jpeg" with no
      extension is not previewable, while its bare category is. */
  lemma PreviewNeedsBareCategory()
    ensures !CanPreviewFile("image/jpeg", "") && CanPreviewFile("image", "")
    ensures !CanPreviewFile("application/zip", "zip") && CanPreviewFile("", "docx")
  {
    assert "image/jpeg" != "image" && "image/jpeg" != "video" && "image/jpeg" != "audio";
  }

  function Pow1024(i: nat): (p: nat)
    ensures p >= 1
  {
    if i == 0 then 1 else 1024 * Pow1024(i - 1)
  }

  /** The exponent `formatFileSize` computes as
      `Math.floor(Math.log(bytes) / Math.log(1024))`, in exact arithmetic: the
      largest `i` with `1024^i <= bytes`. */
  function UnitIndex(bytes: nat): (i: nat)
    requires bytes > 0
    ensures Pow1024(i) <= bytes < Pow1024(i + 1)
    decreases bytes
  {
    if bytes < 1024 then 0 else 1 + UnitIndex(bytes / 1024)
  }

  /** The number shown is `bytes / 1024^i`; its whole part is between 1 and 1023. */
  lemma ScaledSizeInRange(bytes: nat)
    requires bytes > 0
    ensures 1 <= bytes / Pow1024(UnitIndex(bytes)) < 1024
  {
    var i := UnitIndex(bytes);
    var p := Pow1024(i);
    assert Pow1024(i + 1) == 1024 * p;
    DivBounds(bytes, p, 1024);
  }

  lemma DivBounds(b: nat, p: nat, k: nat)
    requires p >= 1 && k >= 1 && p <= b < k * p
    ensures 1 <= b / p < k
  {
    var q := b / p;
    assert b == q * p + b % p;
  }

  /** The unit table `["Bytes", "KB", "MB", "GB"]`; reading past its end
      gives `undefined`, which the string concatenation prints. */
  function UnitName(i: nat): string {
    if i == 0 then "Bytes" else if i == 1 then "KB" else if i == 2 then "MB" else if i == 3 then "GB" else "undefined"
  }

  /** The unit `formatFileSize` prints, as written: "Bytes" for zero, then the
      table entry at the computed exponent. */
  function SizeUnitAsWritten(bytes: nat): string {
    if bytes == 0 then "Bytes" else UnitName(UnitIndex(bytes))
  }

  /** Exactly the sizes below 1024^4 get a unit from the table; from one
      tebibyte on, the label is "undefined". */
  lemma {:induction false} AsWrittenUnitUndefinedFromTebibyte(bytes: nat)
    ensures SizeUnitAsWritten(bytes) != "undefined" <==> bytes < Pow1024(4)
  {
    if bytes > 0 {
      var i := UnitIndex(bytes);
      if i >= 4 {
        PowMonotone(4, i);
      } else {
        PowMonotone(i + 1, 4);
      }
    }
  }

  lemma {:induction false} PowMonotone(i: nat, j: nat)
    requires i <= j
    ensures Pow1024(i) <= Pow1024(j)
    decreases j
  {
    if i < j {
      PowMonotone(i, j - 1);
    }
  }

  /** The corrected unit: the exponent is clamped to the last table entry,
      so every size, however large, is labelled with a unit of the table. */
  function SizeUnit(bytes: nat): (u: string)
    ensures u in ["Bytes", "KB", "MB", "GB"]
    ensures bytes < Pow1024(4) ==> u == SizeUnitAsWritten(bytes)
  {
    AsWrittenUnitUndefinedFromTebibyte(bytes);
    if bytes == 0 then "Bytes"
    else var i := UnitIndex(bytes); UnitName(if i > 3 then 3 else i)
  }

  /** The boundaries the unit tests check: 1023 bytes stay in bytes, 1024 is
      one kilobyte, and each further factor of 1024 moves up one unit. */
  lemma SizeUnitExamples()
    ensures SizeUnit(0) == "Bytes" && SizeUnit(1023) == "Bytes" && SizeUnit(1024) == "KB"
    ensures SizeUnit(1048576) == "MB" && SizeUnit(1073741824) == "GB"
    ensures SizeUnitAsWritten(1099511627776) == "undefined" && SizeUnit(1099511627776) == "GB"
  {
    assert UnitIndex(1024) == 1 + UnitIndex(1);
    assert UnitIndex(1048576) == 1 + UnitIndex(1024);
    assert UnitIndex(1073741824) == 1 + UnitIndex(1048576);
    assert UnitIndex(1099511627776) == 1 + UnitIndex(1073741824);
  }
}
