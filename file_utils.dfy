/** Resume file checks: the type and size validator used by the upload
    widget, and the filename-extension helper. */
module FileUtils {
  import opened Wrappers
  import opened ApplicationTypes
  import opened Validation
  import opened JsString

  /** The kinds of file error; `Unknown` is declared but never produced. */
  datatype FileErrorKind = Size | Format | Unknown

  datatype FileValidationError = FileValidationError(kind: FileErrorKind, message: string)

  const FORMAT_MESSAGE := "Please upload a PDF or Word document (.pdf, .doc, .docx)"
  const SIZE_MESSAGE := "File size must be less than 10MB"

  /** The declared MIME type is one of the three allowed ones. */
  function IsValidFileType(f: File): (b: bool)
    ensures b <==> (f.mimeType == "application/pdf" || f.mimeType == "application/msword"
                    || f.mimeType == "application/vnd.openxmlformats-officedocument.wordprocessingml.document")
  {
    f.mimeType in ALLOWED_FILE_TYPES
  }

  /** Checks the type first and the size second; `None` means the file is
      acceptable. */
  function ValidateFile(f: File): (r: Option<FileValidationError>)
    ensures r.None? <==> IsValidFileType(f) && f.size <= 10485760
    ensures r.Some? ==> r.value.kind != Unknown
    ensures (r.Some? && r.value.kind == Format) <==> !IsValidFileType(f)
    ensures (r.Some? && r.value.kind == Size) <==> IsValidFileType(f) && 10485760 < f.size
    ensures r.Some? && r.value.kind == Format ==> r.value.message == FORMAT_MESSAGE
    ensures r.Some? && r.value.kind == Size ==> r.value.message == SIZE_MESSAGE
  {
    if !(f.mimeType in ALLOWED_FILE_TYPES) then
      Some(FileValidationError(Format, FORMAT_MESSAGE))
    else if f.size > MAX_FILE_SIZE then
      Some(FileValidationError(Size, SIZE_MESSAGE))
    else
      None
  }

  /** The validator and the form's file schema accept the same files. */
  lemma ValidateFileAgreesWithFileSchema(f: File)
    ensures ValidateFile(f).None? <==> FileSchema(f)
  {
  }

  /** The type wins over the size: an oversized file of a wrong type is
      reported as a format error. */
  lemma FormatCheckedFirst(f: File)
    requires !IsValidFileType(f) && f.size > MAX_FILE_SIZE
    ensures ValidateFile(f) == Some(FileValidationError(Format, FORMAT_MESSAGE))
  {
  }

  /** The size bound is inclusive: exactly 10 MiB passes, one byte more fails. */
  lemma SizeBoundInclusive(name: string, mimeType: string)
    requires mimeType in ALLOWED_FILE_TYPES
    ensures ValidateFile(File(name, mimeType, 10485760)) == None
    ensures ValidateFile(File(name, mimeType, 10485761)) == Some(FileValidationError(Size, SIZE_MESSAGE))
  {
  }

  /** The extension of a file name, as the source computes it: one past the
      last '.', shifted through an unsigned 32-bit conversion so that a
      missing dot (index -1) and a leading dot (index 0) both land past the
      end of the string. It is always a suffix of the name, and holds no dot
      for every name a JavaScript engine can allocate (at most 2^32 units). */
  function GetFileExtension(filename: string): (r: string)
    ensures |r| <= |filename| && r == filename[|filename| - |r|..]
    ensures |filename| <= 0x1_0000_0000 ==> '.' !in r
  {
    var last := LastIndexOf(filename, '.');
    var start := ToUint32(last - 1) + 2;
    assert |filename| <= 0x1_0000_0000 ==> start == if last < 1 then last + 0x1_0000_0001 else last + 1;
    assert start < |filename| && last < start ==> filename[start..] == filename[last + 1..][start - last - 1..];
    Slice(filename, start)
  }

  /** No dot at all, or a dot only in front, gives the empty extension. The
      bound on the length holds for every string a JavaScript engine can
      allocate. */
  lemma ExtensionWithoutInnerDot(filename: string)
    requires |filename| <= 0x1_0000_0000
    requires '.' !in filename || (filename[0] == '.' && '.' !in filename[1..])
    ensures GetFileExtension(filename) == ""
  {
    var i := LastIndexOf(filename, '.');
    if '.' in filename {
      assert filename == [filename[0]] + filename[1..];
      assert i == 0;
    }
  }

  /** With its last dot at index `i >= 1`, a name splits into the part before
      the dot, the dot, and the extension, which holds no dot; a trailing dot
      gives the empty extension. */
  lemma ExtensionAfterLastDot(filename: string, i: nat)
    requires |filename| <= 0x1_0000_0000
    requires 1 <= i < |filename| && filename[i] == '.' && '.' !in filename[i + 1..]
    ensures GetFileExtension(filename) == filename[i + 1..]
    ensures '.' !in GetFileExtension(filename)
    ensures filename == filename[..i] + "." + GetFileExtension(filename)
    ensures i == |filename| - 1 ==> GetFileExtension(filename) == ""
  {
    var last := LastIndexOf(filename, '.');
    assert filename[i] in filename[last + 1..] || last >= i;
    assert filename == filename[..i] + "." + filename[i + 1..];
  }
}
