/** Turning an uploaded file into the `{ mimeType, data }` payload sent to the extractor:
    size guards, the byte-to-binary-string fold, `btoa`, and the MIME-type lookup. */
module FileProcessor {
  import opened Common
  import opened Strings
  import opened Base64

  /** A browser `File`: its name, its declared MIME type (`''` when the browser knows none) and its bytes. */
  datatype File = File(name: string, declaredType: string, content: seq<byte>) {
    function Size(): nat {
      |content|
    }
  }

  /** What `readFileAsBase64` resolves to. */
  datatype Payload = Payload(mimeType: string, data: string)

  const MaxSize: nat := 20 * 1024 * 1024
  const EmptyMessage := "File is empty"
  const TooLargeMessage := "File size exceeds maximum limit of 20MB"
  const UnsupportedMessage := "Unsupported file type"
  const ReadFailedPrefix := "Failed to read file: "
  const Latin1Message := "The string to be encoded contains characters outside of the Latin1 range."

  /** The extension table of `getMimeType`. */
  const MimeTypes: map<string, string> := map[
    "pdf" := "application/pdf",
    "png" := "image/png",
    "jpg" := "image/jpeg",
    "jpeg" := "image/jpeg",
    "xlsx" := "application/vnd.openxmlformats-officedocument.spreadsheetml.sheet",
    "xls" := "application/vnd.ms-excel",
    "txt" := "text/plain",
    "csv" := "text/csv",
    "doc" := "application/msword",
    "docx" := "application/vnd.openxmlformats-officedocument.wordprocessingml.document"
  ]

  /** The `reduce` that appends `String.fromCharCode(byte)` for each byte, left to right. */
  function BinaryString(bytes: seq<byte>): (s: string)
    ensures |s| == |bytes|
    ensures forall i :: 0 <= i < |bytes| ==> s[i] as int == bytes[i]
  {
    if bytes == [] then ""
    else BinaryString(bytes[..|bytes| - 1]) + [bytes[|bytes| - 1] as char]
  }

  predicate IsLatin1(s: string) {
    forall i :: 0 <= i < |s| ==> s[i] as int < 256
  }

  /** The bytes a Latin-1 string stands for, one per character. */
  function CharCodes(s: string): (b: seq<byte>)
    requires IsLatin1(s)
    ensures |b| == |s|
  {
    seq(|s|, i requires 0 <= i < |s| => s[i] as int)
  }

  /** `btoa(s)`: the base64 text of the string's character codes; characters above 255 are refused. */
  function Btoa(s: string): (r: Result<string>)
    ensures r.Ok? <==> IsLatin1(s)
    ensures r.Ok? ==> Decode(r.value) == Some(CharCodes(s))
    ensures r.Err? ==> r.error.OtherError?
  {
    if IsLatin1(s) then
      DecodeEncode(CharCodes(s));
      Ok(Encode(CharCodes(s)))
    else Err(OtherError(Latin1Message))
  }

  /** `name.split('.').pop()`: what follows the last dot, or the whole name when there is none. */
  function Extension(name: string): (r: string)
    ensures '.' !in r
    ensures |r| <= |name| && r == name[|name| - |r|..]
    ensures |r| < |name| ==> name[|name| - |r| - 1] == '.'
    ensures '.' !in name ==> r == name
  {
    if name == [] then ""
    else if name[|name| - 1] == '.' then ""
    else Extension(name[..|name| - 1]) + [name[|name| - 1]]
  }

  /** `getMimeType`: the declared type when there is one, otherwise the table entry for the
      lower-cased extension, and "Unsupported file type" when the table has none. */
  function GetMimeType(file: File): (r: Result<string>)
    ensures file.declaredType != "" ==> r == Ok(file.declaredType)
    ensures file.declaredType == "" ==>
      var ext := Extension(LowerCase(file.name));
      r == if ext in MimeTypes then Ok(MimeTypes[ext])
           else Err(FileProcessingError(UnsupportedMessage, file.name))
  {
    if file.declaredType != "" then Ok(file.declaredType)
    else
      var ext := Extension(LowerCase(file.name));
      if ext in MimeTypes then Ok(MimeTypes[ext])
      else Err(FileProcessingError(UnsupportedMessage, file.name))
  }

  /** The body of the `try` in `readFileAsBase64`. */
  function ReadBody(file: File): Result<Payload> {
    if file.Size() == 0 then Err(FileProcessingError(EmptyMessage, file.name))
    else if file.Size() > MaxSize then Err(FileProcessingError(TooLargeMessage, file.name))
    else
      var data :- Btoa(BinaryString(file.content));
      var mimeType :- GetMimeType(file);
      Ok(Payload(mimeType, data))
  }

  /** The `catch`: a `FileProcessingError` passes through, anything else becomes one. */
  function CatchRead<T>(r: Result<T>, fileName: string): (c: Result<T>)
    ensures r.Ok? ==> c == r
    ensures r.Err? && r.error.FileProcessingError? ==> c == r
    ensures r.Err? ==> c.Err? && c.error.FileProcessingError?
    ensures r.Err? && !r.error.FileProcessingError? ==>
              c == Err(FileProcessingError(ReadFailedPrefix + r.error.message, fileName))
  {
    match r
    case Ok(_) => r
    case Err(e) =>
      if e.FileProcessingError? then r
      else Err(FileProcessingError(ReadFailedPrefix + e.message, fileName))
  }

  /** `readFileAsBase64`. The guards run in order (empty, then over 20 MB), before the MIME lookup. */
  function ReadFileAsBase64(file: File): (r: Result<Payload>)
    ensures file.Size() == 0 ==> r == Err(FileProcessingError(EmptyMessage, file.name))
    ensures 0 < file.Size() && file.Size() > MaxSize ==> r == Err(FileProcessingError(TooLargeMessage, file.name))
    ensures 0 < file.Size() <= MaxSize ==>
      match GetMimeType(file)
      case Ok(m) => r.Ok? && r.value.mimeType == m
      case Err(e) => r == Err(e)
    ensures r.Ok? ==> 0 < file.Size() <= MaxSize && Decode(r.value.data) == Some(file.content)
    ensures r.Err? ==> r.error.FileProcessingError? && r.error.fileName == file.name
  {
    BinaryStringCodes(file.content);
    CatchRead(ReadBody(file), file.name)
  }

  lemma BinaryStringCodes(bytes: seq<byte>)
    ensures IsLatin1(BinaryString(bytes)) && CharCodes(BinaryString(bytes)) == bytes
  {
  }

  /** A non-empty file within the limit whose type is declared, or whose extension is in the table,
      always encodes. */
  lemma SupportedFileEncodes(file: File)
    requires 0 < file.Size() <= MaxSize
    requires file.declaredType != "" || Extension(LowerCase(file.name)) in MimeTypes
    ensures ReadFileAsBase64(file).Ok?
  {
  }
}
