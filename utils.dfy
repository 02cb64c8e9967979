/**
 * Attachment handling: how `read_file` classifies a downloaded file and
 * how `add_file_to_prompt` folds the attachment into a prompt. The MIME
 * type guess and the file's bytes, text and spreadsheet rendering are
 * inputs here (the file system and pandas are not modelled).
 */
module Utils {
  import opened Wrappers
  import opened State
  import Base64

  const ImageMimePrefix := "image/"
  const DataUrlPrefix := "data:image/png;base64,"
  const AudioIntro := "You can use following audio file to answer the question:\n"
  const InfoIntro := "You can use following information to answer the question:\n"
  const DownloadDir := "tmp"

  /** Where the text after the last dot of `name[..i]` starts (0 when it has no dot). */
  function AfterLastDot(name: string, i: nat): (r: nat)
    requires i <= |name|
    ensures r <= i
    ensures forall k :: r <= k < i ==> name[k] != '.'
    ensures r > 0 ==> name[r - 1] == '.'
  {
    if i == 0 then 0
    else if name[i - 1] == '.' then i
    else AfterLastDot(name, i - 1)
  }

  /** `name.split(".")[-1]`: the longest suffix of `name` without a dot. */
  function Extension(name: string): (ext: string)
    ensures |ext| <= |name| && ext == name[|name| - |ext|..]
    ensures '.' !in ext
    ensures |ext| < |name| ==> name[|name| - |ext| - 1] == '.'
  {
    var start := AfterLastDot(name, |name|);
    var ext := name[start..];
    assert forall k :: 0 <= k < |ext| ==> ext[k] == name[start + k];
    ext
  }

  /** A name without a dot is its own extension. */
  lemma ExtensionWithoutDot(name: string)
    requires '.' !in name
    ensures Extension(name) == name
  {
  }

  /** POSIX `os.path.join(dir, name)`: an absolute `name` discards `dir`. */
  function PathJoin(dir: string, name: string): (r: string)
    ensures |name| <= |r| && r[|r| - |name|..] == name
    ensures |name| > 0 && name[0] != '/' ==> r == dir + "/" + name
  {
    if |name| > 0 && name[0] == '/' then name else dir + "/" + name
  }

  /** What `read_file` returns: the kind of the file and its content. */
  datatype FileRead = FileRead(kind: string, content: FileData)

  /**
   * `read_file(file_name)`, given the MIME type the standard library guesses
   * for it and the file as bytes, as text and as a pandas table rendering.
   */
  function ReadFile(name: string, mime: Option<string>, raw: seq<Base64.Byte>, text: string, table: string): (r: FileRead)
    ensures (mime.Some? && ImageMimePrefix <= mime.value) ==> r == FileRead("image", Raw(raw))
    ensures !(mime.Some? && ImageMimePrefix <= mime.value) ==>
      var ext := Extension(name);
      && r.content.Decoded?
      && (ext == "" ==> r == FileRead("unknown", Decoded(text)))
      && (ext in {"xlsx", "xls"} ==> r == FileRead(ext, Decoded(table)))
      && (ext == "mp3" ==> r == FileRead("audio", Decoded("")))
      && (ext !in {"", "xlsx", "xls", "mp3"} ==> r == FileRead(ext, Decoded(text)))
  {
    if mime.Some? && ImageMimePrefix <= mime.value then FileRead("image", Raw(raw))
    else
      var ext := if Extension(name) == "" then "unknown" else Extension(name);
      if ext == "xlsx" || ext == "xls" then FileRead(ext, Decoded(table))
      else if ext == "mp3" then FileRead("audio", Decoded(""))
      else FileRead(ext, Decoded(text))
  }

  /**
   * The attachment fields look as the driver sets them from `read_file`:
   * with a file name there is content, and raw bytes only under kind "image".
   */
  predicate FromReadFile(s: TaskState) {
    s.fileName != "" ==> !s.fileContent.Absent? && (s.fileContent.Raw? ==> s.fileType == "image")
  }

  /**
   * `base64.b64encode` raises on text: a file whose extension is "image" but
   * whose MIME type is not an image type has kind "image" and text content.
   */
  predicate EncodeRaises(s: TaskState) {
    s.fileName != "" && s.fileType == "image" && !s.fileContent.Raw?
  }

  /** Whatever `read_file` returns meets FromReadFile. */
  lemma ReadFileFits(s: TaskState, mime: Option<string>, raw: seq<Base64.Byte>, text: string, table: string)
    requires s.fileName != ""
    requires var f := ReadFile(s.fileName, mime, raw, text, table); s.fileType == f.kind && s.fileContent == f.content
    ensures FromReadFile(s)
  {
  }

  /**
   * `add_file_to_prompt(prompt, state)`: the content parts of a message.
   * The prompt text always comes first; an image follows it as a data URL.
   */
  function AddFileToPrompt(prompt: string, s: TaskState): (parts: seq<Part>)
    requires FromReadFile(s) && !EncodeRaises(s)
    ensures 1 <= |parts| <= 2 && parts[0].TextPart? && prompt <= parts[0].text
    ensures s.fileName == "" ==> parts == [TextPart(prompt)]
    ensures s.fileName != "" && s.fileType == "image" ==>
      && |parts| == 2 && parts[0] == TextPart(prompt) && parts[1].ImageUrlPart?
      && parts[1].url == DataUrlPrefix + Base64.Encode(s.fileContent.bytes)
      && DataUrlPrefix <= parts[1].url
      && Base64.Decode(parts[1].url[|DataUrlPrefix|..]) == Some(s.fileContent.bytes)
    ensures s.fileName != "" && s.fileType == "audio" ==>
      parts == [TextPart(prompt + AudioIntro + PathJoin(DownloadDir, s.fileName))]
    ensures s.fileName != "" && s.fileType !in {"image", "audio"} ==>
      parts == [TextPart(prompt + InfoIntro + s.fileContent.text)]
  {
    if s.fileName == "" then [TextPart(prompt)]
    else if s.fileType == "image" then
      var encoded := Base64.Encode(s.fileContent.bytes);
      Base64.DecodeEncode(s.fileContent.bytes);
      assert (DataUrlPrefix + encoded)[|DataUrlPrefix|..] == encoded;
      [TextPart(prompt), ImageUrlPart(DataUrlPrefix + encoded)]
    else if s.fileType == "audio" then [TextPart(prompt + AudioIntro + PathJoin(DownloadDir, s.fileName))]
    else [TextPart(prompt + InfoIntro + s.fileContent.text)]
  }
}
