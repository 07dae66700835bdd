/** The upload widget: file validation, the default `accept` attribute, and the upload state. */
module FileUpload {
  import opened Wrappers
  import opened Text
  import opened Seqs

  /** A chosen file: its name, size in bytes and MIME type. */
  datatype File = File(name: string, size: nat, mime: string)

  /** The server's answer to an upload. */
  datatype Uploaded = Uploaded(fileUrl: string, filename: string)

  const MiB: nat := 1024 * 1024

  /** The `accept` entries: the prop split on ',' with each entry trimmed. */
  function AcceptEntries(accept: string): (r: seq<string>)
    ensures |r| == |Split(accept, ',')|
    ensures forall i :: 0 <= i < |r| ==> r[i] == Trim(Split(accept, ',')[i])
  {
    Map(Split(accept, ','), Trim)
  }

  /** One entry against a file: an entry starting with '.' is a case-insensitive suffix of the
    * name; any other entry is a MIME pattern, matched by `mimeMatches` (the regular expression
    * built from the entry is not modelled). */
  predicate EntryMatches(entry: string, f: File, mimeMatches: (string, string) -> bool)
  {
    if StartsWith(entry, ".") then EndsWith(Lower(f.name), Lower(entry)) else mimeMatches(f.mime, entry)
  }

  predicate AnyEntryMatches(entries: seq<string>, f: File, mimeMatches: (string, string) -> bool)
  {
    exists i :: 0 <= i < |entries| && EntryMatches(entries[i], f, mimeMatches)
  }

  datatype Verdict = Accepted | TooLarge(message: string) | WrongType(message: string)

  /** `validateFile`: the size limit first, then, when `accept` is given and non-empty, the type. */
  function Validate(f: File, maxSize: nat, accept: Option<string>, mimeMatches: (string, string) -> bool): (r: Verdict)
    ensures r.TooLarge? <==> f.size > maxSize * MiB
    ensures r.WrongType? <==> (f.size <= maxSize * MiB && accept.Some? && accept.value != "" &&
      !AnyEntryMatches(AcceptEntries(accept.value), f, mimeMatches))
    ensures r.TooLarge? ==> r.message == "文件大小不能超过 " + NatToString(maxSize) + "MB"
    ensures r.WrongType? ==> r.message == "不支持的文件类型。支持的格式: " + accept.value
  {
    if f.size > maxSize * MiB then TooLarge("文件大小不能超过 " + NatToString(maxSize) + "MB")
    else if accept.Some? && accept.value != "" && !AnyEntryMatches(AcceptEntries(accept.value), f, mimeMatches) then
      WrongType("不支持的文件类型。支持的格式: " + accept.value)
    else Accepted
  }

  /** A file of exactly the limit passes the size check; one byte more does not. */
  lemma SizeLimitBoundary(name: string, mime: string, maxSize: nat, mimeMatches: (string, string) -> bool)
    ensures Validate(File(name, maxSize * MiB, mime), maxSize, None, mimeMatches) == Accepted
    ensures Validate(File(name, maxSize * MiB + 1, mime), maxSize, None, mimeMatches).TooLarge?
  {
  }

  /** The entries of " .mp4": the single entry ".mp4". */
  lemma SingleEntry()
    ensures AcceptEntries(" .mp4") == [".mp4"]
  {
    assert ',' !in " .mp4";
    EntriesWithoutComma(" .mp4");
    TrimmedEntry();
  }

  lemma EntriesWithoutComma(accept: string)
    requires ',' !in accept
    ensures AcceptEntries(accept) == [Trim(accept)]
  {
    assert Split(accept, ',') == [accept];
  }

  lemma TrimmedEntry()
    ensures Trim(" .mp4") == ".mp4"
  {
    assert " .mp4" == " " + ".mp4";
    TrimStartSkipsSpaces(" ", ".mp4");
    assert TrimEnd(".mp4") == ".mp4";
  }

  lemma LowerName()
    ensures Lower("A.MP4") == "a.mp4"
  {
  }

  /** An extension entry matches the name whatever the case of either, and spaces around the
    * entries of `accept` do not matter: "A.MP4" passes " .mp4". */
  lemma ExtensionMatchIgnoresCase(mimeMatches: (string, string) -> bool)
    ensures Validate(File("A.MP4", 1, "video/mp4"), 10, Some(" .mp4"), mimeMatches) == Accepted
  {
    SingleEntry();
    LowerName();
    assert Lower(".mp4") == ".mp4";
    assert EntryMatches(".mp4", File("A.MP4", 1, "video/mp4"), mimeMatches);
  }

  /** `getDefaultAccept`: fixed for images and videos, otherwise the prop or '*' + '/' + '*'. */
  function DefaultAccept(kind: string, accept: Option<string>): (r: string)
    ensures kind == "image" ==> r == "image/*"
    ensures kind == "video" ==> r == "video/*"
    ensures kind != "image" && kind != "video" && accept.Some? && accept.value != "" ==> r == accept.value
    ensures kind != "image" && kind != "video" && (accept.None? || accept.value == "") ==> r == "*/*"
  {
    if kind == "image" then "image/*"
    else if kind == "video" then "video/*"
    else if accept.Some? && accept.value != "" then accept.value
    else "*/*"
  }

  class Widget {
    const maxSize: nat
    const accept: Option<string>
    var isUploading: bool
    var progress: nat
    var uploaded: Option<Uploaded>
    var error: Option<string>

    /** Progress is shown exactly while an upload is marked as running. */
    predicate Consistent()
      reads this
    {
      (isUploading <==> progress != 0) && progress <= 100
    }

    constructor (maxSize: nat, accept: Option<string>)
      ensures this.maxSize == maxSize && this.accept == accept
      ensures !isUploading && progress == 0 && uploaded == None && error == None
      ensures Consistent()
    {
      this.maxSize := maxSize;
      this.accept := accept;
      isUploading := false;
      progress := 0;
      uploaded := None;
      error := None;
    }

    /** `handleFileUpload` with the outcome of `onUpload` (`Err` carrying the thrown message, if
      * any). A rejected file sets the error and makes no upload call; a successful upload shows
      * full progress and hands the same result to `onFileUploaded`; a failed one resets the
      * progress. */
    method Upload(f: File, mimeMatches: (string, string) -> bool, outcome: Result<Uploaded, Option<string>>)
      returns (called: bool, delivered: Option<Uploaded>)
      requires Consistent()
      modifies this
      ensures Consistent()
      ensures called <==> Validate(f, maxSize, accept, mimeMatches) == Accepted
      ensures !called ==> (error == Some(Validate(f, maxSize, accept, mimeMatches).message) &&
        isUploading == old(isUploading) && progress == old(progress) && uploaded == old(uploaded) && delivered.None?)
      ensures called && outcome.Ok? ==> (isUploading && progress == 100 && uploaded == Some(outcome.value) &&
        delivered == uploaded && error == None)
      ensures called && outcome.Err? ==> (!isUploading && progress == 0 && uploaded == old(uploaded) &&
        delivered.None? && error == Some(outcome.error.GetOr("文件上传失败，请重试")))
    {
      var verdict := Validate(f, maxSize, accept, mimeMatches);
      delivered := None;
      if verdict != Accepted {
        error := Some(verdict.message);
        return false, None;
      }
      called := true;
      error := None;
      isUploading := true;
      progress := 50;
      match outcome
      case Ok(result) =>
        progress := 100;
        uploaded := Some(result);
        delivered := Some(result);
      case Err(message) =>
        error := Some(message.GetOr("文件上传失败，请重试"));
        isUploading := false;
        progress := 0;
    }

    /** The timer set after a successful upload. */
    method FinishAfterDelay()
      modifies this
      ensures !isUploading && progress == 0 && Consistent()
      ensures uploaded == old(uploaded) && error == old(error)
    {
      isUploading := false;
      progress := 0;
    }

    /** `removeUploadedFile`. */
    method Remove()
      requires Consistent()
      modifies this
      ensures uploaded == None && error == None && Consistent()
      ensures isUploading == old(isUploading) && progress == old(progress)
    {
      uploaded := None;
      error := None;
    }
  }
}
