/** The upload filter of POST /api/upload: which file names are accepted. */
module Upload {
  import opened Wrappers
  import opened Text

  const ALLOWED_EXTENSIONS: set<string> := {"mp4", "webm", "ogg"}

  /**
    `allowed_file`: the name contains a dot and the text after the last dot,
    lower-cased, is an allowed extension.
  */
  function AllowedFile(filename: string): (ok: bool)
    ensures ok <==> exists i :: 0 <= i < |filename| && filename[i] == '.'
                               && '.' !in filename[i + 1..]
                               && Lower(filename[i + 1..]) in ALLOWED_EXTENSIONS
  {
    match LastIndexOf(filename, '.')
    case None =>
      assert forall i :: 0 <= i < |filename| ==> filename[i] != '.';
      false
    case Some(d) =>
      LastOccurrenceUnique(filename, '.', d);
      var ext := filename[d + 1..];
      assert Lower(ext) in ALLOWED_EXTENSIONS ==> filename[d] == '.' && '.' !in filename[d + 1..];
      Lower(ext) in ALLOWED_EXTENSIONS
  }

  /** The extension is compared case-insensitively. */
  lemma UpperCaseExtension()
    ensures AllowedFile("a.b.MP4")
  {
    LastIndexOfUnique("a.b.MP4", '.', 3);
    assert "a.b.MP4"[4..] == "MP4";
    assert Lower("MP4") == "mp4";
  }

  /** A bare extension without a dot is refused. */
  lemma NoDot()
    ensures !AllowedFile("mp4")
  {
    assert '.' !in "mp4";
  }

  /** A trailing dot leaves an empty extension, which is refused. */
  lemma TrailingDot()
    ensures !AllowedFile("a.")
  {
    LastIndexOfUnique("a.", '.', 1);
    assert "a."[2..] == "";
  }

  /** Only the text after the last dot counts. */
  lemma OnlyLastExtension()
    ensures !AllowedFile("a.mp4.exe")
  {
    LastIndexOfUnique("a.mp4.exe", '.', 5);
    assert "a.mp4.exe"[6..] == "exe";
    assert LowerChar('e') == 'e';
    assert Lower("exe")[0] == 'e';
    assert Lower("exe") !in ALLOWED_EXTENSIONS;
  }

  /** What the upload route answers, before the file is saved. */
  datatype UploadReply =
    | NoFile       // 400 {"msg": "No file"}
    | InvalidType  // 400 {"msg": "Invalid type"}
    | Accepted     // 201, the file is then saved under its secured name
  {
    function Status(): nat
    {
      match this
      case NoFile => 400
      case InvalidType => 400
      case Accepted => 201
    }
  }

  /** `upload_video`'s decision for the form field `file` (None when absent). */
  function UploadDecision(filename: Option<string>): (r: UploadReply)
    ensures r == NoFile <==> filename.None? || filename == Some("")
    ensures r == Accepted <==> filename.Some? && AllowedFile(filename.value)
    ensures r == InvalidType <==> filename.Some? && filename.value != "" && !AllowedFile(filename.value)
  {
    if filename.None? || filename.value == "" then NoFile
    else if !AllowedFile(filename.value) then InvalidType
    else Accepted
  }
}
