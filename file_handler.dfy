/** `validate_file` of utils/file_handler.py: an upload is accepted by the
    text after the last dot of its name, compared without regard to case
    against a fixed set of extensions. */
module FileHandler {
  import opened Text
  import opened Values

  const AllowedExtensions: set<string> := {"csv", "xlsx", "xls", "json"}

  /** The position of the last dot, which `rsplit('.', 1)` splits at. */
  function LastDot(s: string): (r: Option<nat>)
    ensures r.None? <==> forall j :: 0 <= j < |s| ==> s[j] != '.'
    ensures r.Some? ==> r.value < |s| && s[r.value] == '.'
                        && forall j :: r.value < j < |s| ==> s[j] != '.'
  {
    if s == [] then None
    else if s[|s| - 1] == '.' then Some(|s| - 1)
    else LastDot(s[..|s| - 1])
  }

  /** `filename.rsplit('.', 1)[1]`, defined when the name holds a dot. */
  function Extension(filename: string): string
    requires '.' in filename
  {
    filename[LastDot(filename).value + 1..]
  }

  /** `validate_file`. */
  predicate ValidateFile(filename: string) {
    '.' in filename && Lower(Extension(filename)) in AllowedExtensions
  }

  /** A name without a dot is refused. */
  lemma NoDotRefused(filename: string)
    requires '.' !in filename
    ensures !ValidateFile(filename)
  {
  }

  /** A dot-free ending after a dot. */
  predicate EndsAfterDot(filename: string, i: int) {
    0 <= i < |filename| && filename[i] == '.' && '.' !in filename[i + 1..]
  }

  /** Independent statement: a name is accepted exactly when it splits into
      a stem, a dot and a dot-free ending whose lower-case form is allowed. */
  lemma ValidateFileIff(filename: string)
    ensures ValidateFile(filename) <==>
      exists i :: EndsAfterDot(filename, i) && Lower(filename[i + 1..]) in AllowedExtensions
  {
    if ValidateFile(filename) {
      AcceptedEnding(filename);
    }
    forall i | EndsAfterDot(filename, i) && Lower(filename[i + 1..]) in AllowedExtensions
      ensures ValidateFile(filename)
    {
      EndingIsExtension(filename, i);
    }
  }

  lemma AcceptedEnding(filename: string)
    requires '.' in filename
    ensures EndsAfterDot(filename, LastDot(filename).value)
  {
    var i := LastDot(filename).value;
    var tail := filename[i + 1..];
    assert forall j :: 0 <= j < |tail| ==> tail[j] == filename[i + 1 + j];
  }

  /** The dot before a dot-free ending is the last one. */
  lemma EndingIsExtension(filename: string, i: int)
    requires EndsAfterDot(filename, i)
    ensures '.' in filename && LastDot(filename).value == i
  {
    assert filename[i] in filename;
  }

  /** Only the ending after the last dot decides: a stem and a dot-free ending. */
  lemma LastSuffixDecides(stem: string, ext: string)
    requires '.' !in ext
    ensures ValidateFile(stem + "." + ext) <==> Lower(ext) in AllowedExtensions
  {
    var f := stem + "." + ext;
    assert f[|stem|] == '.';
    assert f[|stem| + 1..] == ext;
    ValidateFileIff(f);
  }

  /** The extension is compared in lower case: "a.CSV" is accepted ... */
  lemma UpperCaseAccepted()
    ensures ValidateFile("a.CSV")
  {
    LastSuffixDecides("a", "CSV");
    assert Lower("CSV") == "csv";
  }

  /** ... "a.exe.csv" is accepted ... */
  lemma InnerDotIgnored()
    ensures ValidateFile("a.exe.csv")
  {
    LastSuffixDecides("a.exe", "csv");
    assert "a.exe" + "." + "csv" == "a.exe.csv";
    LowerCsv();
  }

  /** ... "a.csv.exe" is refused ... */
  lemma LastSuffixCounts()
    ensures !ValidateFile("a.csv.exe")
  {
    LastSuffixDecides("a.csv", "exe");
    assert "a.csv" + "." + "exe" == "a.csv.exe";
    LowerExe();
  }

  lemma LowerCsv()
    ensures Lower("csv") == "csv"
  {
  }

  lemma LowerExe()
    ensures Lower("exe") == "exe" && "exe" !in AllowedExtensions
  {
    assert "exe"[0] != "csv"[0] && "exe"[0] != "xlsx"[0] && "exe"[0] != "xls"[0] && "exe"[0] != "json"[0];
  }

  /** ... and a trailing dot leaves an empty extension, which is refused. */
  lemma TrailingDotRefused(stem: string)
    ensures !ValidateFile(stem + ".")
  {
    LastSuffixDecides(stem, "");
    assert stem + "." + "" == stem + ".";
  }
}
