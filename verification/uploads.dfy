/** The upload filename check: a filename is accepted when it has a dot and the
    text after its LAST dot, lower-cased, is one of the allowed extensions. */
module Uploads {
  import opened Optional
  import opened AsciiStrings
  import opened Configuration

  /** Position of the last '.' in `f`, if any. */
  function LastDot(f: string): (r: Option<nat>)
    ensures r.None? <==> '.' !in f
    ensures r.Some? ==> r.value < |f| && f[r.value] == '.' && '.' !in f[r.value + 1..]
  {
    if f == [] then None
    else if f[|f| - 1] == '.' then Some(|f| - 1)
    else
      var r := LastDot(f[..|f| - 1]);
      assert f == f[..|f| - 1] + [f[|f| - 1]];
      r
  }

  /** `f.rsplit('.', 1)[1]`: the text after the last dot. */
  function Extension(f: string): (e: string)
    requires '.' in f
    ensures '.' !in e
    ensures |e| < |f| && e == f[|f| - |e|..]
    ensures f[|f| - |e| - 1] == '.'
  {
    f[LastDot(f).value + 1..]
  }

  /** The position of the extension's dot is the last dot of `f`. */
  predicate LastDotAt(f: string, i: int) {
    0 <= i < |f| && f[i] == '.' && '.' !in f[i + 1..]
  }

  /** A string has at most one last dot, and `LastDot` finds it. */
  lemma LastDotAtUnique(f: string, i: int)
    requires LastDotAt(f, i)
    ensures LastDot(f) == Some(i)
  {
  }

  /** `allowed_file(f)`. The first clause is the headline case of the second:
      a name without a dot is refused. */
  function AllowedFile(f: string): (r: bool)
    ensures '.' !in f ==> !r
    ensures r <==> exists i :: LastDotAt(f, i) && Lower(f[i + 1..]) in AllowedExtensions
  {
    if '.' in f then
      LastDotOnly(f);
      Lower(Extension(f)) in AllowedExtensions
    else
      false
  }

  /** When `f` has a dot, `LastDot` names the one position satisfying `LastDotAt`. */
  lemma LastDotOnly(f: string)
    requires '.' in f
    ensures LastDot(f).Some? && LastDotAt(f, LastDot(f).value)
    ensures forall i :: LastDotAt(f, i) ==> i == LastDot(f).value
  {
    forall i | LastDotAt(f, i) ensures i == LastDot(f).value {
      LastDotAtUnique(f, i);
    }
  }

  /** Whatever the stem holds, dots included, only the part after the final dot
      decides: `stem + "." + ext` is accepted exactly when `ext` is an allowed
      extension in some mix of cases. */
  lemma AllowedFileDecidedByLastSegment(stem: string, ext: string)
    requires '.' !in ext
    ensures AllowedFile(stem + "." + ext) <==> Lower(ext) in AllowedExtensions
  {
    var f := stem + "." + ext;
    assert f[|stem| + 1..] == ext;
    assert LastDotAt(f, |stem|);
    LastDotAtUnique(f, |stem|);
  }

  /** Lower-casing never creates or removes a dot. */
  lemma LowerKeepsDots(s: string)
    ensures forall i :: 0 <= i < |s| ==> (Lower(s)[i] == '.' <==> s[i] == '.')
    ensures '.' in Lower(s) <==> '.' in s
  {
    if '.' in Lower(s) {
      var i :| 0 <= i < |s| && Lower(s)[i] == '.';
      assert s[i] == '.';
    }
  }

  /** The check ignores case: a filename and its lower-cased form are judged alike. */
  lemma AllowedFileCaseInsensitive(f: string)
    ensures AllowedFile(f) == AllowedFile(Lower(f))
  {
    LowerKeepsDots(f);
    var g := Lower(f);
    if '.' in f {
      var i := LastDot(f).value;
      var ext := f[i + 1..];
      LowerSlice(f, i + 1, |f|);
      assert g[i + 1..] == Lower(ext);
      LowerKeepsDots(ext);
      assert LastDotAt(g, i);
      LastDotAtUnique(g, i);
      assert Extension(g) == Lower(ext);
      LowerIdempotent(ext);
      assert Lower(Extension(g)) == Lower(Extension(f));
    }
  }

  /** The lower-cased extensions the examples below rely on. */
  lemma ExampleExtensions()
    ensures Lower("exe") !in AllowedExtensions && Lower("") !in AllowedExtensions
    ensures Lower("pdf") in AllowedExtensions && Lower("PDF") in AllowedExtensions
    ensures Lower("Docx") in AllowedExtensions
  {
    assert Lower("exe") == "exe";
    assert Lower("pdf") == "pdf";
    assert Lower("PDF") == "pdf";
    assert Lower("Docx") == "docx";
  }

  /** Only the last segment counts: a second extension after an allowed one is
      refused ("cv.pdf.exe"), an allowed one after a refused one is accepted
      ("cv.exe.pdf"). */
  lemma AllowedFileLastSegmentExamples()
    ensures !AllowedFile("cv.pdf" + "." + "exe")
    ensures AllowedFile("cv.exe" + "." + "pdf")
  {
    ExampleExtensions();
    AllowedFileDecidedByLastSegment("cv.pdf", "exe");
    AllowedFileDecidedByLastSegment("cv.exe", "pdf");
  }

  /** An upper-case extension is accepted ("CV.PDF"). */
  lemma AllowedFileUpperCaseExample()
    ensures AllowedFile("CV" + "." + "PDF")
  {
    ExampleExtensions();
    AllowedFileDecidedByLastSegment("CV", "PDF");
  }

  /** A mixed-case extension is accepted ("resume.Docx"). */
  lemma AllowedFileMixedCaseExample()
    ensures AllowedFile("resume" + "." + "Docx")
  {
    ExampleExtensions();
    AllowedFileDecidedByLastSegment("resume", "Docx");
  }

  /** An empty extension is refused ("cv."), an empty stem is not (".pdf"), and a
      name without a dot is refused even when it spells an extension. */
  lemma AllowedFileEdgeExamples()
    ensures !AllowedFile("cv" + "." + "")
    ensures AllowedFile("" + "." + "pdf")
    ensures !AllowedFile("pdf") && !AllowedFile("")
  {
    ExampleExtensions();
    AllowedFileDecidedByLastSegment("cv", "");
    AllowedFileDecidedByLastSegment("", "pdf");
  }
}
