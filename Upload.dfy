/** backend/middleware/uploadMiddleware.js: the upload filter that admits
    only `.pdf` and `.txt` files, and the name under which an upload is
    stored. The clock is a parameter; the storage directory, its creation
    and the size limit belong to the upload library's configuration and are
    not part of this model.

    `path.extname` is Node's POSIX version: trailing slashes are ignored, the
    extension is taken from the last path segment, starts at its last dot,
    and is empty when that dot is the segment's first character or the
    segment is `..`. */
module Upload {
  import opened Common

  datatype Decision = Accept | Reject(error: string)

  const AllowedTypes: seq<string> := [".pdf", ".txt"]

  /** The name without its trailing slashes. */
  function StripTrailingSlashes(p: string): (r: string)
    ensures |r| <= |p| && r == p[..|r|]
    ensures r == [] || r[|r| - 1] != '/'
    ensures forall i :: |r| <= i < |p| ==> p[i] == '/'
  {
    if p != [] && p[|p| - 1] == '/' then StripTrailingSlashes(p[..|p| - 1]) else p
  }

  /** The index of the last `c` in `s`, or -1 when there is none. */
  function LastIndex(s: string, c: char): (k: int)
    ensures -1 <= k < |s|
    ensures k >= 0 ==> s[k] == c
    ensures forall j :: k < j < |s| ==> s[j] != c
  {
    if s == [] then -1
    else if s[|s| - 1] == c then |s| - 1
    else LastIndex(s[..|s| - 1], c)
  }

  /** The last path segment. */
  function Base(p: string): string {
    var t := StripTrailingSlashes(p);
    t[LastIndex(t, '/') + 1..]
  }

  /** `path.extname(p)`. */
  function Extname(p: string): string {
    var b := Base(p);
    var d := LastIndex(b, '.');
    if d <= 0 || b == ".." then "" else b[d..]
  }

  /** An extension is empty or a dot followed by no dot and no slash, and it
      ends the name once trailing slashes are dropped. */
  lemma ExtnameShape(p: string)
    ensures var e := Extname(p);
      && (e == [] || (e[0] == '.' && '.' !in e[1..] && '/' !in e))
      && EndsWith(StripTrailingSlashes(p), e)
  {
    var t := StripTrailingSlashes(p);
    var b := Base(p);
    assert '/' !in b;
    assert EndsWith(t, b);
    var d := LastIndex(b, '.');
    if d > 0 && b != ".." {
      assert b[d..][1..] == b[d + 1..];
      assert t[|t| - |b[d..]|..] == b[d..];
    }
  }

  const RejectMessage := "Invalid file type. Only " + Join(AllowedTypes, ", ") + " are allowed"

  /** `fileFilter`: the lower-cased extension must be one of the allowed types. */
  function FileFilter(originalname: string): (r: Decision)
    ensures r == Accept <==> Lower(Extname(originalname)) in AllowedTypes
    ensures r.Reject? ==> r.error == RejectMessage
  {
    if Lower(Extname(originalname)) in AllowedTypes then Accept else Reject(RejectMessage)
  }

  /** The message names both types. */
  lemma RejectMessageText()
    ensures RejectMessage == "Invalid file type. Only .pdf, .txt are allowed"
  {
    assert Join([".txt"], ", ") == ".txt";
  }

  /** Lower-casing a suffix is the suffix of the lower-cased text. */
  lemma LowerSuffix(s: string, e: string)
    requires EndsWith(s, e)
    ensures EndsWith(Lower(s), Lower(e))
  {
    assert Lower(s)[|s| - |e|..] == Lower(e);
  }

  /** An accepted upload's name ends, ignoring case and trailing slashes, in
      `.pdf` or `.txt`. */
  lemma AcceptedNamesEndInAllowedType(originalname: string)
    requires FileFilter(originalname) == Accept
    ensures var l := Lower(StripTrailingSlashes(originalname));
      EndsWith(l, ".pdf") || EndsWith(l, ".txt")
  {
    var t, e := StripTrailingSlashes(originalname), Extname(originalname);
    ExtnameShape(originalname);
    LowerSuffix(t, e);
    assert Lower(e) == ".pdf" || Lower(e) == ".txt";
  }

  /** Conversely, a plain file name with something before an allowed
      extension, in any case, is accepted. */
  lemma PlainNamesWithAllowedTypeAccepted(originalname: string)
    requires '/' !in originalname && |originalname| > 4
    requires Lower(originalname[|originalname| - 4..]) in AllowedTypes
    ensures FileFilter(originalname) == Accept
  {
    var n := |originalname|;
    var tail := originalname[n - 4..];
    assert LowerChar(tail[0]) == '.';
    assert originalname[n - 4] == '.';
    assert StripTrailingSlashes(originalname) == originalname;
    assert LastIndex(originalname, '/') == -1;
    assert Base(originalname) == originalname;
    forall j | n - 4 < j < n
      ensures originalname[j] != '.'
    {
      assert Lower(tail)[j - (n - 4)] == LowerChar(originalname[j]) != '.';
    }
    assert LastIndex(originalname, '.') == n - 4;
    assert Extname(originalname) == tail;
  }

  /** The last occurrence, characterised by its position. */
  lemma LastIndexAt(s: string, c: char, k: int)
    requires -1 <= k < |s| && (k >= 0 ==> s[k] == c)
    requires forall j :: k < j < |s| ==> s[j] != c
    ensures LastIndex(s, c) == k
  {
  }

  /** A name without slashes is its own last segment. */
  lemma NoSlashIsBase(p: string)
    requires '/' !in p
    ensures Base(p) == p
  {
    assert p == [] || p[|p| - 1] != '/';
    assert StripTrailingSlashes(p) == p;
    LastIndexAt(p, '/', -1);
  }

  /** Upper-case extensions are accepted. */
  lemma UpperCaseAccepted(p: string)
    requires p == "REPORT.PDF"
    ensures FileFilter(p) == Accept
  {
    assert p[|p| - 4..] == ".PDF";
    assert Lower(".PDF") == ".pdf";
    PlainNamesWithAllowedTypeAccepted(p);
  }

  /** Trailing slashes are dropped before the extension is taken, as
      `path.extname` does: `notes.Txt/` is accepted. */
  lemma TrailingSlashIgnored(p: string)
    requires p == "notes.Txt/"
    ensures Extname(p) == ".Txt"
    ensures FileFilter(p) == Accept
  {
    var t := p[..|p| - 1];
    assert StripTrailingSlashes(t) == t;
    assert StripTrailingSlashes(p) == t;
    LastIndexAt(t, '/', -1);
    assert Base(p) == t;
    LastIndexAt(t, '.', 5);
    assert t[5..] == ".Txt";
    assert Lower(".Txt") == ".txt";
  }

  /** Only the last extension counts. */
  lemma LastExtensionDecides(p: string)
    requires p == "a.pdf.exe"
    ensures Extname(p) == ".exe"
    ensures FileFilter(p).Reject?
  {
    ExeExtension(p);
    ExeRejected(Extname(p));
  }

  lemma ExeExtension(p: string)
    requires p == "a.pdf.exe"
    ensures Extname(p) == ".exe"
  {
    assert |p| == 9 && p[5] == '.' && p[6] == 'e' && p[7] == 'x' && p[8] == 'e';
    assert forall j :: 0 <= j < |p| ==> p[j] != '/';
    assert '/' !in p;
    assert p != "..";
    assert forall j :: 5 < j < |p| ==> p[j] != '.';
    ExtnameOfPlainName(p, 5);
    assert p[5..] == ".exe";
  }

  lemma ExeRejected(e: string)
    requires e == ".exe"
    ensures Lower(e) !in AllowedTypes
  {
    assert Lower(e)[1] == 'e';
    assert AllowedTypes[0][1] == 'p' && AllowedTypes[1][1] == 't';
  }

  /** The extension of a plain file name starts at its last dot. */
  lemma ExtnameOfPlainName(p: string, d: int)
    requires '/' !in p && p != ".."
    requires 0 < d < |p| && p[d] == '.'
    requires forall j :: d < j < |p| ==> p[j] != '.'
    ensures Extname(p) == p[d..]
  {
    NoSlashIsBase(p);
    LastIndexAt(p, '.', d);
  }

  /** A plain name with no dot after its first character has no
      extension, so it is rejected: a dot file such as `.pdf` included. */
  lemma NoInnerDotRejected(p: string)
    requires '/' !in p
    requires forall j :: 0 < j < |p| ==> p[j] != '.'
    ensures FileFilter(p).Reject?
  {
    NoSlashIsBase(p);
    var d := LastIndex(p, '.');
    assert d <= 0;
    assert Extname(p) == [];
    assert |Lower(Extname(p))| == 0;
    assert |AllowedTypes[0]| == 4 && |AllowedTypes[1]| == 4;
  }

  lemma DotFileHasNoExtension(p: string)
    requires p == ".pdf"
    ensures FileFilter(p).Reject?
  {
    NoInnerDotRejected(p);
  }

  lemma NoDotNoExtension(p: string)
    requires p == "report"
    ensures FileFilter(p).Reject?
  {
    NoInnerDotRejected(p);
  }

  /** `${Date.now()}-${file.originalname}`. */
  function StoredFilename(now: nat, originalname: string): (r: string)
    ensures |r| > |originalname| && r[|r| - |originalname|..] == originalname
  {
    NatToString(now) + "-" + originalname
  }

  /** In digits followed by `-`, the first `-` ends the digits. */
  lemma FirstDash(a: string, x: string)
    requires forall i :: 0 <= i < |a| ==> IsDigit(a[i])
    ensures forall i :: 0 <= i < |a| ==> (a + "-" + x)[i] != '-'
    ensures (a + "-" + x)[|a|] == '-'
  {
  }

  /** The first `-` of a stored name ends the timestamp. */
  lemma DigitsThenDash(a: string, x: string, b: string, y: string)
    requires forall i :: 0 <= i < |a| ==> IsDigit(a[i])
    requires forall i :: 0 <= i < |b| ==> IsDigit(b[i])
    requires a + "-" + x == b + "-" + y
    ensures a == b && x == y
  {
    var s := a + "-" + x;
    FirstDash(a, x);
    FirstDash(b, y);
    assert |a| == |b|;
    assert a == s[..|a|] == b;
    assert x == s[|a| + 1..] == y;
  }

  /** Stored names determine both the time and the original name, so two
      uploads at different milliseconds, or of different names, never share
      a stored file. */
  lemma StoredFilenameInjective(now1: nat, name1: string, now2: nat, name2: string)
    requires StoredFilename(now1, name1) == StoredFilename(now2, name2)
    ensures now1 == now2 && name1 == name2
  {
    DigitsThenDash(NatToString(now1), name1, NatToString(now2), name2);
    NatToStringInjective(now1, now2);
  }
}
