/**
 * The upload middleware: which MIME types are accepted, the name a stored
 * upload gets, the size limit, and the removal of temporary files.
 */
module Upload {
  import opened Wrappers
  import opened JsText
  import opened Http

  // ---------------------------------------------------------------------
  // The file filter

  const AllowedMimeTypes: seq<string> := ["image/png", "image/jpg", "image/jpeg", "image/webp", "application/pdf"]

  const UnsupportedFormat :=
    ApiError(BadRequest, "Unsupported file format. Only PNG, JPG, JPEG, WEBP and PDF are allowed.")

  /** `fileFilter`: the callback's answer, accept or the 400 error. Only the
      MIME type is consulted. */
  function FileFilter(mimetype: string): (r: Result<bool, ApiError>)
    ensures r.Success? <==> mimetype in AllowedMimeTypes
    ensures r.Success? ==> r.value
    ensures r.Failure? ==> r.error == UnsupportedFormat
  {
    if mimetype == "image/png" || mimetype == "image/jpg" || mimetype == "image/jpeg"
       || mimetype == "image/webp" || mimetype == "application/pdf"
    then Success(true)
    else Failure(UnsupportedFormat)
  }

  /** The limit handed to multer, in bytes. */
  const MaxFileSize := 5 * 1024 * 1024

  // ---------------------------------------------------------------------
  // The stored name

  predicate NoDotOrSlash(s: string)
  {
    forall k :: 0 <= k < |s| ==> s[k] != '.' && s[k] != '/'
  }

  /** The path without its trailing `/`s. */
  function StripTrailingSlashes(s: string): (r: string)
    ensures r <= s
    ensures r == [] || r[|r| - 1] != '/'
    ensures forall k :: |r| <= k < |s| ==> s[k] == '/'
  {
    if s == [] || s[|s| - 1] != '/' then s else StripTrailingSlashes(s[..|s| - 1])
  }

  /** The index of the last `c`, or -1. */
  function LastIndex(b: string, c: char): (r: int)
    ensures -1 <= r < |b|
    ensures r >= 0 ==> b[r] == c && forall k :: r < k < |b| ==> b[k] != c
    ensures r == -1 ==> forall k :: 0 <= k < |b| ==> b[k] != c
  {
    if b == [] then -1 else if b[|b| - 1] == c then |b| - 1 else LastIndex(b[..|b| - 1], c)
  }

  /** What follows the last `/`. */
  function AfterLastSlash(s: string): (r: string)
    ensures |r| <= |s| && r == s[|s| - |r|..]
    ensures forall k :: 0 <= k < |r| ==> r[k] != '/'
    ensures |r| < |s| ==> s[|s| - |r| - 1] == '/'
  {
    s[LastIndex(s, '/') + 1..]
  }

  /** `path.extname` of Node's POSIX paths: in the last non-empty segment,
      from the last `.` to the end, unless there is no `.`, the segment
      starts with its only dot, or the segment is `..`. */
  function Extname(p: string): (r: string)
    ensures r == [] || (r[0] == '.' && NoDotOrSlash(r[1..]))
  {
    var b := AfterLastSlash(StripTrailingSlashes(p));
    var d := LastIndex(b, '.');
    if d <= 0 || b == ".." then []
    else
      AfterLastDot(b, d);
      b[d..]
  }

  /** What follows the last `.` of a segment holds no `.` or `/`. */
  lemma AfterLastDot(b: string, d: int)
    requires 0 <= d < |b| && b[d] == '.'
    requires forall k :: 0 <= k < |b| ==> b[k] != '/'
    requires forall k :: d < k < |b| ==> b[k] != '.'
    ensures |b[d..]| > 0 && b[d..][0] == '.' && NoDotOrSlash(b[d..][1..])
  {
    assert b[d..][1..] == b[d + 1..];
  }

  /** `Math.round(x)` for non-negative `x`. */
  function Round(x: real): (n: nat)
    requires x >= 0.0
    ensures (n as real) - 0.5 <= x < (n as real) + 0.5
  {
    (x + 0.5).Floor
  }

  /** `Date.now() + '-' + Math.round(Math.random() * 1E9)`. */
  function UniqueSuffix(now: nat, random: real): (r: string)
    requires 0.0 <= random < 1.0
    ensures NoDotOrSlash(r)
  {
    var a := NatToDecimal(now);
    var b := NatToDecimal(Round(random * 1000000000.0));
    assert forall k :: 0 <= k < |a| ==> IsDigit(a[k]);
    assert forall k :: 0 <= k < |b| ==> IsDigit(b[k]);
    a + "-" + b
  }

  /** The `filename` callback. */
  function StoredFilename(fieldname: string, originalname: string, now: nat, random: real): string
    requires 0.0 <= random < 1.0
  {
    fieldname + "-" + UniqueSuffix(now, random) + Extname(originalname)
  }

  /** A stored upload keeps the extension of the file the client named,
      whenever the form field's name holds no `.` or `/` (as the upload
      fields do), since the digits and dashes of the suffix hold neither. */
  lemma StoredFilenameKeepsExtension(fieldname: string, originalname: string, now: nat, random: real)
    requires 0.0 <= random < 1.0
    requires NoDotOrSlash(fieldname)
    ensures Extname(StoredFilename(fieldname, originalname, now, random)) == Extname(originalname)
  {
    PlainConcat(fieldname, "-");
    PlainConcat(fieldname + "-", UniqueSuffix(now, random));
    ExtnameAfterPlainPrefix(fieldname + "-" + UniqueSuffix(now, random), Extname(originalname));
  }

  lemma PlainConcat(a: string, b: string)
    requires NoDotOrSlash(a) && NoDotOrSlash(b)
    ensures NoDotOrSlash(a + b)
  {
    forall k | 0 <= k < |a + b|
      ensures (a + b)[k] != '.' && (a + b)[k] != '/'
    {
      if k < |a| {
        assert (a + b)[k] == a[k];
      } else {
        assert (a + b)[k] == b[k - |a|];
      }
    }
  }

  /** A name without dots or slashes followed by an extension has that
      extension. */
  lemma ExtnameAfterPlainPrefix(prefix: string, e: string)
    requires |prefix| > 0 && NoDotOrSlash(prefix)
    requires e == [] || (e[0] == '.' && NoDotOrSlash(e[1..]))
    ensures Extname(prefix + e) == e
  {
    var s := prefix + e;
    PlainThenExtension(prefix, e);
    StripNoop(s);
    AfterLastSlashNoop(s);
    if e == [] {
      LastDotNone(s);
    } else {
      LastDotAt(s, |prefix|);
      assert s[0] != '.';
      assert s != "..";
      assert s[|prefix|..] == e;
    }
  }

  /** The only character of such a name that is a `.` or a `/` is the
      dot that starts the extension. */
  lemma PlainThenExtension(prefix: string, e: string)
    requires NoDotOrSlash(prefix)
    requires e == [] || (e[0] == '.' && NoDotOrSlash(e[1..]))
    ensures forall k :: 0 <= k < |prefix + e| ==> (prefix + e)[k] != '/'
    ensures forall k :: 0 <= k < |prefix + e| && k != |prefix| ==> (prefix + e)[k] != '.'
  {
    var s := prefix + e;
    forall k | 0 <= k < |s|
      ensures s[k] != '/'
      ensures k != |prefix| ==> s[k] != '.'
    {
      if k < |prefix| {
        assert s[k] == prefix[k];
      } else if k > |prefix| {
        assert s[k] == e[1..][k - |prefix| - 1];
      }
    }
  }

  lemma StripNoop(s: string)
    requires s == [] || s[|s| - 1] != '/'
    ensures StripTrailingSlashes(s) == s
  {
  }

  lemma AfterLastSlashNoop(s: string)
    requires forall k :: 0 <= k < |s| ==> s[k] != '/'
    ensures AfterLastSlash(s) == s
  {
    assert LastIndex(s, '/') == -1;
  }

  lemma LastDotAt(s: string, d: int)
    requires 0 <= d < |s| && s[d] == '.'
    requires forall k :: d < k < |s| ==> s[k] != '.'
    ensures LastIndex(s, '.') == d
  {
  }

  lemma LastDotNone(s: string)
    requires forall k :: 0 <= k < |s| ==> s[k] != '.'
    ensures LastIndex(s, '.') == -1
  {
  }

  // ---------------------------------------------------------------------
  // Temporary files

  /** The argument of `removeTemporaryFiles`: an array of paths, or one
      value that may be missing. */
  datatype FilePaths = Many(paths: seq<string>) | One(path: JsString)

  /** The set of files that exist on the disk. */
  class FileSystem {
    var files: set<string>

    constructor (files: set<string>)
      ensures this.files == files
    {
      this.files := files;
    }

    /** `removeTemporaryFiles`: every given path that exists is unlinked;
        missing paths and a missing argument are ignored, and no other file
        is touched. */
    method RemoveTemporaryFiles(filePaths: FilePaths)
      modifies this
      ensures filePaths.Many? ==> files == old(files) - (set k | 0 <= k < |filePaths.paths| :: filePaths.paths[k])
      ensures filePaths.One? && Truthy(filePaths.path) ==> files == old(files) - {filePaths.path.s}
      ensures filePaths.One? && !Truthy(filePaths.path) ==> files == old(files)
    {
      if filePaths.Many? {
        var paths := filePaths.paths;
        for i := 0 to |paths|
          invariant files == old(files) - (set k | 0 <= k < i :: paths[k])
        {
          if paths[i] in files {
            files := files - {paths[i]};
          }
          assert (set k | 0 <= k < i + 1 :: paths[k]) == (set k | 0 <= k < i :: paths[k]) + {paths[i]};
        }
      } else if Truthy(filePaths.path) && filePaths.path.s in files {
        files := files - {filePaths.path.s};
      }
    }
  }
}
