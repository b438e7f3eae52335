/** The part of the operating system the file tools touch, as a value:
    which paths are regular files (and what they hold), which are
    directories, and which refuse every access. Paths are plain strings,
    relative ones resolved against the working directory `.`; the
    functions here follow Python's `os.path.dirname`, `os.path.basename`,
    `os.path.exists`, `os.makedirs(..., exist_ok=True)` and
    `open(path, 'w').write(...)` on a POSIX system. */
module Os {

  /** What a regular file holds: text that decodes as UTF-8, or bytes that
      do not. */
  datatype Data = Utf8(text: string) | Undecodable

  datatype FileSystem = FileSystem(
    files: map<string, Data>,
    dirs: set<string>,
    denied: set<string>)  // paths on which every open, mkdir or listdir fails

  /** The outcome of an operation that may fail part-way: the new state
      and whether the operation completed. */
  datatype Change = Change(fs: FileSystem, ok: bool)

  predicate AllSlashes(s: string) {
    forall i :: 0 <= i < |s| ==> s[i] == '/'
  }

  /** One past the index of the last '/' of `p`, or 0 when there is none:
      Python's `p.rfind('/') + 1`. */
  function LastSep(p: string): (i: nat)
    ensures i <= |p|
    ensures i > 0 ==> p[i - 1] == '/'
    ensures forall j :: i <= j < |p| ==> p[j] != '/'
    decreases |p|
  {
    if |p| == 0 then 0
    else if p[|p| - 1] == '/' then |p|
    else LastSep(p[..|p| - 1])
  }

  /** `s.rstrip('/')`. */
  function RStripSlashes(s: string): (r: string)
    ensures |r| <= |s| && r == s[..|r|]
    ensures |r| > 0 ==> r[|r| - 1] != '/'
    ensures forall j :: |r| <= j < |s| ==> s[j] == '/'
    decreases |s|
  {
    if |s| > 0 && s[|s| - 1] == '/' then RStripSlashes(s[..|s| - 1]) else s
  }

  /** `os.path.dirname(p)`: everything before the last '/', with trailing
      slashes removed unless nothing but slashes is left. */
  function DirName(p: string): (d: string)
    ensures |d| <= |p| && d == p[..|d|]
    ensures (forall j :: 0 <= j < |p| ==> p[j] != '/') ==> d == ""
    ensures |d| == |p| ==> AllSlashes(p)
  {
    var head := p[..LastSep(p)];
    if head != "" && !AllSlashes(head) then RStripSlashes(head) else head
  }

  /** `os.path.basename(p)`: everything after the last '/'. */
  function BaseName(p: string): (b: string)
    ensures |b| <= |p| && b == p[|p| - |b|..]
    ensures forall j :: 0 <= j < |b| ==> b[j] != '/'
    ensures |p| > 0 && p[|p| - 1] != '/' ==> b != ""
  {
    p[LastSep(p)..]
  }

  /** `os.path.exists(p)`. */
  predicate Exists(fs: FileSystem, p: string)
    ensures Valid(fs) && Exists(fs, p) ==> p != ""
  {
    p in fs.files || p in fs.dirs
  }

  /** The directory holding `p` exists (a bare name lives in `.`). */
  predicate ParentPresent(fs: FileSystem, p: string) {
    DirName(p) == "" || DirName(p) in fs.dirs
  }

  /** A well-formed file system: the empty path names nothing (so
      `os.path.exists("")` is false), nothing is both a file and a
      directory, and every file and directory sits in an existing
      directory. */
  predicate Valid(fs: FileSystem) {
    "" !in fs.files && "" !in fs.dirs &&
    fs.files.Keys !! fs.dirs &&
    (forall p :: p in fs.files ==> ParentPresent(fs, p)) &&
    (forall p :: p in fs.dirs ==> ParentPresent(fs, p))
  }

  /** `os.makedirs(d, exist_ok=True)`: creates the missing directories on
      the way down to `d` (only prefixes of `d`), starting from the nearest
      one that exists. It
      fails when that nearest existing path is a file, or when creating one
      of them is denied; the directories created before the failure stay.
      Files are never touched. */
  function MakeDirs(fs: FileSystem, d: string): (r: Change)
    requires d != ""
    ensures r.fs.files == fs.files && r.fs.denied == fs.denied
    ensures fs.dirs <= r.fs.dirs
    ensures r.ok ==> d in r.fs.dirs
    ensures d in fs.dirs ==> r == Change(fs, true)
    ensures d in fs.files && d !in fs.dirs ==> !r.ok
    ensures Valid(fs) ==> Valid(r.fs)
    decreases |d|
  {
    if d in fs.dirs then Change(fs, true)
    else if d in fs.files then Change(fs, false)
    else
      var parent := DirName(d);
      var up := if parent == "" || parent == d then Change(fs, true) else MakeDirs(fs, parent);
      if !up.ok || d in up.fs.denied then Change(up.fs, false)
      else Change(up.fs.(dirs := up.fs.dirs + {d}), true)
  }

  /** `makedirs` creates nothing but `d` and directories above it: every
      new directory is a prefix of `d`. */
  lemma {:induction false} MakeDirsCreatesOnlyPrefixes(fs: FileSystem, d: string, x: string)
    requires d != ""
    requires x in MakeDirs(fs, d).fs.dirs && x !in fs.dirs
    ensures |x| <= |d| && x == d[..|x|]
    decreases |d|
  {
    var parent := DirName(d);
    if d !in fs.dirs && d !in fs.files && parent != "" && parent != d && x != d {
      MakeDirsCreatesOnlyPrefixes(fs, parent, x);
    }
  }

  /** `makedirs` succeeds when no string prefix of `d` (`d` itself
      included) is a file or refuses access. This is sufficient only: a file
      "da" blocks the condition for "data/x", though `makedirs` succeeds. */
  lemma {:induction false} MakeDirsSucceeds(fs: FileSystem, d: string)
    requires d != ""
    requires forall x :: |x| <= |d| && x == d[..|x|] ==> x !in fs.files && x !in fs.denied
    ensures MakeDirs(fs, d).ok
    decreases |d|
  {
    var parent := DirName(d);
    if d !in fs.dirs && parent != "" && parent != d {
      forall x | |x| <= |parent| && x == parent[..|x|]
        ensures x !in fs.files && x !in fs.denied
      {
        assert x == d[..|x|];
      }
      MakeDirsSucceeds(fs, parent);
    }
  }

  /** `MakeDirsCreatesOnlyPrefixes` for every new directory at once. */
  lemma MakeDirsAddsOnlyPrefixes(fs: FileSystem, d: string)
    requires d != ""
    ensures forall x :: x in MakeDirs(fs, d).fs.dirs && x !in fs.dirs ==> |x| <= |d| && x == d[..|x|]
  {
    forall x | x in MakeDirs(fs, d).fs.dirs && x !in fs.dirs
      ensures |x| <= |d| && x == d[..|x|]
    {
      MakeDirsCreatesOnlyPrefixes(fs, d, x);
    }
  }

  /** The path `d + "/" + n` for a name `n` without '/' in a directory `d`
      that does not end in '/' has `d` as its dirname and `n` as its
      basename. */
  lemma {:induction false} DirNameOfChild(d: string, n: string)
    requires d != "" && d[|d| - 1] != '/'
    requires forall j :: 0 <= j < |n| ==> n[j] != '/'
    ensures DirName(d + "/" + n) == d && BaseName(d + "/" + n) == n
  {
    var p := d + "/" + n;
    LastSepOfChild(d, n);
    assert p[..|d| + 1] == d + "/";
    assert p[|d| + 1..] == n;
    assert !AllSlashes(d + "/") by { assert (d + "/")[|d| - 1] != '/'; }
    assert RStripSlashes(d + "/") == RStripSlashes(d) by { assert (d + "/")[..|d|] == d; }
  }

  lemma {:induction false} LastSepOfChild(d: string, n: string)
    requires forall j :: 0 <= j < |n| ==> n[j] != '/'
    ensures LastSep(d + "/" + n) == |d| + 1
    decreases |n|
  {
    var p := d + "/" + n;
    if |n| > 0 {
      assert p[..|p| - 1] == d + "/" + n[..|n| - 1];
      LastSepOfChild(d, n[..|n| - 1]);
    } else {
      assert p[|p| - 1] == '/';
    }
  }

  /** `open(p, 'w')` succeeds: `p` names a non-directory that is not denied,
      in a directory that exists. */
  predicate CanWrite(fs: FileSystem, p: string) {
    p != "" && p[|p| - 1] != '/' && p !in fs.dirs && p !in fs.denied && ParentPresent(fs, p)
  }

  /** `open(p, 'w').write(text)`: the file is created or truncated and then
      holds exactly `text`; when the open fails nothing changes. */
  function Write(fs: FileSystem, p: string, text: string): (r: Change)
    ensures r.ok == CanWrite(fs, p)
    ensures r.ok ==> r.fs == fs.(files := fs.files[p := Utf8(text)])
    ensures !r.ok ==> r.fs == fs
    ensures Valid(fs) ==> Valid(r.fs)
  {
    if CanWrite(fs, p) then Change(fs.(files := fs.files[p := Utf8(text)]), true)
    else Change(fs, false)
  }
}
