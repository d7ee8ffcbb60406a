/** Paths as strings and the file system as a value: the existence, directory and listing
    facts the modelled code branches on. */
module Paths {
  import opened Wrappers

  type Path = string

  /** The state of the file system as the modelled code observes it. `wavListing[d]` is what
      `d.glob("*.wav")` yields and `wavTree[d]` what `d.rglob("*.wav")` yields, in the order
      the operating system returns them; a directory without an entry has no such files. */
  datatype FileSystem = FileSystem(
    existing: set<Path>,
    directories: set<Path>,
    wavListing: map<Path, seq<Path>>,
    wavTree: map<Path, seq<Path>>)

  /** `Path.exists()`. */
  predicate Exists(fs: FileSystem, p: Path) {
    p in fs.existing
  }

  /** `Path.is_dir()`: false for a path that does not exist. */
  predicate IsDir(fs: FileSystem, p: Path) {
    p in fs.existing && p in fs.directories
  }

  /** `dir.glob("*.wav")`: nothing for a missing directory or a plain file. */
  function Glob(fs: FileSystem, dir: Path): seq<Path> {
    if IsDir(fs, dir) && dir in fs.wavListing then fs.wavListing[dir] else []
  }

  /** `dir.rglob("*.wav")`. */
  function RGlob(fs: FileSystem, dir: Path): seq<Path> {
    if IsDir(fs, dir) && dir in fs.wavTree then fs.wavTree[dir] else []
  }

  /** `dir.mkdir(parents=True, exist_ok=True)` for every directory of `dirs`, creating only
      the listed directories (no missing ancestors) and turning a plain file at a listed
      path into a directory instead of raising FileExistsError. */
  function MakeDirs(fs: FileSystem, dirs: set<Path>): (r: FileSystem)
    ensures forall d :: d in dirs ==> IsDir(r, d)
    ensures forall p :: Exists(fs, p) ==> Exists(r, p)
    ensures forall p :: Exists(r, p) && !Exists(fs, p) ==> p in dirs
  {
    fs.(existing := fs.existing + dirs, directories := fs.directories + dirs)
  }

  /** Writing each file of `files` (a copy, a dump): they exist afterwards and nothing
      else changes; the `.wav` listings are not extended with them. */
  function CreateFiles(fs: FileSystem, files: set<Path>): (r: FileSystem)
    ensures forall p :: Exists(r, p) <==> Exists(fs, p) || p in files
    ensures r.directories == fs.directories && r.wavListing == fs.wavListing && r.wavTree == fs.wavTree
  {
    fs.(existing := fs.existing + files)
  }

  /** `dir / name`. */
  function Join(dir: Path, name: string): Path {
    dir + "/" + name
  }

  /** `PurePath.name`: the final component, everything after the last `/`. */
  function Name(p: Path): (n: string)
    ensures '/' !in n
  {
    if p == [] || p[|p| - 1] == '/' then []
    else Name(p[..|p| - 1]) + [p[|p| - 1]]
  }

  /** The final component is a suffix of the path, right after its last `/` if any. */
  lemma {:induction false} NameIsSuffix(p: Path)
    ensures |Name(p)| <= |p| && Name(p) == p[|p| - |Name(p)|..]
    ensures |Name(p)| < |p| ==> p[|p| - |Name(p)| - 1] == '/'
  {
    if p != [] && p[|p| - 1] != '/' {
      var q := p[..|p| - 1];
      NameIsSuffix(q);
      assert p[|p| - |Name(p)|..] == q[|q| - |Name(q)|..] + [p[|p| - 1]];
      if |Name(p)| < |p| {
        assert p[|p| - |Name(p)| - 1] == q[|q| - |Name(q)| - 1];
      }
    }
  }

  lemma {:induction false} NameAfterSlash(dir: Path, n: string)
    requires '/' !in n
    ensures Name(dir + "/" + n) == n
    decreases |n|
  {
    var p := dir + "/" + n;
    if n == [] {
      assert p[|p| - 1] == '/';
    } else {
      var m := n[..|n| - 1];
      assert p[..|p| - 1] == dir + "/" + m;
      NameAfterSlash(dir, m);
      assert n == m + [n[|n| - 1]];
    }
  }

  lemma NameOfJoin(dir: Path, n: string)
    requires '/' !in n
    ensures Name(Join(dir, n)) == n
  {
    NameAfterSlash(dir, n);
  }

  /** `s.rfind(c)`, None for -1. */
  function RFind(s: string, c: char): (r: Option<nat>)
    ensures r.None? <==> c !in s
    ensures r.Some? ==> r.value < |s| && s[r.value] == c && c !in s[r.value + 1..]
  {
    if s == [] then None
    else if s[|s| - 1] == c then Some(|s| - 1)
    else
      var r := RFind(s[..|s| - 1], c);
      assert s == s[..|s| - 1] + [s[|s| - 1]];
      if r.Some? then
        assert s[r.value + 1..] == s[..|s| - 1][r.value + 1..] + [s[|s| - 1]];
        r
      else r
  }

  /** `PurePath.stem`: the final component without its last suffix. */
  function Stem(p: Path): (s: string)
    ensures '/' !in s
  {
    StemOfName(Name(p))
  }

  /** The stem of a final component: a leading dot or a trailing dot does not start a
      suffix. */
  function StemOfName(n: string): (s: string)
    requires '/' !in n
    ensures '/' !in s
  {
    match RFind(n, '.')
    case Some(i) => if 0 < i < |n| - 1 then n[..i] else n
    case None => n
  }

  lemma {:induction false} RFindLast(u: string, c: char, t: string)
    requires c !in t
    ensures RFind(u + [c] + t, c) == Some(|u|)
  {
    var s := u + [c] + t;
    assert s[|u|] == c;
    assert s[|u| + 1..] == t;
  }

  /** The stem of the component `<s>.wav` is `s` whenever `s` is non-empty. */
  lemma StemOfWavName(s: string)
    requires s != [] && '/' !in s
    ensures '/' !in s + ".wav"
    ensures StemOfName(s + ".wav") == s
  {
    var n := s + ".wav";
    assert n == s + ['.'] + "wav";
    RFindLast(s, '.', "wav");
    assert n[..|s|] == s;
  }

  /** The stem of `dir/<s>.wav` is `s` whenever `s` is a non-empty name. */
  lemma StemOfWav(dir: Path, s: string)
    requires s != [] && '/' !in s
    ensures Stem(Join(dir, s + ".wav")) == s
  {
    var n := s + ".wav";
    assert '/' !in n;
    NameOfJoin(dir, n);
    assert n == s + ['.'] + "wav";
    RFindLast(s, '.', "wav");
    assert n[..|s|] == s;
  }
}
