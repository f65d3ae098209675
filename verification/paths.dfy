/** POSIX path handling the downloader relies on: `os.path.splitext`,
    `os.path.basename`, `os.path.join`, and `pathlib` joining and `.stem`. */
module Paths {
  import opened Values

  /** Index of the last `c` in `s`, or -1 (`str.rfind`). */
  function LastIndexOf(s: string, c: char): (i: int)
    ensures -1 <= i < |s|
    ensures i >= 0 ==> s[i] == c
    ensures forall j :: i < j < |s| ==> s[j] != c
  {
    if |s| == 0 then -1
    else if s[|s| - 1] == c then |s| - 1
    else LastIndexOf(s[..|s| - 1], c)
  }

  /** Some character of `p[lo..hi]` is not a dot. */
  predicate HasNonDot(p: string, lo: int, hi: int)
    requires 0 <= lo <= hi <= |p|
  {
    exists i :: lo <= i < hi && p[i] != '.'
  }

  /** `p[d..]` is a file extension in the sense of `os.path.splitext`: a dot
      followed by no dot and no separator, preceded within the final path
      component by at least one character that is not a dot. */
  predicate ExtensionAt(p: string, d: int) {
    && 0 <= d < |p|
    && p[d] == '.'
    && (forall j :: d < j < |p| ==> p[j] != '.' && p[j] != '/')
    && (exists i :: 0 <= i < d && p[i] != '.' && p[i] != '/' && forall j :: i < j < d ==> p[j] != '/')
  }

  datatype Split = Split(stem: string, ext: string)

  /** `os.path.splitext` (POSIX): split at the last dot of the final component,
      unless everything before that dot in the component is dots. */
  function SplitExt(p: string): (r: Split)
    ensures r.stem + r.ext == p
    ensures r.ext != [] <==> exists d :: ExtensionAt(p, d)
    ensures r.ext != [] ==> ExtensionAt(p, |r.stem|)
  {
    var sep := LastIndexOf(p, '/');
    var dot := LastIndexOf(p, '.');
    if dot > sep && HasNonDot(p, sep + 1, dot) then
      assert ExtensionAt(p, dot) by {
        var i :| sep + 1 <= i < dot && p[i] != '.';
      }
      Split(p[..dot], p[dot..])
    else
      assert forall d :: !ExtensionAt(p, d) by {
        forall d | ExtensionAt(p, d) ensures false {
          ExtensionIsAtLastDot(p, d);
        }
      }
      Split(p, "")
  }

  /** An extension can only start at the last dot, after the last separator. */
  lemma ExtensionIsAtLastDot(p: string, d: int)
    requires ExtensionAt(p, d)
    ensures d == LastIndexOf(p, '.') && LastIndexOf(p, '/') < d
    ensures HasNonDot(p, LastIndexOf(p, '/') + 1, d)
  {
    var sep := LastIndexOf(p, '/');
    var i :| 0 <= i < d && p[i] != '.' && p[i] != '/' && forall j :: i < j < d ==> p[j] != '/';
    assert sep < i;
  }

  /** A split found by `SplitExt` is the only one: the extension starts at the
      last dot, so splitting `stem + ext` again finds the same parts. */
  lemma SplitExtUnique(p: string, d: int)
    requires ExtensionAt(p, d)
    ensures SplitExt(p) == Split(p[..d], p[d..])
  {
    var r := SplitExt(p);
    assert r.ext != [];
    assert ExtensionAt(p, |r.stem|);
    assert p[..|r.stem|] == r.stem;
  }

  /** `os.path.basename`: what follows the last separator. */
  function Basename(p: string): (b: string)
    ensures '/' !in b
    ensures |b| <= |p| && p[|p| - |b|..] == b
  {
    p[LastIndexOf(p, '/') + 1..]
  }

  /** `os.path.join(a, b)` for two parts. */
  function OsJoin(a: string, b: string): string {
    if |b| > 0 && b[0] == '/' then b
    else if a == "" || a[|a| - 1] == '/' then a + b
    else a + "/" + b
  }

  /** `Path(dir) / name` for a `dir` without trailing or doubled separators:
      an absolute `name` replaces `dir`, and an empty or `.` part disappears. */
  function Child(dir: string, name: string): string {
    if |name| > 0 && name[0] == '/' then name
    else if name == "" || name == "." then dir
    else if dir == "" || dir == "." then name
    else if dir == "/" then dir + name
    else dir + "/" + name
  }

  /** A plain file name joined to a directory is that path's base name. */
  lemma BasenameOfChild(dir: string, name: string)
    requires name != "" && name != "." && '/' !in name
    ensures Basename(Child(dir, name)) == name
  {
    var p := Child(dir, name);
    if dir == "" || dir == "." || dir == "/" {
      assert p[|p| - |name|..] == name;
      return;
    }
    assert p == dir + "/" + name;
    var k := LastIndexOf(p, '/');
    assert p[|dir|] == '/';
    assert k == |dir| by {
      forall j | |dir| < j < |p| ensures p[j] != '/' {
        assert p[j] == name[j - |dir| - 1];
      }
    }
    assert p[k + 1..] == name;
  }

  /** `Path(p).stem` (CPython 3.12): the final component without its last
      suffix, where a suffix is a dot that neither starts nor ends the name. */
  function PathStem(p: string): (s: string)
    ensures var name := Basename(p); |s| <= |name| && name[..|s|] == s
    ensures var name := Basename(p);
            s != name ==>
              && 0 < |s| < |name| - 1 && name[|s|] == '.'
              && forall j :: |s| < j < |name| ==> name[j] != '.'
    ensures var name := Basename(p);
            s == name ==>
              || (|name| > 0 && name[|name| - 1] == '.')
              || forall j :: 0 < j < |name| - 1 ==> name[j] != '.'
  {
    var name := Basename(p);
    var i := LastIndexOf(name, '.');
    if 0 < i < |name| - 1 then name[..i] else name
  }

  /** A file named `base` plus a one-part extension, joined to a directory,
      has `base` as its stem: the `{stem}_metadata.json` written next to a
      media file drops exactly the extension the download added. */
  lemma StemOfChild(dir: string, base: string, ext: string)
    requires base != "" && '/' !in base
    requires |ext| >= 2 && ext[0] == '.'
    requires forall j :: 1 <= j < |ext| ==> ext[j] != '.' && ext[j] != '/'
    ensures PathStem(Child(dir, base + ext)) == base
  {
    var name := base + ext;
    BasenameOfChild(dir, name);
    assert name[|base|] == '.' && name[|name| - 1] != '.';
    assert name[..|base|] == base;
  }

  /** The download root: the configured directory when it is set and
      non-empty, else `~/Pictures/CivitAI` under the given home directory. */
  function DownloadRoot(configured: Option<string>, home: string): (root: string)
    ensures configured.Some? && configured.value != "" ==> root == configured.value
    ensures configured.None? || configured.value == "" ==> root == OsJoin(OsJoin(home, "Pictures"), "CivitAI")
  {
    match configured
    case Some(d) => if d != "" then d else OsJoin(OsJoin(home, "Pictures"), "CivitAI")
    case None => OsJoin(OsJoin(home, "Pictures"), "CivitAI")
  }
}
