/**
 * The parts of Python's `pathlib` the core relies on: the final component
 * of a path (`.name`), its last extension (`.suffix`), the name without
 * that extension (`.stem`) and joining (`dir / name`), for POSIX paths.
 */
module Paths {
  import Text

  /** Position of the last `c` in `s`, or -1 (Python's `str.rfind`). */
  function LastIndexOf(s: string, c: char): (i: int)
    ensures -1 <= i < |s|
    ensures i >= 0 ==> s[i] == c
    ensures forall j :: i < j < |s| ==> s[j] != c
    decreases |s|
  {
    if |s| == 0 then -1 else if s[|s| - 1] == c then |s| - 1 else LastIndexOf(s[..|s| - 1], c)
  }

  /** The last `c` is found at `i` when `c` stands at `i` and nowhere after it. */
  lemma {:induction false} LastIndexOfAt(s: string, c: char, i: nat)
    requires i < |s| && s[i] == c
    requires forall j :: i < j < |s| ==> s[j] != c
    ensures LastIndexOf(s, c) == i
    decreases |s|
  {
    if i != |s| - 1 {
      LastIndexOfAt(s[..|s| - 1], c, i);
    }
  }

  /** The path without trailing `/` and `.` components, which pathlib drops when it parses a path. */
  function Trimmed(path: string): (t: string)
    ensures |t| <= |path| && t == path[..|t|]
    ensures t != [] ==> t[|t| - 1] != '/' && (t[|t| - 1] == '.' ==> |t| >= 2 && t[|t| - 2] != '/')
    decreases |path|
  {
    var n := |path|;
    if n == 0 then []
    else if path[n - 1] == '/' then Trimmed(path[..n - 1])
    else if path[n - 1] == '.' && n == 1 then []
    else if path[n - 1] == '.' && path[n - 2] == '/' then Trimmed(path[..n - 2])
    else path
  }

  /**
   * `PurePosixPath(path).name`: the last component of the path once empty
   * components (repeated or trailing `/`) and `.` components are dropped;
   * `""` when none is left.
   */
  function Name(path: string): (r: string)
    ensures forall j :: 0 <= j < |r| ==> r[j] != '/'
    ensures r != "." && |r| <= |path|
  {
    var t := Trimmed(path);
    t[LastIndexOf(t, '/') + 1..]
  }

  /** A path whose last component is a plain name has that name. */
  lemma NameOfLast(dir: string, name: string)
    requires name != "" && name != "." && forall j :: 0 <= j < |name| ==> name[j] != '/'
    ensures Name(name) == name
    ensures Name(dir + "/" + name) == name
  {
    var n := |name|;
    assert n == 1 ==> name[0] != '.';
    assert Trimmed(name) == name;
    assert LastIndexOf(name, '/') == -1;
    assert name[0..] == name;
    var p := dir + "/" + name;
    assert p[|p| - 1] == name[n - 1];
    assert |p| >= 2 && p[|p| - 2] == (if n >= 2 then name[n - 2] else '/');
    assert Trimmed(p) == p;
    LastIndexOfAt(p, '/', |dir|);
    assert p[|dir| + 1..] == name;
  }

  /** A trailing `/` does not change the name. */
  lemma NameTrailingSlash(path: string)
    ensures Name(path + "/") == Name(path)
  {
    var p := path + "/";
    assert p[..|path|] == path;
    assert Trimmed(p) == Trimmed(path);
  }

  /** A trailing `/.` component does not change the name. */
  lemma NameTrailingDot(path: string)
    ensures Name(path + "/.") == Name(path)
  {
    var p := path + "/.";
    assert p[..|path|] == path;
    assert Trimmed(p) == Trimmed(path);
  }

  /** A trailing slash leaves the file's name in place: `Path("dir/clip.mp4/").name` is `clip.mp4`. */
  lemma NameSlashExample(dir: string, file: string)
    requires dir == "dir" && file == "clip.mp4"
    ensures Name(dir + "/" + file + "/") == file
  {
    NameOfLast(dir, file);
    NameTrailingSlash(dir + "/" + file);
  }

  /** A trailing `.` component names the directory: `Path("dir/.").name` is `dir`. */
  lemma NameDotExample(dir: string)
    requires dir == "dir"
    ensures Name(dir + "/.") == dir
  {
    NameOfLast("", dir);
    NameTrailingDot(dir);
  }

  /**
   * `.suffix` of a file name: from its last dot on, when that dot is neither
   * the first nor the last character; otherwise empty.
   */
  function Suffix(name: string): (r: string)
    ensures r == [] || (|r| >= 2 && r[0] == '.' && forall j :: 1 <= j < |r| ==> r[j] != '.')
    ensures |r| <= |name| && r == name[|name| - |r|..]
    ensures r != [] <==> 0 < LastIndexOf(name, '.') < |name| - 1
    ensures r != [] ==> |r| < |name| && |name| - |r| == LastIndexOf(name, '.')
  {
    var i := LastIndexOf(name, '.');
    if 0 < i < |name| - 1 then name[i..] else ""
  }

  /** The extension survives a trailing slash: `Path("dir/clip.mp4/").suffix` is `.mp4`. */
  lemma SuffixExample(dir: string, file: string)
    requires dir == "dir" && file == "clip.mp4"
    ensures PathSuffix(dir + "/" + file + "/") == ".mp4"
  {
    NameSlashExample(dir, file);
    ClipSuffix(file);
  }

  lemma ClipSuffix(name: string)
    requires name == "clip.mp4"
    ensures Suffix(name) == ".mp4"
  {
    LastIndexOfAt(name, '.', 4);
  }

  /** `.stem` of a file name: the name without its suffix. */
  function Stem(name: string): (r: string)
    ensures r + Suffix(name) == name
  {
    var i := LastIndexOf(name, '.');
    if 0 < i < |name| - 1 then name[..i] else name
  }

  /** `Path(path).suffix` */
  function PathSuffix(path: string): string {
    Suffix(Name(path))
  }

  /** `Path(path).stem` */
  function PathStem(path: string): string {
    Stem(Name(path))
  }

  /** `str(Path(dir) / name)`: an absolute `name` replaces `dir`, an empty one leaves it. */
  function JoinPath(dir: string, name: string): string {
    if Text.StartsWith(name, "/") then name
    else if name == "" then dir
    else if dir == "" then name
    else dir + "/" + name
  }

  /** Joining a plain file name to a directory yields a path whose `.name` is that file name. */
  lemma NameOfJoin(dir: string, name: string)
    requires name != "" && name != "." && forall j :: 0 <= j < |name| ==> name[j] != '/'
    ensures Name(JoinPath(dir, name)) == name
  {
    assert !Text.StartsWith(name, "/") by { assert name[..1][0] == name[0]; }
    NameOfLast(dir, name);
  }
}
