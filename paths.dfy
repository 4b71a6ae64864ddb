/** Filesystem paths as sequences of components: `p / "x"` is `p + ["x"]`. */
module Paths {

  type Path = seq<string>

  /** `Path.parent`: drops the last component; the empty path stands for "." and is its own parent. */
  function Parent(p: Path): (r: Path)
    ensures |p| > 0 ==> r + [p[|p| - 1]] == p
  {
    if |p| == 0 then p else p[..|p| - 1]
  }

  /** `Path.name`: the last component. */
  function Name(p: Path): string
    requires |p| > 0
  {
    p[|p| - 1]
  }

  /** p is an immediate entry of directory dir (what `os.listdir(dir)` lists). */
  predicate InDir(p: Path, dir: Path) {
    |p| == |dir| + 1 && p[..|dir|] == dir
  }

  /** An absolute path starts at the root component "/". */
  predicate IsAbsolute(p: Path) {
    |p| > 0 && p[0] == "/"
  }

  /** `Path.absolute()` in the working directory cwd: a relative path is put under cwd. */
  function Absolute(cwd: Path, p: Path): (r: Path)
    ensures IsAbsolute(cwd) ==> IsAbsolute(r)
    ensures IsAbsolute(p) ==> r == p
    ensures |p| <= |r| && r[|r| - |p|..] == p
  {
    if IsAbsolute(p) then p else cwd + p
  }

  /** Making a path absolute twice changes nothing. */
  lemma AbsoluteIdempotent(cwd: Path, p: Path)
    requires IsAbsolute(cwd)
    ensures Absolute(cwd, Absolute(cwd, p)) == Absolute(cwd, p)
  {
  }

  predicate AllDots(s: string) {
    forall i :: 0 <= i < |s| ==> s[i] == '.'
  }

  /** Index of the last '.' in s, or -1. */
  function LastDot(s: string): (r: int)
    ensures -1 <= r < |s|
    ensures r >= 0 ==> s[r] == '.'
    ensures forall j :: r < j < |s| ==> s[j] != '.'
  {
    if |s| == 0 then -1 else if s[|s| - 1] == '.' then |s| - 1 else LastDot(s[..|s| - 1])
  }

  /** `os.path.splitext` on one file name: the extension starts at the last '.',
      unless only dots precede it (a leading-dot name has no extension). */
  function SplitExt(name: string): (r: (string, string))
    ensures r.0 + r.1 == name
    ensures r.1 == [] || (r.1[0] == '.' && forall i :: 1 <= i < |r.1| ==> r.1[i] != '.')
    ensures r.1 != [] ==> !AllDots(r.0)
    ensures r.1 == [] ==> LastDot(name) < 0 || AllDots(name[..LastDot(name)])
  {
    var d := LastDot(name);
    if d < 0 || AllDots(name[..d]) then (name, "") else (name[..d], name[d..])
  }
}
