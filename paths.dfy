/** Paths as sequences of names, and the name helpers of `pathlib`
    (`name`, `parent`, `stem`, `suffix`) that the operations use. */
module Paths {

  /** A path is the sequence of its components; `[]` is the root. */
  type Path = seq<string>

  /** `p` is `q` itself or one of its ancestors. */
  predicate IsPrefix(p: Path, q: Path)
  {
    |p| <= |q| && q[..|p|] == p
  }

  /** `pathlib.PurePath.name`: the last component, empty for the root. */
  function Name(p: Path): (r: string)
    ensures |p| > 0 ==> r == p[|p| - 1]
  {
    if p == [] then "" else p[|p| - 1]
  }

  /** `pathlib.PurePath.parent`: the root is its own parent. */
  function Parent(p: Path): (r: Path)
    ensures |p| > 0 ==> r + [Name(p)] == p
    ensures |p| > 0 ==> |r| == |p| - 1 && IsPrefix(r, p)
    ensures p == [] ==> r == []
  {
    if p == [] then [] else p[..|p| - 1]
  }

  /** Index of the last '.' in `s`, or -1 when there is none. */
  function LastDot(s: string): (r: int)
    ensures -1 <= r < |s|
    ensures 0 <= r ==> s[r] == '.'
    ensures forall j :: r < j < |s| ==> s[j] != '.'
  {
    if s == [] then -1
    else if s[|s| - 1] == '.' then |s| - 1
    else LastDot(s[..|s| - 1])
  }

  /** The name has a suffix: its last dot is neither the first nor the last
      character of the name. */
  predicate HasSuffix(name: string)
  {
    0 < LastDot(name) < |name| - 1
  }

  /** `pathlib.PurePath.suffix` as Python 3.12 defines it: from
      the last dot to the end, or empty when the name has no dot, starts
      with its only dot, or ends with a dot. */
  function Suffix(name: string): (r: string)
    ensures r == "" <==> !HasSuffix(name)
    ensures r != "" ==> 2 <= |r| < |name| && r[0] == '.' && r == name[|name| - |r|..]
    ensures forall j :: 0 < j < |r| ==> r[j] != '.'
  {
    if HasSuffix(name) then name[LastDot(name)..] else ""
  }

  /** `pathlib.PurePath.stem`: the name without its suffix. */
  function Stem(name: string): (r: string)
    ensures r + Suffix(name) == name
    ensures name != "" ==> r != ""
  {
    if HasSuffix(name) then name[..LastDot(name)] else name
  }

  /** The names a rename can go to under POSIX: `Path.with_name` refuses
      the empty name, "." and names with a separator, and the system calls
      refuse a name with a NUL character. */
  function ValidName(name: string): (r: bool)
    ensures r <==> name != "" && name != "." && forall k :: 0 <= k < |name| ==> name[k] != '/' && name[k] != '\0'
  {
    name != "" && name != "." && '/' !in name && '\0' !in name
  }

  lemma PrefixTransitive(a: Path, b: Path, c: Path)
    ensures IsPrefix(a, b) && IsPrefix(b, c) ==> IsPrefix(a, c)
  {
    if IsPrefix(a, b) && IsPrefix(b, c) {
      assert c[..|a|] == c[..|b|][..|a|];
    }
  }

  /** Two prefixes of one path are prefixes of each other. */
  lemma PrefixesComparable(a: Path, b: Path, q: Path)
    ensures IsPrefix(a, q) && IsPrefix(b, q) ==> IsPrefix(a, b) || IsPrefix(b, a)
  {
    if IsPrefix(a, q) && IsPrefix(b, q) {
      if |a| <= |b| { assert b[..|a|] == q[..|b|][..|a|]; }
      else { assert a[..|b|] == q[..|a|][..|b|]; }
    }
  }
}
