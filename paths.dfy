/** `pathlib.Path` as far as the core uses it: joining, `name`, `parent` and `stem`. */
module Paths {
  import opened Strings

  /** A relative path as the list of its components: `Path("data") / "x"` is ["data", "x"], and [] is ".". */
  type Path = seq<string>

  /** `path.name`: the last component, "" for ".". */
  function Name(p: Path): string
  {
    if |p| == 0 then "" else p[|p| - 1]
  }

  /** `path.parent`: every component but the last. */
  function Parent(p: Path): Path
  {
    if |p| == 0 then [] else p[..|p| - 1]
  }

  /** `name` without its suffix: pathlib cuts at the last '.' unless that dot is the first or the last character. */
  function Stem(name: string): (r: string)
    ensures |r| <= |name| && r == name[..|r|]
  {
    if '.' in name then
      var i := LastIndex(name, '.');
      if 0 < i < |name| - 1 then name[..i] else name
    else name
  }

  lemma LastIndexUnique(s: string, c: char, j: nat)
    requires j < |s| && s[j] == c && c !in s[j + 1..]
    ensures LastIndex(s, c) == j
  {
  }

  /** Every file name `<n>.<ext>` whose extension has no dot has stem `<n>`, provided `<n>` is not empty. */
  lemma StemOfExtension(n: string, ext: string)
    requires |n| > 0 && |ext| > 0 && '.' !in ext
    ensures Stem(n + "." + ext) == n
  {
    var s := n + "." + ext;
    assert s[|n|] == '.';
    assert s[|n| + 1..] == ext;
    LastIndexUnique(s, '.', |n|);
    assert s[..|n|] == n;
  }

  /** The stem of a `.`-joined name is the join of all its fields but the last, when that join is not empty. */
  lemma StemOfJoin(parts: seq<string>)
    requires |parts| >= 2 && forall i :: 0 <= i < |parts| ==> '.' !in parts[i]
    requires |parts[|parts| - 1]| > 0 && |Join(parts[..|parts| - 1], '.')| > 0
    ensures Stem(Join(parts, '.')) == Join(parts[..|parts| - 1], '.')
  {
    var k := |parts| - 1;
    JoinPrefix(parts, k, '.');
    assert parts[k..] == [parts[k]];
    assert Join(parts[k..], '.') == parts[k];
    assert Join(parts, '.') == Join(parts[..k], '.') + "." + parts[k];
    StemOfExtension(Join(parts[..k], '.'), parts[k]);
  }
}
