/**
 * The POSIX path operations of `os.path` and `pathlib` that the recorder uses, on path strings.
 */
module Paths {
  import opened Strings

  predicate IsSlash(c: char) { c == '/' }

  predicate AllSlashes(s: string) {
    forall i :: 0 <= i < |s| ==> s[i] == '/'
  }

  /** `os.path.basename(p)`: the text after the last `/`. */
  function Basename(p: string): (r: string)
    ensures forall i :: 0 <= i < |r| ==> r[i] != '/'
    ensures EndsWith(p, r)
  {
    p[RFind(p, '/') + 1..]
  }

  /**
   * `os.path.dirname(p)`: everything up to the last `/`, without its trailing slashes unless
   * it consists of slashes only (`dirname("/a") == "/"`, `dirname("a") == ""`).
   */
  function Dirname(p: string): (r: string)
    ensures StartsWith(p, r)
    ensures r == p ==> p == "" || AllSlashes(p)
  {
    var head := p[..RFind(p, '/') + 1];
    RStripPrefix(head, IsSlash);
    if head != [] && !AllSlashes(head) then RStrip(head, IsSlash) else head
  }

  /** `os.path.splitext(p)`: the root and the extension; a leading dot of the name is not one. */
  function SplitExt(p: string): (r: (string, string))
    ensures r.0 + r.1 == p
    ensures r.1 == [] || (r.1[0] == '.' && forall i :: 1 <= i < |r.1| ==> r.1[i] != '.' && r.1[i] != '/')
  {
    var dot := RFind(p, '.');
    var sep := RFind(p, '/');
    if dot > sep && exists i :: sep < i < dot && p[i] != '.' then
      assert p[..dot] + p[dot..] == p;
      (p[..dot], p[dot..])
    else
      (p, "")
  }

  /** The last name of `p` has an extension: it has a `.` followed by no other `.`, and before that dot a character other than `.` that no `/` follows. */
  predicate HasExt(p: string) {
    exists i, d :: 0 <= i < d < |p| && p[d] == '.' && p[i] != '.'
      && (forall k :: i <= k < |p| ==> p[k] != '/')
      && (forall k :: d < k < |p| ==> p[k] != '.')
  }

  /** `splitext` splits off an extension exactly when the last name has one: a name made only of leading dots, or a dot before the last `/`, gives none. */
  lemma SplitExtHasExt(p: string)
    ensures SplitExt(p).1 != [] <==> HasExt(p)
  {
    var dot := RFind(p, '.');
    var sep := RFind(p, '/');
    if SplitExt(p).1 != [] {
      var i :| sep < i < dot && p[i] != '.';
      assert forall k :: i <= k < |p| ==> p[k] != '/';
      assert 0 <= i < dot < |p| && p[dot] == '.';
    }
    if HasExt(p) {
      var i, d :| 0 <= i < d < |p| && p[d] == '.' && p[i] != '.'
        && (forall k :: i <= k < |p| ==> p[k] != '/')
        && (forall k :: d < k < |p| ==> p[k] != '.');
      assert dot == d;
      assert sep < i;
    }
  }

  /** `os.path.splitext(p)[0]`. */
  function SplitExtRoot(p: string): string {
    SplitExt(p).0
  }

  /** `p.rsplit(".", 1)[0]`: the text before the last `.` anywhere in the path, or all of it. */
  function RSplitDotRoot(p: string): (r: string)
    ensures StartsWith(p, r)
    ensures forall i :: 0 <= i < |p| && p[i] == '.' ==> i <= |r|
    ensures r == p || p[|r|] == '.'
  {
    var i := RFind(p, '.');
    if i < 0 then p else p[..i]
  }

  /** `os.path.join(a, b)` (POSIX). */
  function Join(a: string, b: string): string {
    if StartsWith(b, "/") then b
    else if a == "" || EndsWith(a, "/") then a + b
    else a + "/" + b
  }

  /** `pathlib.PurePath.suffix` of a final path component. */
  function Suffix(name: string): (r: string)
    ensures EndsWith(name, r)
  {
    var i := RFind(name, '.');
    if 0 < i < |name| - 1 then name[i..] else ""
  }

  /** `pathlib.PurePath.stem` of a final path component. */
  function Stem(name: string): (r: string)
    ensures r + Suffix(name) == name
  {
    var i := RFind(name, '.');
    if 0 < i < |name| - 1 then
      assert name[..i] + name[i..] == name;
      name[..i]
    else name
  }

  /** `str(Path(dir) / name)` for a directory already in pathlib's normal form ("" is `.`). */
  function Child(dir: string, name: string): string {
    if dir == "" || dir == "." then name
    else if EndsWith(dir, "/") then dir + name
    else dir + "/" + name
  }
}
