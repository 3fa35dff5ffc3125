/**
 * The three `os.path` functions (POSIX flavour) the Python tools apply to
 * file names: `basename`, `dirname` and `join`. Paths are plain strings;
 * nothing touches a file system.
 */
module PyPath {
  import opened Text

  /** The index just past the last `/` of `p`, or 0 when `p` has none. */
  function SlashEnd(p: string): (k: nat)
    ensures k <= |p|
    ensures k > 0 ==> p[k - 1] == '/'
    ensures '/' !in p[k..]
    decreases |p|
  {
    if p == [] then 0
    else if p[|p| - 1] == '/' then |p|
    else
      var k := SlashEnd(p[..|p| - 1]);
      assert p[k..] == p[..|p| - 1][k..] + [p[|p| - 1]];
      k
  }

  /** `os.path.basename`: everything after the last `/`. */
  function Basename(p: string): (r: string)
    ensures '/' !in r
    ensures EndsWith(p, r)
    ensures |r| < |p| ==> p[|p| - |r| - 1] == '/'
  {
    p[SlashEnd(p)..]
  }

  predicate AllSlashes(s: string) { forall i :: 0 <= i < |s| ==> s[i] == '/' }

  /** `str.rstrip('/')`. */
  function StripTrailingSlashes(s: string): (r: string)
    ensures StartsWith(s, r)
    ensures r == [] || r[|r| - 1] != '/'
    ensures AllSlashes(s[|r|..])
    decreases |s|
  {
    if s != [] && s[|s| - 1] == '/' then
      var r := StripTrailingSlashes(s[..|s| - 1]);
      assert s[|r|..] == s[..|s| - 1][|r|..] + ['/'];
      r
    else s
  }

  /**
   * `os.path.dirname`: everything up to the last `/`, with the trailing
   * slashes removed unless the head consists of slashes only.
   */
  function Dirname(p: string): (r: string)
    ensures StartsWith(p, r)
  {
    var head := p[..SlashEnd(p)];
    if head != [] && !AllSlashes(head) then StripTrailingSlashes(head) else head
  }

  /** `os.path.dirname(p) or '.'`: the directory the comparison tools list. */
  function DirnameOrDot(p: string): (r: string)
    ensures r != []
    ensures r == "." || StartsWith(p, r)
  {
    var d := Dirname(p);
    if d == [] then "." else d
  }

  /** `os.path.join(a, b)` for two components. */
  function Join(a: string, b: string): (r: string)
    ensures EndsWith(r, b)
  {
    if StartsWith(b, "/") then b
    else if a == [] || a[|a| - 1] == '/' then a + b
    else a + "/" + b
  }

  /** A path written as `dir + "/" + name`, with no `/` in `name`, has basename `name`. */
  lemma BasenameOfJoined(dir: string, name: string)
    requires '/' !in name
    ensures Basename(dir + "/" + name) == name
  {
    var p := dir + "/" + name;
    assert p[..|p| - |name|] == dir + "/";
    SlashEndAfterLast(dir + "/", name);
  }

  lemma {:induction false} SlashEndAfterLast(d: string, name: string)
    requires d != [] && d[|d| - 1] == '/'
    requires '/' !in name
    ensures SlashEnd(d + name) == |d|
    decreases |name|
  {
    var p := d + name;
    if name == [] {
      assert p == d;
    } else {
      assert p[|p| - 1] == name[|name| - 1];
      assert p[..|p| - 1] == d + name[..|name| - 1];
      SlashEndAfterLast(d, name[..|name| - 1]);
    }
  }

  /**
   * A path written as `dir + "/" + name` has directory part `dir` when `dir`
   * is not empty and does not end with `/`.
   */
  lemma DirnameOfJoined(dir: string, name: string)
    requires '/' !in name
    requires dir != [] && dir[|dir| - 1] != '/'
    ensures Dirname(dir + "/" + name) == dir
  {
    var p := dir + "/" + name;
    SlashEndAfterLast(dir + "/", name);
    var head := p[..|dir| + 1];
    assert head == dir + "/";
    assert head[|head| - 1] == '/' && head[..|head| - 1] == dir;
    assert !AllSlashes(head) by { assert head[|dir| - 1] != '/'; }
  }

  /** A name without `/` is its own basename. */
  lemma BasenameOfBareName(name: string)
    requires '/' !in name
    ensures Basename(name) == name
  {
  }

  /** A bare name has no directory part, so the tools fall back to `.`. */
  lemma DirnameOfBareName(name: string)
    requires '/' !in name
    ensures Dirname(name) == ""
  {
  }

  /** Joining a directory that does not end with `/` to a relative name puts one `/` between them. */
  lemma JoinRelative(dir: string, name: string)
    requires dir != [] && dir[|dir| - 1] != '/'
    requires name == [] || name[0] != '/'
    ensures Join(dir, name) == dir + "/" + name
  {
  }
}
