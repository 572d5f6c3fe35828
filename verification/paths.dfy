/** POSIX path helpers with the meaning Python's os.path gives them, and Python's
    substring test `part in s`. */
module Paths {

  /** os.path.join(a, b): an absolute `b` replaces `a`; otherwise a separator is
      inserted unless `a` is empty or already ends with one. */
  function Join(a: string, b: string): string
  {
    if |b| > 0 && b[0] == '/' then b
    else if a == [] || a[|a| - 1] == '/' then a + b
    else a + "/" + b
  }

  /** The joined path ends with its last component, and a relative component is
      placed under the directory. */
  lemma JoinEndsWith(a: string, b: string)
    ensures var r := Join(a, b);
      && |b| <= |r| && r[|r| - |b|..] == b
      && ((|b| == 0 || b[0] != '/') ==> a <= r && |r| > |a| + |b| - 1)
  {
    var r := Join(a, b);
    if !(|b| > 0 && b[0] == '/') && !(a == [] || a[|a| - 1] == '/') {
      assert r == a + "/" + b;
      assert r[|r| - |b|..] == b;
    }
  }

  /** os.path.basename(p): everything after the last '/'. */
  function Basename(p: string): (r: string)
    ensures '/' !in r
    decreases |p|
  {
    if p == [] || p[|p| - 1] == '/' then [] else Basename(p[..|p| - 1]) + [p[|p| - 1]]
  }

  /** The basename is a suffix of the path, preceded by '/' unless it is the whole path. */
  lemma {:induction false} BasenameIsSuffix(p: string)
    ensures var r := Basename(p);
      && |r| <= |p| && r == p[|p| - |r|..]
      && (|r| < |p| ==> p[|p| - |r| - 1] == '/')
    decreases |p|
  {
    if p != [] && p[|p| - 1] != '/' {
      var init := p[..|p| - 1];
      BasenameIsSuffix(init);
      var rest := Basename(init);
      assert init[|init| - |rest|..] + [p[|p| - 1]] == p[|p| - 1 - |rest|..];
    }
  }

  /** The basename is the only slash-free suffix that follows a '/' or starts the path. */
  lemma BasenameIsSuffixAfterLastSlash(p: string, k: nat)
    requires k <= |p|
    requires '/' !in p[k..]
    requires k == 0 || p[k - 1] == '/'
    ensures Basename(p) == p[k..]
  {
    BasenameIsSuffix(p);
  }

  /** A slash-free name joined under any directory keeps its name as basename. */
  lemma BasenameOfJoin(dir: string, name: string)
    requires '/' !in name
    ensures Basename(Join(dir, name)) == name
  {
    var p := Join(dir, name);
    JoinEndsWith(dir, name);
    var k := |p| - |name|;
    assert p[k..] == name;
    if k > 0 {
      assert dir != [];
      if dir[|dir| - 1] == '/' {
        assert p == dir + name;
        assert p[k - 1] == dir[|dir| - 1];
      } else {
        assert p == dir + "/" + name;
        assert p[k - 1] == '/';
      }
    }
    BasenameIsSuffixAfterLastSlash(p, k);
  }

  /** Joining under a fixed directory keeps relative names apart. */
  lemma JoinInjective(a: string, b1: string, b2: string)
    requires |b1| == 0 || b1[0] != '/'
    requires |b2| == 0 || b2[0] != '/'
    requires Join(a, b1) == Join(a, b2)
    ensures b1 == b2
  {
    var r := Join(a, b1);
    JoinEndsWith(a, b1);
    JoinEndsWith(a, b2);
    assert |b1| == |b2|;
    assert b1 == r[|r| - |b1|..] == b2;
  }

  /** `part` occurs in `s` starting at index `i`. */
  predicate OccursAt(s: string, part: string, i: int)
  {
    0 <= i && i + |part| <= |s| && s[i..i + |part|] == part
  }

  /** Python's `part in s` on strings: a substring test. */
  predicate Contains(s: string, part: string)
  {
    exists i | 0 <= i <= |s| - |part| :: OccursAt(s, part, i)
  }
}
