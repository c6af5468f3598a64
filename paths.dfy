/**
 * The two helpers of Python's posixpath module that the adapter relies on:
 * join for two components, and basename (used only to state what the names
 * handed to the transport layer mean).
 */
module Paths {

  /** A single relative path component, such as "bundle.txt". */
  predicate IsName(n: string)
  {
    n != [] && '/' !in n
  }

  /** True of a path that a component may follow directly: empty, or ending in '/'. */
  predicate IsDirPrefix(q: string)
  {
    q == [] || q[|q| - 1] == '/'
  }

  /** What join puts in front of a relative second component. */
  function DirPart(a: string): (q: string)
    ensures IsDirPrefix(q)
  {
    if IsDirPrefix(a) then a else a + "/"
  }

  /**
   * posixpath.join(a, b): an absolute b replaces a; otherwise b follows a,
   * with one '/' inserted unless a is empty or already ends in '/'.
   */
  function Join(a: string, b: string): (r: string)
    ensures |b| > 0 && b[0] == '/' ==> r == b
    ensures |b| <= |r| && r[|r| - |b|..] == b
    ensures !(|b| > 0 && b[0] == '/') ==>
              a <= r && |a| + |b| <= |r| <= |a| + 1 + |b| && IsDirPrefix(r[..|r| - |b|])
    ensures !(|b| > 0 && b[0] == '/') ==> (|r| == |a| + |b| <==> IsDirPrefix(a))
  {
    if |b| > 0 && b[0] == '/' then b
    else
      var r := DirPart(a) + b;
      assert r[..|r| - |b|] == DirPart(a);
      r
  }

  /**
   * posixpath.basename(p): the part of p after its last '/', i.e. the
   * longest suffix of p that holds no '/'.
   */
  function BaseName(p: string): (r: string)
    ensures |r| <= |p| && r == p[|p| - |r|..]
    ensures '/' !in r
    ensures |r| < |p| ==> p[|p| - |r| - 1] == '/'
  {
    if p == [] || p[|p| - 1] == '/' then []
    else
      var init := p[..|p| - 1];
      var r := BaseName(init) + [p[|p| - 1]];
      assert p[|p| - |r|..] == init[|init| - |r| + 1..] + [p[|p| - 1]];
      r
  }

  /** A slash-free tail following a directory prefix is exactly the basename. */
  lemma {:induction false} BaseNameAfterDir(q: string, n: string)
    requires IsDirPrefix(q) && '/' !in n
    ensures BaseName(q + n) == n
  {
    if n == [] {
      assert q + n == q;
    } else {
      var m := n[..|n| - 1];
      assert (q + n)[..|q + n| - 1] == q + m;
      BaseNameAfterDir(q, m);
      assert n == m + [n[|n| - 1]];
    }
  }

  /** Joining a name onto any directory gives a path whose basename is that name. */
  lemma BaseNameOfJoin(dir: string, n: string)
    requires IsName(n)
    ensures BaseName(Join(dir, n)) == n
  {
    BaseNameAfterDir(DirPart(dir), n);
  }

  /** Two different names joined onto one directory never give the same path. */
  lemma JoinInjective(dir: string, n1: string, n2: string)
    requires IsName(n1) && IsName(n2) && n1 != n2
    ensures Join(dir, n1) != Join(dir, n2)
  {
    BaseNameOfJoin(dir, n1);
    BaseNameOfJoin(dir, n2);
  }
}
