/** Workspace-relative paths as segment sequences; the empty sequence is the workspace root ".". */
module Paths {
  /** One UTF-16 code unit, the alphabet in which the worker compares strings. */
  type CodeUnit = u: nat | u < 0x1_0000
  type Name = seq<CodeUnit>
  type Path = seq<Name>

  const SLASH: CodeUnit := 0x2F
  const DOT: CodeUnit := 0x2E

  function Parent(p: Path): Path
    requires p != []
  {
    p[..|p| - 1]
  }

  /** `a` is a root that covers `q` and differs from it. */
  predicate ProperlyCovers(a: Path, q: Path) {
    a <= q && a != q
  }

  /** One of the two paths lies within the other. */
  predicate Overlaps(a: Path, b: Path) {
    a <= b || b <= a
  }

  predicate Covered(roots: seq<Path>, q: Path) {
    exists i :: 0 <= i < |roots| && roots[i] <= q
  }

  /** `q` lies within a root, or a root lies within `q`. */
  predicate Near(roots: seq<Path>, q: Path) {
    exists i :: 0 <= i < |roots| && Overlaps(roots[i], q)
  }

  lemma {:induction false} PrefixOfParent(a: Path, q: Path)
    requires ProperlyCovers(a, q)
    ensures a <= Parent(q)
  {
    assert a == q[..|a|] == Parent(q)[..|a|];
  }

  predicate DisjointRoots(xs: seq<Path>, ys: seq<Path>) {
    forall i, j :: 0 <= i < |xs| && 0 <= j < |ys| ==> !Overlaps(xs[i], ys[j])
  }

  lemma {:induction false} PrefixesAreComparable(a: Path, b: Path, q: Path)
    requires a <= q && b <= q
    ensures Overlaps(a, b)
  {
    assert a == q[..|a|] && b == q[..|b|];
  }

  // ---- The code works on strings; segments are what those strings mean. ----

  predicate ValidName(n: Name) {
    n != [] && SLASH !in n && n != [DOT]
  }

  predicate ValidPath(p: Path) {
    forall i :: 0 <= i < |p| ==> ValidName(p[i])
  }

  /** Every segment followed by "/". */
  function Slashed(p: Path): Name {
    if p == [] then [] else p[0] + [SLASH] + Slashed(p[1..])
  }

  /** The relative path string the journal stores: segments joined by "/", or "." for the root. */
  function Render(p: Path): Name {
    if p == [] then [DOT] else Slashed(p)[..|Slashed(p)| - 1]
  }

  /** The string test the source uses: "." or equal or prefixed by root + "/". */
  predicate IsPathWithin(path: Name, root: Name) {
    root == [DOT] || path == root || root + [SLASH] <= path
  }

  lemma {:induction false} FirstSegment(n: Name, a: Name, m: Name, b: Name)
    requires SLASH !in n && SLASH !in m
    ensures n + [SLASH] + a <= m + [SLASH] + b <==> n == m && a <= b
  {
    var s, t := n + [SLASH] + a, m + [SLASH] + b;
    if s <= t {
      assert forall k :: 0 <= k < |s| ==> s[k] == t[k];
      assert s[|n|] == SLASH && t[|m|] == SLASH;
      assert forall k :: 0 <= k < |n| ==> s[k] == n[k] != SLASH;
      assert forall k :: 0 <= k < |m| ==> t[k] == m[k] != SLASH;
      assert |n| == |m|;
      assert n == s[..|n|] == t[..|n|] == m;
      assert a == s[|n| + 1..] && b == t[|n| + 1..];
    }
  }

  lemma {:induction false} SlashedPrefix(root: Path, p: Path)
    requires ValidPath(p) && ValidPath(root)
    ensures Slashed(root) <= Slashed(p) <==> root <= p
  {
    if root != [] && p != [] {
      FirstSegment(root[0], Slashed(root[1..]), p[0], Slashed(p[1..]));
      SlashedPrefix(root[1..], p[1..]);
      assert root == [root[0]] + root[1..] && p == [p[0]] + p[1..];
    }
  }

  lemma {:induction false} RenderSlashed(p: Path)
    requires p != [] && ValidPath(p)
    ensures Slashed(p) == Render(p) + [SLASH] && Render(p) != [] && Render(p) != [DOT]
  {
    var s, rest := Slashed(p), Slashed(p[1..]);
    if |p| > 1 {
      RenderSlashed(p[1..]);
      assert s[|s| - 1] == rest[|rest| - 1] == SLASH;
    } else {
      assert s == p[0] + [SLASH];
    }
    assert s == s[..|s| - 1] + [SLASH];
    assert s[..|p[0]|] == p[0];
    assert ValidName(p[0]);
    if |p| > 1 { assert |s| > 2; } else { assert Render(p) == p[0]; }
  }

  /** The string test decides exactly the segment-prefix relation. */
  lemma {:induction false} StringTestIsPrefixTest(p: Path, root: Path)
    requires ValidPath(p) && ValidPath(root)
    ensures IsPathWithin(Render(p), Render(root)) <==> root <= p
  {
    if root != [] {
      RenderSlashed(root);
      SlashedPrefix(root, p);
      var x, y := Render(root), Render(p);
      if p != [] {
        RenderSlashed(p);
        if x + [SLASH] <= y + [SLASH] && |x| < |y| {
          assert x + [SLASH] == (y + [SLASH])[..|x| + 1] == y[..|x| + 1];
        }
        if x + [SLASH] <= y {
          assert x + [SLASH] == y[..|x| + 1] == (y + [SLASH])[..|x| + 1];
        }
        if x + [SLASH] <= y + [SLASH] && |x| == |y| {
          assert x == (x + [SLASH])[..|x|] == (y + [SLASH])[..|x|] == y;
        }
      }
    }
  }

  // ---- Ordering of names: the default array sort of the source. ----

  predicate NameLess(a: Name, b: Name) {
    if b == [] then false
    else if a == [] then true
    else a[0] < b[0] || (a[0] == b[0] && NameLess(a[1..], b[1..]))
  }

  lemma {:induction false} NameLessIrreflexive(a: Name)
    ensures !NameLess(a, a)
  {
    if a != [] { NameLessIrreflexive(a[1..]); }
  }

  lemma {:induction false} NameLessTransitive(a: Name, b: Name, c: Name)
    requires NameLess(a, b) && NameLess(b, c)
    ensures NameLess(a, c)
  {
    if a != [] && a[0] == b[0] && b[0] == c[0] {
      NameLessTransitive(a[1..], b[1..], c[1..]);
    }
  }

  lemma {:induction false} NameLessTotal(a: Name, b: Name)
    ensures NameLess(a, b) || NameLess(b, a) || a == b
  {
    if a != [] && b != [] && a[0] == b[0] {
      NameLessTotal(a[1..], b[1..]);
      if a[1..] == b[1..] {
        assert a == [a[0]] + a[1..] == [b[0]] + b[1..] == b;
      }
    }
  }

  lemma {:induction false} MinNameExists(s: set<Name>) returns (m: Name)
    requires s != {}
    ensures m in s && forall x :: x in s && x != m ==> NameLess(m, x)
  {
    m :| m in s;
    if s != {m} {
      var a := m;
      var least := MinNameExists(s - {a});
      NameLessTotal(a, least);
      if !NameLess(a, least) {
        m := least;
      }
      forall x | x in s && x != m ensures NameLess(m, x) {
        if m == a && x != least {
          NameLessTransitive(a, least, x);
        }
      }
    }
  }

  ghost function MinName(s: set<Name>): (m: Name)
    requires s != {}
    ensures m in s && forall x :: x in s && x != m ==> NameLess(m, x)
  {
    assert exists m :: m in s && forall x :: x in s && x != m ==> NameLess(m, x) by {
      var m := MinNameExists(s);
    }
    var m :| m in s && forall x :: x in s && x != m ==> NameLess(m, x);
    m
  }

  /** The sorted listing of a set of names. */
  ghost function Sorted(s: set<Name>): (r: seq<Name>)
    ensures forall n :: n in r <==> n in s
  {
    if s == {} then [] else
      var m := MinName(s);
      [m] + Sorted(s - {m})
  }

  predicate StrictlyIncreasing(r: seq<Name>) {
    forall i, j :: 0 <= i < j < |r| ==> NameLess(r[i], r[j])
  }

  /** A strictly increasing listing of a set is its sorted listing. */
  lemma {:induction false} SortedIsUnique(s: set<Name>, r: seq<Name>)
    requires StrictlyIncreasing(r) && forall n :: n in r <==> n in s
    ensures r == Sorted(s)
    decreases |r|
  {
    if r == [] {
      assert forall n :: n in s ==> n in r;
      assert s == {};
    } else {
      assert r[0] in s;
      var m := MinName(s);
      if r[0] != m {
        assert m in r;
        var k :| 0 <= k < |r| && r[k] == m;
        assert NameLess(r[0], r[k]) && NameLess(m, r[0]);
        NameLessTransitive(m, r[0], m);
        NameLessIrreflexive(m);
      }
      forall n ensures n in r[1..] <==> n in s - {m} {
        if n in r[1..] {
          var k :| 1 <= k < |r| && r[k] == n;
          assert NameLess(r[0], r[k]);
          if n == m { NameLessIrreflexive(m); }
        }
        if n in s - {m} {
          assert n in r;
        }
      }
      SortedIsUnique(s - {m}, r[1..]);
    }
  }

  method SortNames(names: set<Name>) returns (r: seq<Name>)
    ensures r == Sorted(names)
  {
    r := [];
    var rest := names;
    while rest != {}
      invariant r + Sorted(rest) == Sorted(names)
    {
      ghost var least := MinName(rest);
      var m :| m in rest && forall x :: x in rest && x != m ==> NameLess(m, x);
      if m != least {
        NameLessTransitive(m, least, m);
        NameLessIrreflexive(m);
      }
      assert Sorted(rest) == [m] + Sorted(rest - {m});
      r := r + [m];
      rest := rest - {m};
    }
  }
}
