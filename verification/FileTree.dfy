/** The workspace as a tree-shaped map from paths to nodes, and the file operations the service uses. */
module FileTree {
  import opened Paths
  import opened Wrappers

  type Content = seq<nat>

  datatype Node = File(content: Content) | Directory | Symlink(target: Content)

  type Tree = map<Path, Node>

  /** Every node but the root sits in a directory. */
  ghost predicate TreeShaped(t: Tree) {
    forall p :: p in t && p != [] ==> Parent(p) in t && t[Parent(p)].Directory?
  }

  predicate Same(t: Tree, u: Tree, q: Path) {
    (q in t <==> q in u) && (q in t ==> t[q] == u[q])
  }

  lemma {:induction false} SameEverywhere(t: Tree, u: Tree)
    requires forall q :: Same(t, u, q)
    ensures t == u
  {
    forall q ensures q in t <==> q in u {
      assert Same(t, u, q);
    }
    forall q | q in t ensures t[q] == u[q] {
      assert Same(t, u, q);
    }
  }

  function Restrict(t: Tree, p: Path): (r: Tree)
    ensures forall q :: q in r <==> q in t && p <= q
    ensures forall q :: q in r ==> r[q] == t[q]
  {
    map q | q in t && p <= q :: t[q]
  }

  /** `t` with everything within the roots replaced by what `u` holds there. */
  function Overwrite(t: Tree, roots: seq<Path>, u: Tree): (r: Tree)
    ensures forall q :: Covered(roots, q) ==> Same(r, u, q)
    ensures forall q :: !Covered(roots, q) ==> Same(r, t, q)
  {
    map q | q in t.Keys + u.Keys && (if Covered(roots, q) then q in u else q in t)
      :: if Covered(roots, q) then u[q] else t[q]
  }

  ghost predicate AgreeOutside(t: Tree, u: Tree, roots: seq<Path>) {
    forall q :: !Covered(roots, q) ==> Same(t, u, q)
  }

  ghost predicate AgreeNear(t: Tree, u: Tree, roots: seq<Path>) {
    forall q :: Near(roots, q) ==> Same(t, u, q)
  }

  predicate IsDirectory(t: Tree, p: Path) {
    p in t && t[p].Directory?
  }

  /** The directory a root lives in exists, hence every directory on the way to it. */
  ghost predicate ParentExists(t: Tree, p: Path) {
    forall a :: ProperlyCovers(a, p) ==> IsDirectory(t, a)
  }

  ghost predicate ParentsExist(t: Tree, roots: seq<Path>) {
    forall i :: 0 <= i < |roots| ==> ParentExists(t, roots[i])
  }

  lemma {:induction false} AncestorsAreDirectories(t: Tree, a: Path, q: Path)
    requires TreeShaped(t) && q in t && ProperlyCovers(a, q)
    ensures IsDirectory(t, a)
    decreases |q|
  {
    var up := Parent(q);
    assert a == q[..|a|] == up[..|a|];
    if a != up {
      AncestorsAreDirectories(t, a, up);
    }
  }

  // ---- Directory walk ----

  ghost function ChildNames(t: Tree, p: Path): (names: set<Name>)
    ensures forall n :: n in names <==> p + [n] in t
  {
    var names := set q | q in t && |q| == |p| + 1 && p <= q :: q[|p|];
    assert forall n :: p + [n] in t ==> (p + [n])[|p|] in names;
    assert forall q :: q in t && |q| == |p| + 1 && p <= q ==> q == p + [q[|p|]];
    names
  }

  datatype Entry = Entry(path: Path, node: Node)

  ghost function Under(t: Tree, p: Path): set<Path> {
    set q | q in t && p <= q
  }

  /** Depth-first listing of the subtree at `p`, children in name order. */
  ghost function Walk(t: Tree, p: Path): (r: seq<Entry>)
    requires p in t
    ensures r != [] && r[0] == Entry(p, t[p])
    decreases Under(t, p), 1, 0
  {
    if t[p].Directory? then [Entry(p, t[p])] + WalkAll(t, p, Sorted(ChildNames(t, p)))
    else [Entry(p, t[p])]
  }

  ghost function WalkAll(t: Tree, p: Path, names: seq<Name>): seq<Entry>
    requires p in t && forall n :: n in names ==> p + [n] in t
    decreases Under(t, p), 0, |names|
  {
    if names == [] then [] else
      var child := p + [names[0]];
      assert child in t;
      assert Under(t, child) <= Under(t, p) && p in Under(t, p) && p !in Under(t, child);
      Walk(t, child) + WalkAll(t, p, names[1..])
  }

  lemma {:induction false} WalkAllStep(t: Tree, p: Path, names: seq<Name>, i: nat)
    requires p in t && i < |names| && forall n :: n in names ==> p + [n] in t
    ensures var child := p + [names[i]];
            && child in t && Under(t, child) < Under(t, p)
            && WalkAll(t, p, names[i..]) == Walk(t, child) + WalkAll(t, p, names[i + 1..])
  {
    var child := p + [names[i]];
    assert names[i] in names;
    assert Under(t, child) <= Under(t, p) && p in Under(t, p) && p !in Under(t, child);
    assert names[i..][0] == names[i] && names[i..][1..] == names[i + 1..];
  }

  /** What a snapshot of one root holds. */
  ghost function Capture(t: Tree, p: Path): seq<Entry> {
    if p in t then Walk(t, p) else []
  }

  lemma {:induction false} WalkLists(t: Tree, p: Path, e: Entry)
    requires TreeShaped(t) && p in t
    ensures e in Walk(t, p) <==> e.path in t && p <= e.path && t[e.path] == e.node
    decreases Under(t, p), 1, 0
  {
    if e.path in t && ProperlyCovers(p, e.path) {
      AncestorsAreDirectories(t, p, e.path);
    }
    if t[p].Directory? {
      var names := Sorted(ChildNames(t, p));
      WalkAllLists(t, p, names, e);
      if e.path in t { ChildTowards(t, p, e.path); }
      assert Walk(t, p) == [Entry(p, t[p])] + WalkAll(t, p, names);
    }
  }

  lemma {:induction false} ChildTowards(t: Tree, p: Path, q: Path)
    requires TreeShaped(t) && p in t && q in t
    ensures ProperlyCovers(p, q) <==> exists n :: n in Sorted(ChildNames(t, p)) && p + [n] <= q
  {
    if ProperlyCovers(p, q) {
      var n := q[|p|];
      assert p + [n] == q[..|p| + 1] <= q;
      if p + [n] != q {
        AncestorsAreDirectories(t, p + [n], q);
      }
      assert n in Sorted(ChildNames(t, p));
    }
    if n :| n in Sorted(ChildNames(t, p)) && p + [n] <= q {
      assert p <= p + [n];
    }
  }

  lemma {:induction false} WalkAllLists(t: Tree, p: Path, names: seq<Name>, e: Entry)
    requires TreeShaped(t) && p in t && forall n :: n in names ==> p + [n] in t
    ensures e in WalkAll(t, p, names) <==>
            e.path in t && t[e.path] == e.node && exists n :: n in names && p + [n] <= e.path
    decreases Under(t, p), 0, |names|
  {
    if names != [] {
      var child := p + [names[0]];
      assert child in t;
      assert Under(t, child) <= Under(t, p) && p in Under(t, p) && p !in Under(t, child);
      WalkLists(t, child, e);
      WalkAllLists(t, p, names[1..], e);
      assert forall n :: n in names <==> n == names[0] || n in names[1..];
    }
  }

  lemma {:induction false} CaptureLists(t: Tree, p: Path, e: Entry)
    requires TreeShaped(t)
    ensures e in Capture(t, p) <==> e.path in t && p <= e.path && t[e.path] == e.node
  {
    if p in t {
      WalkLists(t, p, e);
    } else if e.path in t && p <= e.path {
      AncestorsAreDirectories(t, p, e.path);
    }
  }

  /** A walk sees nothing outside its subtree. */
  lemma {:induction false} WalkIsLocal(t: Tree, u: Tree, p: Path)
    requires p in t && Restrict(t, p) == Restrict(u, p)
    ensures p in u && Walk(t, p) == Walk(u, p)
    decreases Under(t, p), 1, 0
  {
    assert p in Restrict(t, p);
    assert forall q :: q in Restrict(t, p) <==> q in Restrict(u, p);
    if t[p].Directory? {
      assert forall n :: p + [n] in Restrict(t, p) <==> p + [n] in t;
      assert forall n :: p + [n] in Restrict(u, p) <==> p + [n] in u;
      assert ChildNames(t, p) == ChildNames(u, p);
      WalkAllIsLocal(t, u, p, Sorted(ChildNames(t, p)));
    }
  }

  lemma {:induction false} WalkAllIsLocal(t: Tree, u: Tree, p: Path, names: seq<Name>)
    requires p in t && p in u && Restrict(t, p) == Restrict(u, p)
    requires forall n :: n in names ==> p + [n] in t && p + [n] in u
    ensures WalkAll(t, p, names) == WalkAll(u, p, names)
    decreases Under(t, p), 0, |names|
  {
    if names != [] {
      var child := p + [names[0]];
      assert child in t;
      assert Under(t, child) <= Under(t, p) && p in Under(t, p) && p !in Under(t, child);
      assert Restrict(t, child) == Restrict(Restrict(t, p), child);
      assert Restrict(u, child) == Restrict(Restrict(u, p), child);
      WalkIsLocal(t, u, child);
      WalkAllIsLocal(t, u, p, names[1..]);
    }
  }

  /** Two snapshots of a root are equal exactly when the two subtrees are. */
  lemma {:induction false} CaptureIsExact(t: Tree, u: Tree, p: Path)
    requires TreeShaped(t) && TreeShaped(u)
    ensures Capture(t, p) == Capture(u, p) <==> Restrict(t, p) == Restrict(u, p)
  {
    if Restrict(t, p) == Restrict(u, p) {
      assert p in Restrict(t, p) <==> p in Restrict(u, p);
      if p in t { WalkIsLocal(t, u, p); }
    }
    if Capture(t, p) == Capture(u, p) {
      forall q ensures Same(Restrict(t, p), Restrict(u, p), q) {
        if q in Restrict(t, p) { CaptureLists(t, p, Entry(q, t[q])); CaptureLists(u, p, Entry(q, t[q])); }
        if q in Restrict(u, p) { CaptureLists(t, p, Entry(q, u[q])); CaptureLists(u, p, Entry(q, u[q])); }
      }
      SameEverywhere(Restrict(t, p), Restrict(u, p));
    }
  }

  // ---- File operations used by a restore; None is a thrown file-system error ----

  /** Recursive, forced removal. */
  function Remove(t: Tree, p: Path): (r: Tree)
    ensures forall q :: p <= q ==> q !in r
    ensures forall q :: !(p <= q) ==> Same(r, t, q)
  {
    map q | q in t && !(p <= q) :: t[q]
  }

  /** Recursive directory creation: fails on anything in the way that is not a directory. */
  function MakeDirectory(t: Tree, p: Path): (r: Option<Tree>) {
    var up :- if p == [] then Some(t) else MakeDirectory(t, Parent(p));
    if p !in up then Some(up[p := Directory]) else if up[p].Directory? then Some(up) else None
  }

  lemma {:induction false} MakeDirectoryFindsIt(t: Tree, p: Path)
    requires ParentExists(t, p) && IsDirectory(t, p)
    ensures MakeDirectory(t, p) == Some(t)
    decreases |p|
  {
    if p != [] {
      assert ProperlyCovers(Parent(p), p);
      forall a | ProperlyCovers(a, Parent(p)) ensures IsDirectory(t, a) {
        assert ProperlyCovers(a, p);
      }
      MakeDirectoryFindsIt(t, Parent(p));
    }
  }

  lemma {:induction false} ParentExistsAtParent(t: Tree, p: Path)
    requires p != [] && ParentExists(t, p)
    ensures ParentExists(t, Parent(p)) && IsDirectory(t, Parent(p))
  {
    assert ProperlyCovers(Parent(p), p);
    forall a | ProperlyCovers(a, Parent(p)) ensures IsDirectory(t, a) {
      assert ProperlyCovers(a, p);
    }
  }

  function MakeDirectories(t: Tree, entries: seq<Entry>): (r: Option<Tree>)
    decreases |entries|
  {
    if entries == [] then Some(t)
    else if entries[0].node.Directory? then
      var next :- MakeDirectory(t, entries[0].path);
      MakeDirectories(next, entries[1..])
    else MakeDirectories(t, entries[1..])
  }

  /** Writes a file over nothing or over a file; a link needs a free path. */
  function WriteLeaf(t: Tree, p: Path, node: Node): (r: Option<Tree>)
    requires !node.Directory?
  {
    var made :- if p == [] then Some(t) else MakeDirectory(t, Parent(p));
    if p in made && !(made[p].File? && node.File?) then None else Some(made[p := node])
  }

  function WriteLeaves(t: Tree, entries: seq<Entry>): (r: Option<Tree>)
    decreases |entries|
  {
    if entries == [] then Some(t)
    else if entries[0].node.Directory? then WriteLeaves(t, entries[1..])
    else
      var next :- WriteLeaf(t, entries[0].path, entries[0].node);
      WriteLeaves(next, entries[1..])
  }

  /** One root of a restore: remove it, then directories, then files and links. */
  function RestoreRoot(t: Tree, root: Path, entries: seq<Entry>): Option<Tree> {
    var made :- MakeDirectories(Remove(t, root), entries);
    WriteLeaves(made, entries)
  }

  // ---- A restore of a captured root is exact ----

  /** `t` is `base` outside the root; inside it holds only directories that `u` has too. */
  ghost predicate Scaffold(t: Tree, base: Tree, root: Path, u: Tree) {
    && (forall q :: !(root <= q) ==> Same(t, base, q))
    && (forall q :: root <= q && q in t ==> IsDirectory(u, q) && t[q].Directory?)
    && ParentExists(t, root)
  }

  lemma {:induction false} MakeDirectoryBuildsScaffold(t: Tree, p: Path, base: Tree, root: Path, u: Tree)
    requires TreeShaped(u) && Scaffold(t, base, root, u)
    requires root <= p && IsDirectory(u, p)
    ensures var r := MakeDirectory(t, p);
            r.Some? && Scaffold(r.value, base, root, u) && p in r.value && t.Keys <= r.value.Keys
    decreases |p|
  {
    if p != [] {
      var up := Parent(p);
      if p == root {
        ParentExistsAtParent(t, p);
        MakeDirectoryFindsIt(t, up);
      } else {
        assert root == p[..|root|] == up[..|root|];
        MakeDirectoryBuildsScaffold(t, up, base, root, u);
      }
      var made := MakeDirectory(t, up).value;
      var next := if p in made then made else made[p := Directory];
      forall q | !(root <= q) ensures Same(next, base, q) {
        assert Same(made, base, q);
      }
      assert MakeDirectory(t, p) == Some(next);
    }
  }

  lemma {:induction false} MakeDirectoriesBuildsScaffold(t: Tree, es: seq<Entry>, base: Tree, root: Path, u: Tree)
    requires TreeShaped(u) && Scaffold(t, base, root, u)
    requires forall e :: e in es ==> root <= e.path && e.path in u && u[e.path] == e.node
    ensures var r := MakeDirectories(t, es);
            && r.Some? && Scaffold(r.value, base, root, u) && t.Keys <= r.value.Keys
            && forall e :: e in es && e.node.Directory? ==> e.path in r.value
    decreases |es|
  {
    if es != [] {
      var next := t;
      assert es[0] in es;
      if es[0].node.Directory? {
        MakeDirectoryBuildsScaffold(t, es[0].path, base, root, u);
        next := MakeDirectory(t, es[0].path).value;
      }
      MakeDirectoriesBuildsScaffold(next, es[1..], base, root, u);
      assert forall e :: e in es <==> e == es[0] || e in es[1..];
    }
  }

  /** All directories of `u` within the root are in place, and some of its leaves. */
  ghost predicate PartlyWritten(t: Tree, base: Tree, root: Path, u: Tree) {
    && (forall q :: !(root <= q) ==> Same(t, base, q))
    && (forall q :: root <= q && q in t ==> q in u && t[q] == u[q])
    && (forall q :: root <= q && IsDirectory(u, q) ==> q in t)
    && ParentExists(t, root)
  }

  lemma {:induction false} WrittenParent(t: Tree, base: Tree, root: Path, u: Tree, p: Path)
    requires TreeShaped(u) && PartlyWritten(t, base, root, u) && root <= p && p in u && p != []
    ensures ParentExists(t, Parent(p)) && IsDirectory(t, Parent(p))
  {
    forall a | ProperlyCovers(a, p) ensures IsDirectory(t, a) {
      if root <= a {
        AncestorsAreDirectories(u, a, p);
      } else {
        PrefixesAreComparable(root, a, p);
        assert ProperlyCovers(a, root);
      }
    }
    ParentExistsAtParent(t, p);
  }

  lemma {:induction false} WriteLeavesCompletes(t: Tree, es: seq<Entry>, base: Tree, root: Path, u: Tree)
    requires TreeShaped(u) && PartlyWritten(t, base, root, u)
    requires forall e :: e in es ==> root <= e.path && e.path in u && u[e.path] == e.node
    requires forall e :: e in es && e.node.Symlink? ==> e.path !in t
    requires forall i, j :: 0 <= i < j < |es| ==> es[i].path != es[j].path
    ensures var r := WriteLeaves(t, es);
            && r.Some? && PartlyWritten(r.value, base, root, u) && t.Keys <= r.value.Keys
            && forall e :: e in es && !e.node.Directory? ==> e.path in r.value
    decreases |es|
  {
    if es != [] {
      assert es[0] in es;
      var next, p := t, es[0].path;
      if !es[0].node.Directory? {
        if p != [] {
          var up := Parent(p);
          if p != root {
            assert root == p[..|root|] == up[..|root|];
            assert IsDirectory(u, up);
          }
          WrittenParent(t, base, root, u, p);
          MakeDirectoryFindsIt(t, up);
        }
        next := t[p := es[0].node];
        assert WriteLeaf(t, p, es[0].node) == Some(next);
        forall q | !(root <= q) ensures Same(next, base, q) {
          assert Same(t, base, q);
        }
      }
      assert forall e :: e in es <==> e == es[0] || e in es[1..];
      forall e | e in es[1..] && e.node.Symlink? ensures e.path !in next {
        var j :| 1 <= j < |es| && es[j] == e;
        assert es[0].path != es[j].path;
      }
      WriteLeavesCompletes(next, es[1..], base, root, u);
    }
  }

  // ---- Walks never repeat a path ----

  ghost predicate DistinctPaths(es: seq<Entry>) {
    forall i, j :: 0 <= i < j < |es| ==> es[i].path != es[j].path
  }

  lemma {:induction false} WalkWithin(t: Tree, p: Path)
    requires p in t
    ensures forall e :: e in Walk(t, p) ==> p <= e.path
    ensures DistinctPaths(Walk(t, p))
    decreases Under(t, p), 1, 0
  {
    if t[p].Directory? {
      var names := Sorted(ChildNames(t, p));
      SortedIsDistinct(ChildNames(t, p));
      WalkAllWithin(t, p, names);
      forall e | e in WalkAll(t, p, names) ensures p <= e.path && e.path != p {
        var n :| n in names && p + [n] <= e.path;
        assert p <= p + [n];
      }
    }
  }

  lemma {:induction false} WalkAllWithin(t: Tree, p: Path, names: seq<Name>)
    requires p in t && (forall n :: n in names ==> p + [n] in t)
    requires forall i, j :: 0 <= i < j < |names| ==> names[i] != names[j]
    ensures forall e :: e in WalkAll(t, p, names) ==> exists n :: n in names && p + [n] <= e.path
    ensures DistinctPaths(WalkAll(t, p, names))
    decreases Under(t, p), 0, |names|
  {
    if names != [] {
      var child := p + [names[0]];
      assert child in t;
      assert Under(t, child) <= Under(t, p) && p in Under(t, p) && p !in Under(t, child);
      WalkWithin(t, child);
      WalkAllWithin(t, p, names[1..]);
      assert forall n :: n in names <==> n == names[0] || n in names[1..];
      var a, b := Walk(t, child), WalkAll(t, p, names[1..]);
      forall i, j | 0 <= i < |a| && 0 <= j < |b| ensures a[i].path != b[j].path {
        assert a[i] in a && b[j] in b;
        var n :| n in names[1..] && p + [n] <= b[j].path;
        assert (p + [n])[|p|] == n && child[|p|] == names[0];
      }
    }
  }

  lemma {:induction false} SortedIsDistinct(s: set<Name>)
    ensures forall i, j :: 0 <= i < j < |Sorted(s)| ==> Sorted(s)[i] != Sorted(s)[j]
  {
    if s != {} {
      var m := MinName(s);
      SortedIsDistinct(s - {m});
      assert forall k :: 0 <= k < |Sorted(s - {m})| ==> Sorted(s - {m})[k] in s - {m};
    }
  }

  /** Restoring a snapshot makes the root what it was, and touches nothing else. */
  lemma {:induction false} RestoreRootIsExact(t: Tree, root: Path, u: Tree)
    requires TreeShaped(u) && ParentExists(t, root)
    ensures RestoreRoot(t, root, Capture(u, root)) == Some(Overwrite(t, [root], u))
  {
    var es := Capture(u, root);
    var t1 := Remove(t, root);
    forall e: Entry ensures e in es <==> e.path in u && root <= e.path && u[e.path] == e.node {
      CaptureLists(u, root, e);
    }
    forall a | ProperlyCovers(a, root) ensures IsDirectory(t1, a) {
      assert !(root <= a);
      assert Same(t1, t, a);
    }
    MakeDirectoriesBuildsScaffold(t1, es, t, root, u);
    var t2 := MakeDirectories(t1, es).value;
    forall q | root <= q && IsDirectory(u, q) ensures q in t2 {
      assert Entry(q, u[q]) in es;
    }
    if root in u { WalkWithin(u, root); }
    WriteLeavesCompletes(t2, es, t, root, u);
    var t3 := WriteLeaves(t2, es).value;
    assert RestoreRoot(t, root, es) == Some(t3);
    var want := Overwrite(t, [root], u);
    forall q ensures Same(t3, want, q) {
      CoveredByOne(root, q);
      if root <= q {
        assert Same(want, u, q);
        if q in u { assert Entry(q, u[q]) in es; }
      } else {
        assert Same(want, t, q) && Same(t3, t, q);
      }
    }
    SameEverywhere(t3, want);
  }

  lemma {:induction false} CoveredByOne(root: Path, q: Path)
    ensures Covered([root], q) <==> root <= q
  {
    assert [root][0] == root;
  }
}
