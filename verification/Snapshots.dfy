/** Snapshots of several roots, their restoration, and when restoration can be relied on. */
module Snapshots {
  import opened Paths
  import opened FileTree
  import opened Wrappers

  datatype RootSnapshot = RootSnapshot(path: Path, entries: seq<Entry>)

  function PathsOf(snaps: seq<RootSnapshot>): (r: seq<Path>)
    ensures |r| == |snaps| && forall i :: 0 <= i < |r| ==> r[i] == snaps[i].path
  {
    seq(|snaps|, i requires 0 <= i < |snaps| => snaps[i].path)
  }

  ghost function CaptureAll(t: Tree, roots: seq<Path>): (r: seq<RootSnapshot>)
    ensures |r| == |roots|
    ensures forall i :: 0 <= i < |r| ==> r[i] == RootSnapshot(roots[i], Capture(t, roots[i]))
  {
    if roots == [] then [] else [RootSnapshot(roots[0], Capture(t, roots[0]))] + CaptureAll(t, roots[1..])
  }

  lemma {:induction false} SameSubtree(r: Tree, u: Tree, roots: seq<Path>, i: nat)
    requires i < |roots| && forall q :: Covered(roots, q) ==> Same(r, u, q)
    ensures Restrict(r, roots[i]) == Restrict(u, roots[i])
    ensures roots[i] in r <==> roots[i] in u
  {
    forall q | roots[i] <= q ensures Same(r, u, q) {
      assert Covered(roots, q);
    }
    assert roots[i] <= roots[i];
    assert Same(r, u, roots[i]);
    var a, b := Restrict(r, roots[i]), Restrict(u, roots[i]);
    forall q ensures Same(a, b, q) {
      if roots[i] <= q { assert Same(r, u, q); }
    }
    SameEverywhere(a, b);
  }

  /** Trees that agree within the roots have the same snapshots. */
  lemma {:induction false} CapturesAgree(r: Tree, u: Tree, roots: seq<Path>)
    requires forall q :: Covered(roots, q) ==> Same(r, u, q)
    ensures CaptureAll(r, roots) == CaptureAll(u, roots)
  {
    forall i | 0 <= i < |roots| ensures Capture(r, roots[i]) == Capture(u, roots[i]) {
      SameSubtree(r, u, roots, i);
      if roots[i] in u { WalkIsLocal(u, r, roots[i]); }
    }
  }

  /** Restores the roots in list order; None when the file system refuses a step. */
  function RestoreRoots(t: Tree, snaps: seq<RootSnapshot>): (r: Option<Tree>)
    decreases |snaps|
  {
    if snaps == [] then Some(t)
    else
      var next :- RestoreRoot(t, snaps[0].path, snaps[0].entries);
      RestoreRoots(next, snaps[1..])
  }

  /** Every root comes after some root that covers each of its later-listed covers. */
  ghost predicate OuterRootsFirst(roots: seq<Path>) {
    forall k, j :: 0 <= k < j < |roots| && ProperlyCovers(roots[j], roots[k]) ==> Covered(roots[..k], roots[j])
  }

  lemma {:induction false} CoveredPrefix(roots: seq<Path>, k: nat, q: Path)
    requires k < |roots|
    ensures Covered(roots[..k + 1], q) <==> Covered(roots[..k], q) || roots[k] <= q
  {
    var a, b := roots[..k], roots[..k + 1];
    if i :| 0 <= i < |b| && b[i] <= q {
      if i < k { assert a[i] == b[i]; }
    }
    if i :| 0 <= i < |a| && a[i] <= q {
      assert b[i] == a[i];
    }
    if roots[k] <= q { assert b[k] == roots[k]; }
  }

  lemma {:induction false} CoveredByPart(roots: seq<Path>, k: nat, q: Path)
    requires k <= |roots| && Covered(roots[..k], q)
    ensures Covered(roots, q)
  {
    var i :| 0 <= i < k && roots[..k][i] <= q;
    assert roots[i] <= q;
  }

  /** When a root's turn comes, the directory it lives in is already right. */
  lemma {:induction false} ParentIsReady(t: Tree, roots: seq<Path>, u: Tree, k: nat)
    requires OuterRootsFirst(roots) && k < |roots|
    requires ParentsExist(Overwrite(t, roots, u), roots)
    ensures ParentExists(Overwrite(t, roots[..k], u), roots[k])
  {
    var now, goal := Overwrite(t, roots[..k], u), Overwrite(t, roots, u);
    forall up | ProperlyCovers(up, roots[k]) ensures IsDirectory(now, up) {
      assert IsDirectory(goal, up);
      CoversComeFirst(roots, k, up);
      if Covered(roots[..k], up) {
        assert Same(now, u, up) && Same(goal, u, up);
      } else {
        assert Same(now, t, up) && Same(goal, t, up);
      }
    }
  }

  lemma {:induction false} CoversComeFirst(roots: seq<Path>, k: nat, up: Path)
    requires OuterRootsFirst(roots) && k < |roots| && ProperlyCovers(up, roots[k])
    ensures Covered(roots[..k], up) <==> Covered(roots, up)
  {
    if Covered(roots[..k], up) {
      CoveredByPart(roots, k, up);
    }
    if Covered(roots, up) {
      var j :| 0 <= j < |roots| && roots[j] <= up;
      if j < k {
        assert roots[..k][j] <= up;
      } else {
        assert ProperlyCovers(roots[j], roots[k]);
        var i :| 0 <= i < k && roots[..k][i] <= roots[j];
        assert roots[..k][i] <= up;
      }
    }
  }

  lemma {:induction false} RestoreFromPart(t: Tree, roots: seq<Path>, u: Tree, k: nat)
    requires TreeShaped(u) && OuterRootsFirst(roots) && k <= |roots|
    requires ParentsExist(Overwrite(t, roots, u), roots)
    ensures RestoreRoots(Overwrite(t, roots[..k], u), CaptureAll(u, roots)[k..]) == Some(Overwrite(t, roots, u))
    decreases |roots| - k
  {
    var snaps := CaptureAll(u, roots);
    if k == |roots| {
      assert roots[..k] == roots;
    } else {
      var now, next := Overwrite(t, roots[..k], u), Overwrite(t, roots[..k + 1], u);
      ParentIsReady(t, roots, u, k);
      RestoreRootIsExact(now, roots[k], u);
      forall q ensures Same(Overwrite(now, [roots[k]], u), next, q) {
        CoveredByOne(roots[k], q);
        CoveredPrefix(roots, k, q);
        assert Same(next, if Covered(roots[..k + 1], q) then u else t, q);
        assert Same(now, if Covered(roots[..k], q) then u else t, q);
        assert Same(Overwrite(now, [roots[k]], u), if roots[k] <= q then u else now, q);
      }
      SameEverywhere(Overwrite(now, [roots[k]], u), next);
      assert snaps[k..][0] == snaps[k] && snaps[k..][1..] == snaps[k + 1..];
      RestoreFromPart(t, roots, u, k + 1);
    }
  }

  /** Restoring snapshots of overlapping roots puts every root back and touches nothing else. */
  lemma {:induction false} RestoreRootsIsExact(t: Tree, roots: seq<Path>, u: Tree)
    requires TreeShaped(u) && OuterRootsFirst(roots)
    requires ParentsExist(Overwrite(t, roots, u), roots)
    ensures RestoreRoots(t, CaptureAll(u, roots)) == Some(Overwrite(t, roots, u))
  {
    RestoreFromPart(t, roots, u, 0);
    assert CaptureAll(u, roots)[0..] == CaptureAll(u, roots);
    var none := Overwrite(t, roots[..0], u);
    forall q ensures Same(none, t, q) {
      assert !Covered(roots[..0], q);
    }
    SameEverywhere(none, t);
  }

  /** With every way to a root in place, putting the roots back leaves a tree. */
  lemma {:induction false} OverwriteKeepsShape(t: Tree, roots: seq<Path>, u: Tree)
    requires TreeShaped(t) && TreeShaped(u) && (ParentsExist(t, roots) || ParentsExist(Overwrite(t, roots, u), roots))
    ensures TreeShaped(Overwrite(t, roots, u))
  {
    var r := Overwrite(t, roots, u);
    forall q | q in r && q != [] ensures Parent(q) in r && r[Parent(q)].Directory? {
      var up := Parent(q);
      if Covered(roots, up) {
        var i :| 0 <= i < |roots| && roots[i] <= up;
        assert roots[i] <= q;
        assert Covered(roots, q) && Same(r, u, q) && Same(r, u, up);
      } else if Covered(roots, q) {
        var i :| 0 <= i < |roots| && roots[i] <= q;
        if roots[i] != q { PrefixOfParent(roots[i], q); }
        assert ProperlyCovers(up, roots[i]) && Same(r, t, up);
        assert ParentExists(t, roots[i]) || ParentExists(r, roots[i]);
      } else {
        assert Same(r, t, q) && Same(r, t, up);
      }
    }
  }

  // ---- Exactly which root lists can always be restored ----

  /** Whatever a change confined to the roots did, the restore brings `base` back. */
  ghost predicate AlwaysRestores(roots: seq<Path>) {
    forall base: Tree, t: Tree ::
      TreeShaped(base) && TreeShaped(t) && ParentsExist(base, roots) && AgreeOutside(t, base, roots)
      ==> RestoreRoots(t, CaptureAll(base, roots)) == Some(base)
  }

  lemma {:induction false} RestoreUndoesConfinedChange(base: Tree, t: Tree, roots: seq<Path>)
    requires TreeShaped(base) && ParentsExist(base, roots) && OuterRootsFirst(roots)
    requires AgreeOutside(t, base, roots)
    ensures RestoreRoots(t, CaptureAll(base, roots)) == Some(base)
  {
    var r := Overwrite(t, roots, base);
    forall q ensures Same(r, base, q) {
      if !Covered(roots, q) { assert Same(r, t, q) && Same(t, base, q); }
    }
    SameEverywhere(r, base);
    RestoreRootsIsExact(t, roots, base);
  }

  lemma {:induction false} FileStopsMakeDirectory(t: Tree, p: Path, b: Path)
    requires b in t && t[b].File?
    ensures var r := MakeDirectory(t, p);
            && (r.Some? ==> b in r.value && r.value[b] == t[b])
            && (b <= p ==> r.None?)
    decreases |p|
  {
    if p != [] {
      FileStopsMakeDirectory(t, Parent(p), b);
      if b <= p && b != p { assert b == p[..|b|] == Parent(p)[..|b|]; }
    }
  }

  lemma {:induction false} FileStopsDirectories(t: Tree, es: seq<Entry>, b: Path)
    requires b in t && t[b].File?
    ensures var r := MakeDirectories(t, es);
            && (r.Some? ==> b in r.value && r.value[b] == t[b])
            && ((exists e :: e in es && e.node.Directory? && b <= e.path) ==> r.None?)
    decreases |es|
  {
    if es != [] {
      FileStopsMakeDirectory(t, es[0].path, b);
      assert forall e :: e in es <==> e == es[0] || e in es[1..];
      if !es[0].node.Directory? {
        FileStopsDirectories(t, es[1..], b);
      } else if MakeDirectory(t, es[0].path).Some? {
        FileStopsDirectories(MakeDirectory(t, es[0].path).value, es[1..], b);
      }
    }
  }

  lemma {:induction false} FileSurvivesLeaves(t: Tree, es: seq<Entry>, b: Path)
    requires b in t && t[b].File? && forall e :: e in es ==> e.path != b
    ensures var r := WriteLeaves(t, es); r.Some? ==> b in r.value && r.value[b] == t[b]
    decreases |es|
  {
    if es != [] {
      var e := es[0];
      assert e in es;
      if e.node.Directory? {
        FileSurvivesLeaves(t, es[1..], b);
      } else {
        if e.path != [] { FileStopsMakeDirectory(t, Parent(e.path), b); }
        var r := WriteLeaf(t, e.path, e.node);
        if r.Some? { FileSurvivesLeaves(r.value, es[1..], b); }
      }
    }
  }

  lemma {:induction false} FileStopsRestore(t: Tree, snaps: seq<RootSnapshot>, k: nat, b: Path)
    requires b in t && t[b].File? && k < |snaps|
    requires forall i :: 0 <= i < k ==> !(snaps[i].path <= b)
    requires forall i, e :: 0 <= i < k && e in snaps[i].entries ==> snaps[i].path <= e.path
    requires ProperlyCovers(b, snaps[k].path) && Entry(snaps[k].path, Directory) in snaps[k].entries
    ensures RestoreRoots(t, snaps) == None
    decreases k
  {
    var root, es := snaps[0].path, snaps[0].entries;
    var t1 := Remove(t, root);
    assert Same(t1, t, b);
    FileStopsDirectories(t1, es, b);
    if k > 0 {
      forall e | e in es ensures e.path != b {
        assert snaps[0].path <= e.path;
      }
      var made := MakeDirectories(t1, es);
      if made.Some? {
        FileSurvivesLeaves(made.value, es, b);
        var r := RestoreRoot(t, root, es);
        if r.Some? {
          FileStopsRestore(r.value, snaps[1..], k - 1, b);
        }
      }
    }
  }

  /** All the roots and the directories above them, and nothing else. */
  function BareDirectories(roots: seq<Path>): (t: Tree)
    ensures forall q :: q in t <==> exists i :: 0 <= i < |roots| && q <= roots[i]
    ensures forall q :: q in t ==> t[q].Directory?
  {
    var keys := set i, n | 0 <= i < |roots| && 0 <= n <= |roots[i]| :: roots[i][..n];
    assert forall i, q :: 0 <= i < |roots| && q <= roots[i] ==> q == roots[i][..|q|];
    map q | q in keys :: Directory
  }

  /** A restore can be relied on exactly when outer roots are listed first. */
  lemma {:induction false} RestoresExactlyWhenOuterFirst(roots: seq<Path>)
    ensures AlwaysRestores(roots) <==> OuterRootsFirst(roots)
  {
    if OuterRootsFirst(roots) {
      forall base: Tree, t: Tree |
        TreeShaped(base) && TreeShaped(t) && ParentsExist(base, roots) && AgreeOutside(t, base, roots)
        ensures RestoreRoots(t, CaptureAll(base, roots)) == Some(base)
      {
        RestoreUndoesConfinedChange(base, t, roots);
      }
    } else {
      var k, j :| 0 <= k < j < |roots| && ProperlyCovers(roots[j], roots[k]) && !Covered(roots[..k], roots[j]);
      InnerFirstFails(roots, k, j);
    }
  }

  lemma {:induction false} BareDirectoriesSuit(roots: seq<Path>)
    ensures TreeShaped(BareDirectories(roots)) && ParentsExist(BareDirectories(roots), roots)
  {
    var base := BareDirectories(roots);
    forall q | q in base && q != [] ensures Parent(q) in base {
      var i :| 0 <= i < |roots| && q <= roots[i];
      assert Parent(q) <= roots[i];
    }
    forall i, a | 0 <= i < |roots| && ProperlyCovers(a, roots[i]) ensures IsDirectory(base, a) {
      assert a <= roots[i];
    }
  }

  /** `base` with a single file where the subtree at `b` was. */
  function FileAt(base: Tree, b: Path): Tree {
    Remove(base, b)[b := File([])]
  }

  lemma {:induction false} FileAtKeepsShape(base: Tree, b: Path)
    requires TreeShaped(base) && b in base
    ensures TreeShaped(FileAt(base, b))
    ensures forall q :: !(b <= q) ==> Same(FileAt(base, b), base, q)
  {
    var gone := Remove(base, b);
    var t := FileAt(base, b);
    forall q | !(b <= q) ensures Same(t, base, q) {
      assert Same(gone, base, q);
    }
    forall q | q in t && q != [] ensures Parent(q) in t && t[Parent(q)].Directory? {
      assert Parent(q) <= q;
      if q != b {
        assert q in gone;
        assert Same(gone, base, q);
      }
      assert !(b <= Parent(q));
      assert Same(t, base, Parent(q));
    }
  }

  /** With an inner root listed first, a file left where the outer root was stops the restore. */
  lemma {:induction false} InnerFirstFails(roots: seq<Path>, k: nat, j: nat)
    requires k < j < |roots| && ProperlyCovers(roots[j], roots[k]) && !Covered(roots[..k], roots[j])
    ensures !AlwaysRestores(roots)
  {
    var base := BareDirectories(roots);
    var t := FileAt(base, roots[j]);
    BareDirectoriesSuit(roots);
    assert roots[j] <= roots[j];
    FileAtKeepsShape(base, roots[j]);
    forall q | !Covered(roots, q) ensures Same(t, base, q) {
      assert !(roots[j] <= q);
    }
    assert AgreeOutside(t, base, roots);
    FileStopsCapturedRoots(t, base, roots, k, roots[j]);
  }

  lemma {:induction false} FileStopsCapturedRoots(t: Tree, base: Tree, roots: seq<Path>, k: nat, b: Path)
    requires b in t && t[b].File? && k < |roots| && TreeShaped(base)
    requires !Covered(roots[..k], b) && ProperlyCovers(b, roots[k]) && IsDirectory(base, roots[k])
    ensures RestoreRoots(t, CaptureAll(base, roots)) == None
  {
    var snaps := CaptureAll(base, roots);
    forall i | 0 <= i < k ensures !(snaps[i].path <= b) {
      assert roots[..k][i] == roots[i];
    }
    forall i, e | 0 <= i < k && e in snaps[i].entries ensures snaps[i].path <= e.path {
      CaptureLists(base, roots[i], e);
    }
    CaptureLists(base, roots[k], Entry(roots[k], Directory));
    FileStopsRestore(t, snaps, k, b);
  }
}
