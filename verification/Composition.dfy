/** The expected workspace state after a selection of records, composed from their post snapshots. */
module Composition {
  import opened Paths
  import opened FileTree
  import opened Snapshots
  import opened MutationJournal
  import opened UndoHistory
  import opened Wrappers

  /** Later entries for the same path win. */
  function AddEntries(e: Tree, es: seq<Entry>): Tree {
    if es == [] then e else AddEntries(e, es[..|es| - 1])[es[|es| - 1].path := es[|es| - 1].node]
  }

  function AddSnapshots(e: Tree, snaps: seq<RootSnapshot>): Tree {
    if snaps == [] then e else
      var n := |snaps| - 1;
      AddEntries(Remove(AddSnapshots(e, snaps[..n]), snaps[n].path), snaps[n].entries)
  }

  function ComposeEntries(records: seq<Record>): Tree {
    if records == [] then map[] else
      var n := |records| - 1;
      AddSnapshots(ComposeEntries(records[..n]), records[n].post)
  }

  function PostPaths(records: seq<Record>): seq<Path> {
    if records == [] then [] else
      var n := |records| - 1;
      PostPaths(records[..n]) + PathsOf(records[n].post)
  }

  /** First occurrences, in order. */
  function Distinct(ps: seq<Path>): (r: seq<Path>)
    ensures forall p :: p in r <==> p in ps
    ensures forall i, j :: 0 <= i < j < |r| ==> r[i] != r[j]
  {
    if ps == [] then [] else
      var n := |ps| - 1;
      var r := Distinct(ps[..n]);
      assert ps == ps[..n] + [ps[n]];
      if ps[n] in r then r else r + [ps[n]]
  }

  predicate IsTop(p: Path, all: seq<Path>) {
    forall o :: o in all ==> !ProperlyCovers(o, p)
  }

  function OnlyTops(ps: seq<Path>, all: seq<Path>): (r: seq<Path>)
    ensures forall p :: p in r <==> p in ps && IsTop(p, all)
    ensures (forall i, j :: 0 <= i < j < |ps| ==> ps[i] != ps[j]) ==> forall i, j :: 0 <= i < j < |r| ==> r[i] != r[j]
  {
    if ps == [] then [] else
      var n := |ps| - 1;
      assert ps == ps[..n] + [ps[n]];
      OnlyTops(ps[..n], all) + if IsTop(ps[n], all) then [ps[n]] else []
  }

  function TopLevelRoots(all: seq<Path>): seq<Path> {
    OnlyTops(Distinct(all), all)
  }

  ghost function ComposeFinalRoots(records: seq<Record>): seq<RootSnapshot> {
    CaptureAll(ComposeEntries(records), TopLevelRoots(PostPaths(records)))
  }

  // ---- Top-level roots: pairwise disjoint, and everything recorded lies within one ----

  lemma {:induction false} CoveredByATop(p: Path, all: seq<Path>)
    requires p in all
    ensures exists t :: t in all && IsTop(t, all) && t <= p
    decreases |p|
  {
    if !IsTop(p, all) {
      var o :| o in all && ProperlyCovers(o, p);
      CoveredByATop(o, all);
      var t :| t in all && IsTop(t, all) && t <= o;
      assert t <= p;
    } else {
      assert p <= p;
    }
  }

  lemma {:induction false} TopLevelRootsPartition(all: seq<Path>)
    ensures var tops := TopLevelRoots(all);
            && (forall i, j :: 0 <= i < j < |tops| ==> !Overlaps(tops[i], tops[j]))
            && (forall q :: Covered(tops, q) <==> Covered(all, q))
  {
    var tops := TopLevelRoots(all);
    forall i, j | 0 <= i < j < |tops| ensures !Overlaps(tops[i], tops[j]) {
      assert tops[i] in tops && tops[j] in tops;
      assert !ProperlyCovers(tops[i], tops[j]) && !ProperlyCovers(tops[j], tops[i]);
    }
    forall q ensures Covered(tops, q) <==> Covered(all, q) {
      TopLevelRootsCover(all, q);
    }
  }

  lemma {:induction false} TopLevelRootsCover(all: seq<Path>, q: Path)
    ensures Covered(TopLevelRoots(all), q) <==> Covered(all, q)
  {
    var tops := TopLevelRoots(all);
    if Covered(tops, q) {
      var i :| 0 <= i < |tops| && tops[i] <= q;
      assert tops[i] in tops;
      var k :| 0 <= k < |all| && all[k] == tops[i];
      assert all[k] <= q;
    }
    if Covered(all, q) {
      var k :| 0 <= k < |all| && all[k] <= q;
      CoveredByATop(all[k], all);
      var t :| t in all && IsTop(t, all) && t <= all[k];
      assert t in tops;
      var i :| 0 <= i < |tops| && tops[i] == t;
      assert tops[i] <= q;
    }
  }

  // ---- Composition is exact ----

  lemma {:induction false} AddEntriesSets(e: Tree, es: seq<Entry>, q: Path)
    requires DistinctPaths(es)
    ensures (exists i :: 0 <= i < |es| && es[i].path == q) || Same(AddEntries(e, es), e, q)
    ensures forall i :: 0 <= i < |es| && es[i].path == q ==> q in AddEntries(e, es) && AddEntries(e, es)[q] == es[i].node
    decreases |es|
  {
    if es != [] {
      var n := |es| - 1;
      AddEntriesSets(e, es[..n], q);
      if i :| 0 <= i < n && es[..n][i].path == q {
        assert es[i].path == q;
      }
      assert forall i :: 0 <= i < n ==> es[i] == es[..n][i];
    }
  }

  lemma {:induction false} AddCaptured(e: Tree, u: Tree, root: Path)
    requires TreeShaped(u)
    ensures AddEntries(Remove(e, root), Capture(u, root)) == Overwrite(e, [root], u)
  {
    var es, gone := Capture(u, root), Remove(e, root);
    if root in u { WalkWithin(u, root); }
    var got, want := AddEntries(gone, es), Overwrite(e, [root], u);
    forall q ensures Same(got, want, q) {
      CoveredByOne(root, q);
      AddEntriesSets(gone, es, q);
      if q in u { CaptureLists(u, root, Entry(q, u[q])); }
      forall i | 0 <= i < |es| && es[i].path == q ensures q in u && root <= q && es[i].node == u[q] {
        CaptureLists(u, root, es[i]);
      }
      if root <= q {
        assert Same(want, u, q);
        if q in u {
          var i :| 0 <= i < |es| && es[i] == Entry(q, u[q]);
          assert es[i].path == q;
        }
      } else {
        assert Same(want, e, q) && Same(gone, e, q);
      }
    }
    SameEverywhere(got, want);
  }

  lemma CaptureAllPrefix(u: Tree, roots: seq<Path>, n: nat)
    requires n <= |roots|
    ensures CaptureAll(u, roots)[..n] == CaptureAll(u, roots[..n])
  {
  }

  lemma {:induction false} AddAllCaptured(e: Tree, u: Tree, roots: seq<Path>)
    requires TreeShaped(u)
    ensures AddSnapshots(e, CaptureAll(u, roots)) == Overwrite(e, roots, u)
    decreases |roots|
  {
    var snaps, want := CaptureAll(u, roots), Overwrite(e, roots, u);
    if roots == [] {
      forall q ensures Same(want, e, q) {
        assert !Covered([], q);
      }
      SameEverywhere(want, e);
    } else {
      var n := |roots| - 1;
      CaptureAllPrefix(u, roots, n);
      AddAllCaptured(e, u, roots[..n]);
      var before := Overwrite(e, roots[..n], u);
      AddCaptured(before, u, roots[n]);
      var got := Overwrite(before, [roots[n]], u);
      forall q ensures Same(got, want, q) {
        CoveredByOne(roots[n], q);
        CoveredPrefix(roots, n, q);
        assert roots[..n + 1] == roots;
        assert Same(want, if Covered(roots, q) then u else e, q);
        assert Same(before, if Covered(roots[..n], q) then u else e, q);
        assert Same(got, if roots[n] <= q then u else before, q);
      }
      SameEverywhere(got, want);
    }
  }

  lemma {:induction false} PostPathsAreSelectedRoots(trees: seq<Tree>, records: seq<Record>, sel: seq<bool>)
    requires History(trees, records) && |sel| == |records| && NoLaterOverlap(records, sel)
    ensures PostPaths(Kept(records, sel, true)) == SelectedRoots(records, sel)
    decreases |records|
  {
    if records != [] {
      var n := |records| - 1;
      HistoryPrefix(trees, records, sel);
      PostPathsAreSelectedRoots(trees[..n + 1], records[..n], sel[..n]);
      if sel[n] {
        var kept := Kept(records[..n], sel[..n], true);
        assert (kept + [records[n]])[..|kept|] == kept;
        assert Changed(trees[n], records[n], trees[n + 1]);
        assert PathsOf(records[n].post) == RootsOf(records[n]);
      } else {
        assert Kept(records, sel, true) == Kept(records[..n], sel[..n], true);
      }
    }
  }

  /** Composed entries are the live workspace, restricted to what the selected records cover. */
  lemma {:induction false} ComposedEntriesAreLive(trees: seq<Tree>, records: seq<Record>, sel: seq<bool>, q: Path)
    requires History(trees, records) && |sel| == |records| && NoLaterOverlap(records, sel)
    ensures var e := ComposeEntries(Kept(records, sel, true));
            if Covered(SelectedRoots(records, sel), q) then Same(e, trees[|records|], q) else q !in e
    decreases |records|
  {
    if records != [] {
      var n := |records| - 1;
      HistoryPrefix(trees, records, sel);
      ComposedEntriesAreLive(trees[..n + 1], records[..n], sel[..n], q);
      var others, r := SelectedRoots(records[..n], sel[..n]), records[n];
      var kept := Kept(records[..n], sel[..n], true);
      assert trees[..n + 1][n] == trees[n];
      assert Changed(trees[n], r, trees[n + 1]);
      if sel[n] {
        assert (kept + [r])[..|kept|] == kept;
        AddAllCaptured(ComposeEntries(kept), trees[n + 1], RootsOf(r));
        var e := Overwrite(ComposeEntries(kept), RootsOf(r), trees[n + 1]);
        CoveredAppend(others, RootsOf(r), q);
        if Covered(RootsOf(r), q) {
          assert Same(e, trees[n + 1], q);
        } else {
          assert Same(e, ComposeEntries(kept), q) && Same(trees[n + 1], trees[n], q);
        }
      } else {
        assert SelectedRoots(records, sel) == others + [] == others;
        assert Kept(records, sel, true) == kept;
        if Covered(others, q) {
          CoveredIsNear(others, q);
          DisjointMeansFar(others, RootsOf(r), q);
          assert Same(trees[n + 1], trees[n], q);
        }
      }
    }
  }

  /** Entry for entry and in the same order, composition yields a fresh capture of every top-level root. */
  lemma {:induction false} CompositionIsExact(trees: seq<Tree>, records: seq<Record>, sel: seq<bool>)
    requires History(trees, records) && |sel| == |records| && NoLaterOverlap(records, sel)
    ensures ComposeFinalRoots(Kept(records, sel, true)) ==
            CaptureAll(trees[|records|], TopLevelRoots(SelectedRoots(records, sel)))
  {
    var e, live := ComposeEntries(Kept(records, sel, true)), trees[|records|];
    var all := SelectedRoots(records, sel);
    PostPathsAreSelectedRoots(trees, records, sel);
    TopLevelRootsPartition(all);
    forall q | Covered(TopLevelRoots(all), q) ensures Same(e, live, q) {
      ComposedEntriesAreLive(trees, records, sel, q);
    }
    CapturesAgree(e, live, TopLevelRoots(all));
  }

  // ---- The undo check ----

  ghost function Conflicts(expected: seq<RootSnapshot>, tree: Tree): seq<Path> {
    if expected == [] then [] else
      var n := |expected| - 1;
      Conflicts(expected[..n], tree) + if Capture(tree, expected[n].path) != expected[n].entries then [expected[n].path] else []
  }

  lemma {:induction false} ConflictsList(expected: seq<RootSnapshot>, tree: Tree, p: Path)
    ensures p in Conflicts(expected, tree) <==>
            exists i :: 0 <= i < |expected| && expected[i].path == p && Capture(tree, p) != expected[i].entries
    decreases |expected|
  {
    if expected != [] {
      var n := |expected| - 1;
      ConflictsList(expected[..n], tree, p);
      assert forall i :: 0 <= i < n ==> expected[..n][i] == expected[i];
    }
  }

  /** A root is reported exactly when its subtree differs from what the history left there. */
  lemma {:induction false} ConflictsAreRealDifferences(trees: seq<Tree>, records: seq<Record>, sel: seq<bool>, x: Tree, p: Path)
    requires History(trees, records) && |sel| == |records| && NoLaterOverlap(records, sel) && TreeShaped(x)
    ensures p in Conflicts(ComposeFinalRoots(Kept(records, sel, true)), x) <==>
            p in TopLevelRoots(SelectedRoots(records, sel)) && Restrict(x, p) != Restrict(trees[|records|], p)
  {
    var live, tops := trees[|records|], TopLevelRoots(SelectedRoots(records, sel));
    CompositionIsExact(trees, records, sel);
    ConflictsList(CaptureAll(live, tops), x, p);
    LastIsShaped(trees, records);
    CaptureIsExact(x, live, p);
    if p in tops {
      var i :| 0 <= i < |tops| && tops[i] == p;
      assert CaptureAll(live, tops)[i].path == p;
    }
  }

  /** Directories above selected roots, outside all of them, are still there at the end. */
  lemma {:induction false} WayToRootsRemains(trees: seq<Tree>, records: seq<Record>, sel: seq<bool>, root: Path, a: Path)
    requires History(trees, records) && |sel| == |records| && NoLaterOverlap(records, sel)
    requires root in SelectedRoots(records, sel) && ProperlyCovers(a, root) && !Covered(SelectedRoots(records, sel), a)
    ensures IsDirectory(trees[|records|], a)
    decreases |records|
  {
    var n := |records| - 1;
    HistoryPrefix(trees, records, sel);
    var others, r := SelectedRoots(records[..n], sel[..n]), records[n];
    CoveredAppend(others, if sel[n] then RootsOf(r) else [], a);
    assert Changed(trees[n], r, trees[n + 1]);
    if root in others {
      WayToRootsRemains(trees[..n + 1], records[..n], sel[..n], root, a);
      if !sel[n] {
        var i :| 0 <= i < |others| && others[i] == root;
        assert Overlaps(others[i], a);
        DisjointMeansFar(others, RootsOf(r), a);
      }
    } else {
      var i :| 0 <= i < |RootsOf(r)| && RootsOf(r)[i] == root;
      assert ParentExists(trees[n], RootsOf(r)[i]);
    }
    assert Same(trees[n + 1], trees[n], a);
  }

  /**
   * An undo whose check passes is exact on any workspace: within the selected roots it brings back the
   * history without the selection, and it changes nothing else, whatever was edited elsewhere since.
   */
  lemma {:induction false} CheckedUndoIsExact(trees: seq<Tree>, records: seq<Record>, sel: seq<bool>, x: Tree)
    requires History(trees, records) && |sel| == |records| && NoLaterOverlap(records, sel) && TreeShaped(x)
    requires Conflicts(ComposeFinalRoots(Kept(records, sel, true)), x) == []
    requires forall root, a | root in SelectedRoots(records, sel) && ProperlyCovers(a, root)
               :: Covered(SelectedRoots(records, sel), a) || IsDirectory(x, a)
    ensures UndoSelected(x, records, sel) == Some(Overwrite(x, SelectedRoots(records, sel), Without(trees, records, sel)))
  {
    var live, all := trees[|records|], SelectedRoots(records, sel);
    var tops := TopLevelRoots(all);
    TopLevelRootsPartition(all);
    forall q | Near(all, q) ensures Same(x, live, q) {
      if Covered(all, q) {
        assert Covered(tops, q);
        var i :| 0 <= i < |tops| && tops[i] <= q;
        ConflictsAreRealDifferences(trees, records, sel, x, tops[i]);
        assert Restrict(x, tops[i]) == Restrict(live, tops[i]);
        assert q in Restrict(x, tops[i]) <==> q in x;
        assert q in Restrict(live, tops[i]) <==> q in live;
      } else {
        var i :| 0 <= i < |all| && Overlaps(all[i], q);
        assert all[i] in all && ProperlyCovers(q, all[i]);
        WayToRootsRemains(trees, records, sel, all[i], q);
      }
    }
    UndoIsExactFrom(trees, records, sel, x);
  }
}
