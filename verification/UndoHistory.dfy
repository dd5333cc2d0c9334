/** What a history of recorded mutations means, and what undoing part of it does. */
module UndoHistory {
  import opened Paths
  import opened FileTree
  import opened Snapshots
  import opened MutationJournal
  import opened Wrappers

  function RootsOf(r: Record): seq<Path> {
    PathsOf(r.pre)
  }

  /** `r` records the change from `t` to `u`, and the change stayed within the recorded roots. */
  ghost predicate Changed(t: Tree, r: Record, u: Tree) {
    && TreeShaped(t) && TreeShaped(u)
    && OuterRootsFirst(RootsOf(r)) && ParentsExist(t, RootsOf(r))
    && AgreeOutside(u, t, RootsOf(r))
    && r.pre == CaptureAll(t, RootsOf(r)) && r.post == CaptureAll(u, RootsOf(r))
  }

  /** The workspace before, between and after the records. */
  ghost predicate History(trees: seq<Tree>, records: seq<Record>) {
    && |trees| == |records| + 1
    && TreeShaped(trees[0])
    && forall i :: 0 <= i < |records| ==> Changed(trees[i], records[i], trees[i + 1])
  }

  function SelectedRoots(records: seq<Record>, sel: seq<bool>): seq<Path>
    requires |sel| == |records|
  {
    if records == [] then [] else
      var n := |records| - 1;
      SelectedRoots(records[..n], sel[..n]) + if sel[n] then RootsOf(records[n]) else []
  }

  /** No record left out overlaps an earlier selected one. */
  predicate NoLaterOverlap(records: seq<Record>, sel: seq<bool>)
    requires |sel| == |records|
  {
    forall i, j :: 0 <= i < j < |records| && sel[i] && !sel[j] ==> DisjointRoots(RootsOf(records[i]), RootsOf(records[j]))
  }

  /** Restores the pre-images of the selected records, latest first. */
  function UndoSelected(t: Tree, records: seq<Record>, sel: seq<bool>): Option<Tree>
    requires |sel| == |records|
    decreases |records|
  {
    if records == [] then Some(t) else
      var n := |records| - 1;
      var next :- if sel[n] then RestoreRoots(t, records[n].pre) else Some(t);
      UndoSelected(next, records[..n], sel[..n])
  }

  /** The workspace had the selected records never happened: only the others are replayed. */
  function Without(trees: seq<Tree>, records: seq<Record>, sel: seq<bool>): Tree
    requires |sel| == |records| && |trees| == |records| + 1
  {
    if records == [] then trees[0] else
      var n := |records| - 1;
      var before := Without(trees[..n + 1], records[..n], sel[..n]);
      if sel[n] then before else Overwrite(before, RootsOf(records[n]), trees[n + 1])
  }

  function Kept(records: seq<Record>, sel: seq<bool>, which: bool): seq<Record>
    requires |sel| == |records|
  {
    if records == [] then [] else
      var n := |records| - 1;
      Kept(records[..n], sel[..n], which) + if sel[n] == which then [records[n]] else []
  }

  // ---- Roots of concatenations ----

  lemma {:induction false} CoveredAppend(a: seq<Path>, b: seq<Path>, q: Path)
    ensures Covered(a + b, q) <==> Covered(a, q) || Covered(b, q)
  {
    if i :| 0 <= i < |a| && a[i] <= q { assert (a + b)[i] == a[i]; }
    if i :| 0 <= i < |b| && b[i] <= q { assert (a + b)[|a| + i] == b[i]; }
    if i :| 0 <= i < |a + b| && (a + b)[i] <= q {
      if i < |a| { assert a[i] <= q; } else { assert b[i - |a|] <= q; }
    }
  }

  lemma {:induction false} NearAppend(a: seq<Path>, b: seq<Path>, q: Path)
    ensures Near(a + b, q) <==> Near(a, q) || Near(b, q)
  {
    if i :| 0 <= i < |a| && Overlaps(a[i], q) { assert (a + b)[i] == a[i]; }
    if i :| 0 <= i < |b| && Overlaps(b[i], q) { assert (a + b)[|a| + i] == b[i]; }
    if i :| 0 <= i < |a + b| && Overlaps((a + b)[i], q) {
      if i < |a| { assert Overlaps(a[i], q); } else { assert Overlaps(b[i - |a|], q); }
    }
  }

  lemma {:induction false} CoveredIsNear(roots: seq<Path>, q: Path)
    requires Covered(roots, q)
    ensures Near(roots, q)
  {
    var i :| 0 <= i < |roots| && roots[i] <= q;
    assert Overlaps(roots[i], q);
  }

  /** What is near one side cannot lie within disjoint roots. */
  lemma {:induction false} DisjointMeansFar(xs: seq<Path>, ys: seq<Path>, q: Path)
    requires DisjointRoots(xs, ys) && Near(xs, q)
    ensures !Covered(ys, q)
  {
    var i :| 0 <= i < |xs| && Overlaps(xs[i], q);
    forall j | 0 <= j < |ys| ensures !(ys[j] <= q) {
      assert !Overlaps(xs[i], ys[j]);
      if xs[i] <= q && ys[j] <= q { PrefixesAreComparable(xs[i], ys[j], q); }
    }
  }

  lemma {:induction false} SelectedAreDisjoint(records: seq<Record>, sel: seq<bool>, ys: seq<Path>)
    requires |sel| == |records|
    requires forall i :: 0 <= i < |records| && sel[i] ==> DisjointRoots(RootsOf(records[i]), ys)
    ensures DisjointRoots(SelectedRoots(records, sel), ys)
    decreases |records|
  {
    if records != [] {
      var n := |records| - 1;
      SelectedAreDisjoint(records[..n], sel[..n], ys);
    }
  }

  lemma {:induction false} HistoryPrefix(trees: seq<Tree>, records: seq<Record>, sel: seq<bool>)
    requires History(trees, records) && |sel| == |records| > 0 && NoLaterOverlap(records, sel)
    ensures var n := |records| - 1;
            && History(trees[..n + 1], records[..n]) && NoLaterOverlap(records[..n], sel[..n])
            && (!sel[n] ==> DisjointRoots(SelectedRoots(records[..n], sel[..n]), RootsOf(records[n])))
  {
    var n := |records| - 1;
    if !sel[n] {
      SelectedAreDisjoint(records[..n], sel[..n], RootsOf(records[n]));
    }
  }

  // ---- Undo equals never having happened ----

  lemma {:induction false} WithoutDiffersOnlyThere(trees: seq<Tree>, records: seq<Record>, sel: seq<bool>, q: Path)
    requires History(trees, records) && |sel| == |records| && NoLaterOverlap(records, sel)
    requires !Covered(SelectedRoots(records, sel), q)
    ensures Same(Without(trees, records, sel), trees[|records|], q)
    decreases |records|
  {
    if records != [] {
      var n := |records| - 1;
      HistoryPrefix(trees, records, sel);
      CoveredAppend(SelectedRoots(records[..n], sel[..n]), if sel[n] then RootsOf(records[n]) else [], q);
      WithoutDiffersOnlyThere(trees[..n + 1], records[..n], sel[..n], q);
      var before := Without(trees[..n + 1], records[..n], sel[..n]);
      assert Same(before, trees[n], q);
      assert Changed(trees[n], records[n], trees[n + 1]);
      if Covered(RootsOf(records[n]), q) {
        assert Same(Overwrite(before, RootsOf(records[n]), trees[n + 1]), trees[n + 1], q);
      } else {
        assert Same(trees[n + 1], trees[n], q);
        assert Same(Overwrite(before, RootsOf(records[n]), trees[n + 1]), before, q);
      }
    }
  }

  /** Undoing the last record from a tree that agrees with the history near its roots. */
  lemma {:induction false} UndoLast(t: Tree, r: Record, u: Tree, x: Tree, others: seq<Path>)
    requires Changed(t, r, u) && AgreeNear(x, u, others + RootsOf(r))
    ensures RestoreRoots(x, r.pre) == Some(Overwrite(x, RootsOf(r), t))
    ensures AgreeNear(Overwrite(x, RootsOf(r), t), t, others)
  {
    var roots := RootsOf(r);
    var back := Overwrite(x, roots, t);
    forall i, a | 0 <= i < |roots| && ProperlyCovers(a, roots[i]) ensures IsDirectory(back, a) {
      assert ParentExists(t, roots[i]) && IsDirectory(t, a);
      if Covered(roots, a) {
        assert Same(back, t, a);
      } else {
        assert Overlaps(roots[i], a);
        assert Near(roots, a);
        NearAppend(others, roots, a);
        assert Same(back, x, a) && Same(x, u, a) && Same(u, t, a);
      }
    }
    RestoreRootsIsExact(x, roots, t);
    forall q | Near(others, q) ensures Same(back, t, q) {
      if Covered(roots, q) {
        assert Same(back, t, q);
      } else {
        NearAppend(others, roots, q);
        assert Same(back, x, q) && Same(x, u, q) && Same(u, t, q);
      }
    }
  }

  /** A record disjoint from `others` leaves everything near `others` alone. */
  lemma {:induction false} DisjointRecordKeepsNear(t: Tree, r: Record, u: Tree, x: Tree, others: seq<Path>)
    requires Changed(t, r, u) && AgreeNear(x, u, others) && DisjointRoots(others, RootsOf(r))
    ensures AgreeNear(x, t, others)
  {
    forall q | Near(others, q) ensures Same(x, t, q) {
      DisjointMeansFar(others, RootsOf(r), q);
      assert Same(x, u, q) && Same(u, t, q);
    }
  }

  lemma {:induction false} UndoIsExactFrom(trees: seq<Tree>, records: seq<Record>, sel: seq<bool>, x: Tree)
    requires History(trees, records) && |sel| == |records| && NoLaterOverlap(records, sel)
    requires AgreeNear(x, trees[|records|], SelectedRoots(records, sel))
    ensures UndoSelected(x, records, sel) == Some(Overwrite(x, SelectedRoots(records, sel), Without(trees, records, sel)))
    decreases |records|
  {
    var roots, w := SelectedRoots(records, sel), Without(trees, records, sel);
    if records == [] {
      forall q ensures Same(Overwrite(x, [], w), x, q) {
        assert !Covered([], q);
      }
      SameEverywhere(Overwrite(x, [], w), x);
    } else {
      var n := |records| - 1;
      HistoryPrefix(trees, records, sel);
      var r := records[n];
      var others, before := SelectedRoots(records[..n], sel[..n]), Without(trees[..n + 1], records[..n], sel[..n]);
      assert Changed(trees[n], r, trees[n + 1]);
      assert trees[..n + 1][n] == trees[n];
      if sel[n] {
        UndoLast(trees[n], r, trees[n + 1], x, others);
        var back := Overwrite(x, RootsOf(r), trees[n]);
        UndoIsExactFrom(trees[..n + 1], records[..n], sel[..n], back);
        var got, want := Overwrite(back, others, before), Overwrite(x, roots, w);
        forall q ensures Same(got, want, q) {
          CoveredAppend(others, RootsOf(r), q);
          assert Same(want, if Covered(roots, q) then w else x, q);
          assert Same(got, if Covered(others, q) then before else back, q);
          if !Covered(others, q) {
            WithoutDiffersOnlyThere(trees[..n + 1], records[..n], sel[..n], q);
            assert Same(back, if Covered(RootsOf(r), q) then trees[n] else x, q);
          }
        }
        SameEverywhere(got, want);
      } else {
        assert roots == others + [] == others;
        DisjointRecordKeepsNear(trees[n], r, trees[n + 1], x, others);
        UndoIsExactFrom(trees[..n + 1], records[..n], sel[..n], x);
        var got, want := Overwrite(x, others, before), Overwrite(x, roots, w);
        forall q ensures Same(got, want, q) {
          if Covered(others, q) {
            CoveredIsNear(others, q);
            DisjointMeansFar(others, RootsOf(r), q);
            assert Same(w, before, q) && Same(got, before, q) && Same(want, w, q);
          } else {
            assert Same(got, x, q) && Same(want, x, q);
          }
        }
        SameEverywhere(got, want);
      }
    }
  }

  /** Undoing a selection from the live workspace equals replaying the history without it. */
  lemma {:induction false} UndoEqualsNeverHappened(trees: seq<Tree>, records: seq<Record>, sel: seq<bool>)
    requires History(trees, records) && |sel| == |records| && NoLaterOverlap(records, sel)
    ensures UndoSelected(trees[|records|], records, sel) == Some(Without(trees, records, sel))
  {
    var live, w, roots := trees[|records|], Without(trees, records, sel), SelectedRoots(records, sel);
    assert AgreeNear(live, live, roots);
    UndoIsExactFrom(trees, records, sel, live);
    var got := Overwrite(live, roots, w);
    forall q ensures Same(got, w, q) {
      if !Covered(roots, q) {
        WithoutDiffersOnlyThere(trees, records, sel, q);
        assert Same(got, live, q) && Same(w, live, q);
      }
    }
    SameEverywhere(got, w);
  }

  /** Selected records come only at or after `f`; from there on, the others stay away from all selected roots. */
  predicate AloneSince(records: seq<Record>, sel: seq<bool>, f: nat, roots: seq<Path>)
    requires |sel| == |records| && f <= |records|
  {
    && (forall i :: 0 <= i < f ==> !sel[i])
    && (forall j :: f <= j < |records| && !sel[j] ==> DisjointRoots(roots, RootsOf(records[j])))
  }

  lemma {:induction false} NothingSelected(records: seq<Record>, sel: seq<bool>)
    requires |sel| == |records| && forall i :: 0 <= i < |records| ==> !sel[i]
    ensures SelectedRoots(records, sel) == []
    decreases |records|
  {
    if records != [] {
      var n := |records| - 1;
      NothingSelected(records[..n], sel[..n]);
    }
  }

  /** Undoing a run leaves every root it touched as it was before the run's first record. */
  lemma {:induction false} UndoneRootsAreAsBefore(trees: seq<Tree>, records: seq<Record>, sel: seq<bool>, f: nat,
                                                  roots: seq<Path>, q: Path)
    requires History(trees, records) && |sel| == |records| && NoLaterOverlap(records, sel)
    requires f <= |records| && AloneSince(records, sel, f, roots) && Covered(roots, q)
    ensures Same(Without(trees, records, sel), trees[f], q)
    decreases |records|
  {
    if f == |records| {
      NothingSelected(records, sel);
      assert !Covered([], q);
      WithoutDiffersOnlyThere(trees, records, sel, q);
    } else {
      var n := |records| - 1;
      HistoryPrefix(trees, records, sel);
      UndoneRootsAreAsBefore(trees[..n + 1], records[..n], sel[..n], f, roots, q);
      if !sel[n] {
        CoveredIsNear(roots, q);
        DisjointMeansFar(roots, RootsOf(records[n]), q);
        var before := Without(trees[..n + 1], records[..n], sel[..n]);
        assert Same(Without(trees, records, sel), before, q);
      }
    }
  }

  // ---- What remains is again a history ----

  function Survivors(trees: seq<Tree>, records: seq<Record>, sel: seq<bool>): (r: seq<Tree>)
    requires |sel| == |records| && |trees| == |records| + 1
    ensures r != [] && r[|r| - 1] == Without(trees, records, sel)
    ensures |r| == |Kept(records, sel, false)| + 1
  {
    if records == [] then trees else
      var n := |records| - 1;
      Survivors(trees[..n + 1], records[..n], sel[..n]) + if sel[n] then [] else [Without(trees, records, sel)]
  }

  /** Trees that differ only within `others` agree near disjoint roots. */
  lemma {:induction false} AgreeNearDisjoint(t: Tree, t': Tree, others: seq<Path>, roots: seq<Path>)
    requires DisjointRoots(others, roots) && AgreeOutside(t', t, others)
    ensures AgreeNear(t', t, roots)
  {
    forall q | Near(roots, q) ensures Same(t', t, q) {
      assert DisjointRoots(roots, others) by {
        forall i, j | 0 <= i < |roots| && 0 <= j < |others| ensures !Overlaps(roots[i], others[j]) {
          assert !Overlaps(others[j], roots[i]);
        }
      }
      DisjointMeansFar(roots, others, q);
    }
  }

  /** A disjoint record replays the same way on a tree that differs only elsewhere. */
  lemma {:induction false} Replays(t: Tree, r: Record, u: Tree, t': Tree, others: seq<Path>)
    requires Changed(t, r, u) && TreeShaped(t') && DisjointRoots(others, RootsOf(r))
    requires AgreeOutside(t', t, others)
    ensures Changed(t', r, Overwrite(t', RootsOf(r), u))
  {
    var roots := RootsOf(r);
    var u' := Overwrite(t', roots, u);
    AgreeNearDisjoint(t, t', others, roots);
    forall i, a | 0 <= i < |roots| && ProperlyCovers(a, roots[i]) ensures IsDirectory(t', a) {
      assert ParentExists(t, roots[i]) && IsDirectory(t, a);
      assert Overlaps(roots[i], a);
      assert Near(roots, a) && Same(t', t, a);
    }
    OverwriteKeepsShape(t', roots, u);
    forall q | Covered(roots, q) ensures Same(t', t, q) {
      CoveredIsNear(roots, q);
    }
    CapturesAgree(t', t, roots);
    CapturesAgree(u', u, roots);
  }

  /** After an undo the records left active are again a history, ending in the new workspace. */
  lemma {:induction false} HistoryRemains(trees: seq<Tree>, records: seq<Record>, sel: seq<bool>)
    requires History(trees, records) && |sel| == |records| && NoLaterOverlap(records, sel)
    ensures History(Survivors(trees, records, sel), Kept(records, sel, false))
    decreases |records|
  {
    if records != [] {
      var n := |records| - 1;
      HistoryPrefix(trees, records, sel);
      HistoryRemains(trees[..n + 1], records[..n], sel[..n]);
      if !sel[n] {
        var before := Without(trees[..n + 1], records[..n], sel[..n]);
        var others := SelectedRoots(records[..n], sel[..n]);
        forall q | !Covered(others, q) ensures Same(before, trees[n], q) {
          WithoutDiffersOnlyThere(trees[..n + 1], records[..n], sel[..n], q);
        }
        assert Changed(trees[n], records[n], trees[n + 1]);
        var ts, rs := Survivors(trees[..n + 1], records[..n], sel[..n]), Kept(records[..n], sel[..n], false);
        LastIsShaped(ts, rs);
        Replays(trees[n], records[n], trees[n + 1], before, others);
        ExtendHistory(ts, rs, records[n], Without(trees, records, sel));
      }
    }
  }

  lemma {:induction false} LastIsShaped(trees: seq<Tree>, records: seq<Record>)
    requires History(trees, records)
    ensures TreeShaped(trees[|records|])
  {
    if records != [] {
      var n := |records| - 1;
      assert Changed(trees[n], records[n], trees[n + 1]);
    }
  }

  /** Committing one more record extends the history. */
  lemma {:induction false} ExtendHistory(trees: seq<Tree>, records: seq<Record>, r: Record, u: Tree)
    requires History(trees, records) && Changed(trees[|records|], r, u)
    ensures History(trees + [u], records + [r])
  {
    var ts, rs := trees + [u], records + [r];
    forall i | 0 <= i < |rs| ensures Changed(ts[i], rs[i], ts[i + 1]) {
      if i < |records| { assert Changed(trees[i], records[i], trees[i + 1]); }
    }
  }
}
