/** What an undo does when the clock ran backwards, so that records are listed in another order than they were made. */
module ClockOrder {
  import opened Paths
  import opened FileTree
  import opened Snapshots
  import opened BlobStore
  import opened MutationJournal
  import opened UndoHistory
  import opened Composition
  import opened MutationService
  import opened Wrappers

  /** A record with the workspace it found and the one it left. */
  datatype Row = Row(found: Tree, record: Record, left: Tree)

  predicate Touches(row: Row, q: Path) {
    Covered(RootsOf(row.record), q)
  }

  predicate Touched(rows: seq<Row>, q: Path) {
    exists i :: 0 <= i < |rows| && Touches(rows[i], q)
  }

  function Records(rows: seq<Row>): seq<Record> {
    seq(|rows|, i requires 0 <= i < |rows| => rows[i].record)
  }

  /** What the last listed record with this path in its roots left there. */
  function LastLeft(rows: seq<Row>, q: Path): Tree {
    if rows == [] then map[] else
      var n := |rows| - 1;
      if Touches(rows[n], q) then rows[n].left else LastLeft(rows[..n], q)
  }

  /** What the first listed record with this path in its roots found there. */
  function FirstFound(rows: seq<Row>, q: Path, otherwise: Tree): Tree {
    if rows == [] then otherwise else
      var n := |rows| - 1;
      FirstFound(rows[..n], q, if Touches(rows[n], q) then rows[n].found else otherwise)
  }

  /** Everywhere, the last of both lists left the same. */
  ghost predicate LeaveTheSame(rows: seq<Row>, made: seq<Row>) {
    forall q :: Same(LastLeft(rows, q), LastLeft(made, q), q)
  }

  /** Everywhere, the first of both lists found the same. */
  ghost predicate FindTheSame(rows: seq<Row>, made: seq<Row>, otherwise: Tree) {
    forall q :: Same(FirstFound(rows, q, otherwise), FirstFound(made, q, otherwise), q)
  }

  ghost predicate AllChanged(rows: seq<Row>) {
    forall i :: 0 <= i < |rows| ==> Changed(rows[i].found, rows[i].record, rows[i].left)
  }

  predicate AboveRoot(row: Row, a: Path) {
    exists i :: 0 <= i < |RootsOf(row.record)| && ProperlyCovers(a, RootsOf(row.record)[i])
  }

  /** No record made or removed a directory that some root lies in. */
  ghost predicate WaysStay(rows: seq<Row>) {
    forall i, j, a :: 0 <= i < |rows| && 0 <= j < |rows| && AboveRoot(rows[j], a) && Touches(rows[i], a) ==>
      IsDirectory(rows[i].found, a) && IsDirectory(rows[i].left, a)
  }

  ghost predicate WaysIn(rows: seq<Row>, x: Tree) {
    forall j, a :: 0 <= j < |rows| && AboveRoot(rows[j], a) ==> IsDirectory(x, a)
  }

  lemma {:induction false} TouchedPrefix(rows: seq<Row>, q: Path)
    requires rows != []
    ensures Touched(rows, q) <==> Touched(rows[..|rows| - 1], q) || Touches(rows[|rows| - 1], q)
  {
    var n := |rows| - 1;
    if i :| 0 <= i < |rows| && Touches(rows[i], q) {
      if i < n { assert Touches(rows[..n][i], q); }
    }
    if i :| 0 <= i < n && Touches(rows[..n][i], q) { assert Touches(rows[i], q); }
  }

  lemma {:induction false} CoveredIsTouched(rows: seq<Row>, q: Path)
    requires AllChanged(rows)
    ensures Covered(PostPaths(Records(rows)), q) <==> Touched(rows, q)
    decreases |rows|
  {
    if rows == [] {
      assert !Covered([], q);
    } else {
      var n := |rows| - 1;
      assert Records(rows)[..n] == Records(rows[..n]);
      CoveredIsTouched(rows[..n], q);
      TouchedPrefix(rows, q);
      assert Changed(rows[n].found, rows[n].record, rows[n].left);
      assert PathsOf(rows[n].record.post) == RootsOf(rows[n].record);
      CoveredAppend(PostPaths(Records(rows[..n])), RootsOf(rows[n].record), q);
    }
  }

  // ---- The check compares with what was listed last ----

  lemma {:induction false} ComposedIsLastLeft(rows: seq<Row>, q: Path)
    requires AllChanged(rows)
    ensures Same(ComposeEntries(Records(rows)), LastLeft(rows, q), q)
    decreases |rows|
  {
    if rows != [] {
      var n := |rows| - 1;
      assert Records(rows)[..n] == Records(rows[..n]);
      ComposedIsLastLeft(rows[..n], q);
      var row, before := rows[n], ComposeEntries(Records(rows[..n]));
      assert Changed(row.found, row.record, row.left);
      AddAllCaptured(before, row.left, RootsOf(row.record));
    }
  }

  lemma {:induction false} LastLeftComesFrom(rows: seq<Row>, q: Path)
    requires Touched(rows, q)
    ensures exists i :: 0 <= i < |rows| && Touches(rows[i], q) && LastLeft(rows, q) == rows[i].left &&
              forall j :: i < j < |rows| ==> !Touches(rows[j], q)
    decreases |rows|
  {
    var n := |rows| - 1;
    TouchedPrefix(rows, q);
    if Touches(rows[n], q) {
      assert LastLeft(rows, q) == rows[n].left;
    } else {
      LastLeftComesFrom(rows[..n], q);
      var i :| 0 <= i < n && Touches(rows[..n][i], q) && LastLeft(rows[..n], q) == rows[..n][i].left &&
        forall j :: i < j < n ==> !Touches(rows[..n][j], q);
      forall j | i < j < |rows| ensures !Touches(rows[j], q) {
        if j < n { assert rows[..n][j] == rows[j]; }
      }
      assert rows[..n][i] == rows[i];
    }
  }

  /** The composed entries put into the workspace give a tree. */
  lemma {:induction false} ComposedIsShaped(rows: seq<Row>, x: Tree, all: seq<Path>)
    requires AllChanged(rows) && WaysStay(rows) && WaysIn(rows, x) && TreeShaped(x)
    requires all == PostPaths(Records(rows))
    ensures TreeShaped(Overwrite(x, all, ComposeEntries(Records(rows))))
  {
    var r := Overwrite(x, all, ComposeEntries(Records(rows)));
    forall q | q in r && q != [] ensures IsDirectory(r, Parent(q)) {
      CoveredIsTouched(rows, q);
      CoveredIsTouched(rows, Parent(q));
      ComposedIsLastLeft(rows, q);
      ComposedIsLastLeft(rows, Parent(q));
      assert Same(r, if Covered(all, q) then LastLeft(rows, q) else x, q);
      assert Same(r, if Covered(all, Parent(q)) then LastLeft(rows, Parent(q)) else x, Parent(q));
      ParentStands(rows, x, q);
    }
  }

  lemma {:induction false} TouchesBelow(row: Row, a: Path, q: Path)
    requires Touches(row, a) && a <= q
    ensures Touches(row, q)
  {
    var i :| 0 <= i < |RootsOf(row.record)| && RootsOf(row.record)[i] <= a;
    assert RootsOf(row.record)[i] <= q;
  }

  lemma {:induction false} ParentStands(rows: seq<Row>, x: Tree, q: Path)
    requires AllChanged(rows) && WaysStay(rows) && WaysIn(rows, x) && TreeShaped(x) && q != []
    requires q in if Touched(rows, q) then LastLeft(rows, q) else x
    ensures IsDirectory(if Touched(rows, Parent(q)) then LastLeft(rows, Parent(q)) else x, Parent(q))
  {
    var up := Parent(q);
    if Touched(rows, q) {
      hide LastLeft, Touches, AboveRoot, Changed;
      LastLeftComesFrom(rows, q);
      var k :| 0 <= k < |rows| && Touches(rows[k], q) && LastLeft(rows, q) == rows[k].left &&
        forall j :: k < j < |rows| ==> !Touches(rows[j], q);
      assert Changed(rows[k].found, rows[k].record, rows[k].left);
      TouchedParent(rows, x, q, k);
    } else if m :| 0 <= m < |rows| && Touches(rows[m], up) {
      TouchesBelow(rows[m], up, q);
      assert false;
    }
  }

  /** `k` is the last listed record with `q` in its roots. */
  lemma {:induction false} TouchedParent(rows: seq<Row>, x: Tree, q: Path, k: nat)
    requires k < |rows| && Changed(rows[k].found, rows[k].record, rows[k].left) && WaysStay(rows) && WaysIn(rows, x)
    requires q != [] && q in rows[k].left && Touches(rows[k], q) && forall j :: k < j < |rows| ==> !Touches(rows[j], q)
    ensures IsDirectory(if Touched(rows, Parent(q)) then LastLeft(rows, Parent(q)) else x, Parent(q))
  {
    var up := Parent(q);
    assert IsDirectory(rows[k].left, up);
    hide LastLeft, Touches, AboveRoot, Changed;
    if !Touches(rows[k], up) { OnlyAbove(rows[k], up, q); }
    if Touched(rows, up) {
      LastLeftComesFrom(rows, up);
      var m :| 0 <= m < |rows| && Touches(rows[m], up) && LastLeft(rows, up) == rows[m].left &&
        forall j :: m < j < |rows| ==> !Touches(rows[j], up);
      TouchesBelow(rows[m], up, q);
      assert m <= k;
    }
  }

  /** A path within the roots whose directory is not is a root itself. */
  lemma {:induction false} OnlyAbove(row: Row, up: Path, q: Path)
    requires q != [] && up == Parent(q) && Touches(row, q) && !Touches(row, up)
    ensures AboveRoot(row, up)
  {
    var roots := RootsOf(row.record);
    var i :| 0 <= i < |roots| && roots[i] <= q;
    assert !(roots[i] <= up);
    if |roots[i]| < |q| {
      assert false;
    }
    assert roots[i] == q && ProperlyCovers(up, roots[i]);
  }

  lemma {:induction false} ConflictsWith(tops: seq<Path>, x: Tree, y: Tree)
    requires TreeShaped(x) && TreeShaped(y)
    ensures Conflicts(CaptureAll(y, tops), x) == [] <==> forall q :: Covered(tops, q) ==> Same(x, y, q)
  {
    hide Conflicts, Covered;
    var conflicts := Conflicts(CaptureAll(y, tops), x);
    forall p ensures p in conflicts <==> p in tops && Restrict(x, p) != Restrict(y, p) {
      ConflictsList(CaptureAll(y, tops), x, p);
      CaptureIsExact(x, y, p);
      if p in tops {
        var i :| 0 <= i < |tops| && tops[i] == p;
        assert CaptureAll(y, tops)[i].path == p;
      }
    }
    RootsAgreeExactly(conflicts, tops, x, y);
  }

  /** At one path: within the top-level roots exactly when some record has it, and then what the last listed one left. */
  lemma {:induction false} ComposedAt(rows: seq<Row>, x: Tree, q: Path)
    requires AllChanged(rows)
    ensures var e, all := ComposeEntries(Records(rows)), PostPaths(Records(rows));
            (Covered(TopLevelRoots(all), q) <==> Touched(rows, q)) &&
            (Touched(rows, q) ==> Same(Overwrite(x, all, e), e, q) && Same(e, LastLeft(rows, q), q))
  {
    hide TopLevelRoots, PostPaths, ComposeEntries, Touched, LastLeft, Covered;
    TopLevelRootsPartition(PostPaths(Records(rows)));
    CoveredIsTouched(rows, q);
    ComposedIsLastLeft(rows, q);
  }

  /** The undo is refused unless every path holds what the last listed record left there. */
  lemma {:induction false} CheckFollowsListing(rows: seq<Row>, x: Tree)
    requires AllChanged(rows) && WaysStay(rows) && WaysIn(rows, x) && TreeShaped(x)
    ensures Conflicts(ComposeFinalRoots(Records(rows)), x) == [] <==>
            forall q :: Touched(rows, q) ==> Same(x, LastLeft(rows, q), q)
  {
    var e, all := ComposeEntries(Records(rows)), PostPaths(Records(rows));
    var tops, shaped := TopLevelRoots(all), Overwrite(x, all, e);
    assert ComposeFinalRoots(Records(rows)) == CaptureAll(e, tops);
    hide *;
    forall q ensures Covered(tops, q) <==> Touched(rows, q)
             ensures Touched(rows, q) ==> Same(shaped, e, q) && Same(e, LastLeft(rows, q), q)
    {
      ComposedAt(rows, x, q);
    }
    ComposedIsShaped(rows, x, all);
    CapturesAgree(e, shaped, tops);
    ConflictsWith(tops, x, shaped);
    forall q | Touched(rows, q) ensures Same(x, shaped, q) <==> Same(x, LastLeft(rows, q), q) {
      SameAlong(x, shaped, e, LastLeft(rows, q), q);
    }
  }

  lemma SameAlong(x: Tree, y: Tree, e: Tree, z: Tree, q: Path)
    requires Same(y, e, q) && Same(e, z, q)
    ensures Same(x, y, q) <==> Same(x, z, q)
    ensures Same(e, y, q)
  {
  }

  lemma {:induction false} RootsAgreeExactly(conflicts: seq<Path>, tops: seq<Path>, x: Tree, y: Tree)
    requires forall p :: p in conflicts <==> p in tops && Restrict(x, p) != Restrict(y, p)
    ensures conflicts == [] <==> forall q :: Covered(tops, q) ==> Same(x, y, q)
  {
    if conflicts == [] {
      forall q | Covered(tops, q) ensures Same(x, y, q) {
        var i :| 0 <= i < |tops| && tops[i] <= q;
        assert tops[i] in tops;
        assert q in Restrict(x, tops[i]) <==> q in x;
        assert q in Restrict(y, tops[i]) <==> q in y;
      }
    } else {
      var p := conflicts[0];
      assert p in conflicts;
      var i :| 0 <= i < |tops| && tops[i] == p;
      if forall q :: Covered(tops, q) ==> Same(x, y, q) { SameSubtree(x, y, tops, i); }
    }
  }

  // ---- The restore ends with what was found first in the listing ----

  lemma {:induction false} WaysAfter(rows: seq<Row>, x: Tree)
    requires rows != [] && WaysStay(rows) && WaysIn(rows, x)
    ensures var n := |rows| - 1;
            WaysIn(rows, Overwrite(x, RootsOf(rows[n].record), rows[n].found))
  {
    hide Covered, AboveRoot;
    var n := |rows| - 1;
    var next := Overwrite(x, RootsOf(rows[n].record), rows[n].found);
    forall j, a | 0 <= j < |rows| && AboveRoot(rows[j], a) ensures IsDirectory(next, a) {
      assert IsDirectory(x, a) && (Touches(rows[n], a) ==> IsDirectory(rows[n].found, a));
      assert Same(next, if Touches(rows[n], a) then rows[n].found else x, a);
    }
  }

  lemma {:induction false} RestoreLastListed(rows: seq<Row>, x: Tree)
    requires rows != [] && AllChanged(rows) && WaysStay(rows) && WaysIn(rows, x)
    ensures var n := |rows| - 1;
            var next := Overwrite(x, RootsOf(rows[n].record), rows[n].found);
            RestoreRoots(x, rows[n].record.pre) == Some(next) && WaysIn(rows[..n], next)
  {
    hide WaysStay, Overwrite, RestoreRoots, Covered;
    WaysAfter(rows, x);
    var row, roots := rows[|rows| - 1], RootsOf(rows[|rows| - 1].record);
    assert Changed(row.found, row.record, row.left);
    var next := Overwrite(x, roots, row.found);
    forall i, a | 0 <= i < |roots| && ProperlyCovers(a, roots[i]) ensures IsDirectory(next, a) {
      assert AboveRoot(row, a);
    }
    RestoreRootsIsExact(x, roots, row.found);
  }

  lemma RowsPrefix(rows: seq<Row>, n: nat, blobs: Blobs)
    requires n == |rows| - 1 && AllChanged(rows) && WaysStay(rows) && AllRecordsWhole(blobs, Records(rows))
    ensures AllChanged(rows[..n]) && WaysStay(rows[..n]) && AllRecordsWhole(blobs, Records(rows[..n]))
    ensures Records(rows)[..n] == Records(rows[..n]) && AllWhole(blobs, rows[n].record.pre)
  {
    hide Changed, AllWhole, Touches, AboveRoot;
    assert Records(rows)[..n] == Records(rows[..n]) && Records(rows)[n] in Records(rows);
    forall r | r in Records(rows[..n]) ensures AllWhole(blobs, r.pre) {
      assert r in Records(rows);
    }
  }

  lemma {:induction false} RestoreFollowsListing(rows: seq<Row>, x: Tree, blobs: Blobs)
    requires AllChanged(rows) && WaysStay(rows) && WaysIn(rows, x) && AllRecordsWhole(blobs, Records(rows))
    ensures var back := RestoreBackwards(blobs, x, Records(rows));
            back.Some? && forall q :: Same(back.value, FirstFound(rows, q, x), q)
    decreases |rows|
  {
    hide AllChanged, WaysStay, WaysIn, AllRecordsWhole, AllWhole, LoadSnapshots, RestoreRoots;
    if rows != [] {
      var n := |rows| - 1;
      RowsPrefix(rows, n, blobs);
      RestoreLastListed(rows, x);
      WholeIsReadable(blobs, rows[n].record.pre);
      var next := Overwrite(x, RootsOf(rows[n].record), rows[n].found);
      RestoreFollowsListing(rows[..n], next, blobs);
      var back := RestoreBackwards(blobs, next, Records(rows[..n])).value;
      forall q ensures Same(back, FirstFound(rows, q, x), q) {
        var here := if Touches(rows[n], q) then rows[n].found else x;
        assert Same(next, here, q);
        OtherwiseAgrees(rows[..n], q, next, here);
      }
    }
  }

  lemma {:induction false} OtherwiseAgrees(rows: seq<Row>, q: Path, t: Tree, u: Tree)
    requires Same(t, u, q)
    ensures Same(FirstFound(rows, q, t), FirstFound(rows, q, u), q)
    decreases |rows|
  {
    if rows != [] {
      var n := |rows| - 1;
      OtherwiseAgrees(rows[..n], q, if Touches(rows[n], q) then rows[n].found else t,
                      if Touches(rows[n], q) then rows[n].found else u);
    }
  }

  // ---- Against the order in which the records were made ----

  function Place(journal: seq<Record>, r: Record): (k: nat)
    ensures r in journal ==> k < |journal| && journal[k] == r
  {
    if journal == [] || journal[0] == r then 0 else Place(journal[1..], r) + 1
  }

  /** The record with the workspaces before and after it. */
  function RowOf(trees: seq<Tree>, journal: seq<Record>, r: Record): Row
    requires |trees| == |journal| + 1
  {
    if r in journal then Row(trees[Place(journal, r)], r, trees[Place(journal, r) + 1]) else Row(map[], r, map[])
  }

  function Rows(trees: seq<Tree>, journal: seq<Record>, rs: seq<Record>): seq<Row>
    requires |trees| == |journal| + 1
  {
    seq(|rs|, i requires 0 <= i < |rs| => RowOf(trees, journal, rs[i]))
  }

  lemma {:induction false} RowsHold(trees: seq<Tree>, journal: seq<Record>, rs: seq<Record>)
    requires History(trees, journal) && forall r :: r in rs ==> r in journal
    ensures AllChanged(Rows(trees, journal, rs)) && Records(Rows(trees, journal, rs)) == rs
  {
    var rows := Rows(trees, journal, rs);
    forall i | 0 <= i < |rows| ensures Changed(rows[i].found, rows[i].record, rows[i].left) {
      var k := Place(journal, rs[i]);
      assert rs[i] in journal && Changed(trees[k], journal[k], trees[k + 1]);
    }
  }

  lemma {:induction false} SameRecordsTouch(trees: seq<Tree>, journal: seq<Record>, rs: seq<Record>, qs: seq<Record>, q: Path)
    requires |trees| == |journal| + 1 && forall r :: r in rs ==> r in qs
    ensures Touched(Rows(trees, journal, rs), q) ==> Touched(Rows(trees, journal, qs), q)
  {
    var rows, others := Rows(trees, journal, rs), Rows(trees, journal, qs);
    if i :| 0 <= i < |rows| && Touches(rows[i], q) {
      assert rs[i] in qs;
      var j :| 0 <= j < |qs| && qs[j] == rs[i];
      assert Touches(others[j], q);
    }
  }

  lemma {:induction false} UntouchedLeavesNothing(rows: seq<Row>, q: Path)
    requires !Touched(rows, q)
    ensures LastLeft(rows, q) == map[]
    decreases |rows|
  {
    if rows != [] {
      TouchedPrefix(rows, q);
      UntouchedLeavesNothing(rows[..|rows| - 1], q);
    }
  }

  /** The live workspace holds what the record made last left; directories above roots are there. */
  lemma {:induction false} LiveIsLastMade(trees: seq<Tree>, journal: seq<Record>, sel: seq<bool>, q: Path)
    requires History(trees, journal) && |sel| == |journal| && NoLaterOverlap(journal, sel)
    ensures var made := Rows(trees, journal, Kept(journal, sel, true));
            && (Covered(SelectedRoots(journal, sel), q) <==> Touched(made, q))
            && (Touched(made, q) ==> Same(trees[|journal|], LastLeft(made, q), q))
  {
    var kept := Kept(journal, sel, true);
    forall r | r in kept ensures r in journal {
      KeptAreRecords(journal, sel, true, r);
    }
    RowsHold(trees, journal, kept);
    PostPathsAreSelectedRoots(trees, journal, sel);
    CoveredIsTouched(Rows(trees, journal, kept), q);
    ComposedIsLastLeft(Rows(trees, journal, kept), q);
    ComposedEntriesAreLive(trees, journal, sel, q);
  }

  lemma {:induction false} WayStands(trees: seq<Tree>, journal: seq<Record>, sel: seq<bool>, rows: seq<Row>, r: Record, a: Path)
    requires History(trees, journal) && |sel| == |journal| && NoLaterOverlap(journal, sel)
    requires rows == Rows(trees, journal, Kept(journal, sel, true)) && WaysStay(rows)
    requires r in Kept(journal, sel, true) && AboveRoot(RowOf(trees, journal, r), a)
    ensures IsDirectory(trees[|journal|], a)
  {
    LiveIsLastMade(trees, journal, sel, a);
    hide History, NoLaterOverlap, LastLeft, Kept, Place, Touches, SelectedRoots;
    if Touched(rows, a) {
      var j :| 0 <= j < |rows| && Kept(journal, sel, true)[j] == r;
      assert rows[j] == RowOf(trees, journal, r);
      LastLeftComesFrom(rows, a);
      var i :| 0 <= i < |rows| && Touches(rows[i], a) && LastLeft(rows, a) == rows[i].left &&
        forall j :: i < j < |rows| ==> !Touches(rows[j], a);
      assert IsDirectory(rows[i].left, a);
    } else {
      var roots := RootsOf(r);
      var i :| 0 <= i < |roots| && ProperlyCovers(a, roots[i]);
      RootIsSelected(journal, sel, r, roots[i]);
      WayToRootsRemains(trees, journal, sel, roots[i], a);
    }
  }

  lemma {:induction false} LiveHasWays(trees: seq<Tree>, journal: seq<Record>, sel: seq<bool>, listed: seq<Record>)
    requires History(trees, journal) && |sel| == |journal| && NoLaterOverlap(journal, sel)
    requires forall r :: r in listed <==> r in Kept(journal, sel, true)
    requires WaysStay(Rows(trees, journal, listed))
    ensures WaysIn(Rows(trees, journal, listed), trees[|journal|])
  {
    var rows, kept := Rows(trees, journal, listed), Kept(journal, sel, true);
    SameRows(trees, journal, listed, kept);
    hide History, NoLaterOverlap, Kept, Place, WaysStay, AboveRoot;
    forall j, a | 0 <= j < |rows| && AboveRoot(rows[j], a) ensures IsDirectory(trees[|journal|], a) {
      assert listed[j] in listed;
      WayStands(trees, journal, sel, Rows(trees, journal, kept), listed[j], a);
    }
  }

  lemma {:induction false} RootIsSelected(journal: seq<Record>, sel: seq<bool>, r: Record, root: Path)
    requires |sel| == |journal| && r in Kept(journal, sel, true) && root in RootsOf(r)
    ensures root in SelectedRoots(journal, sel)
    decreases |journal|
  {
    var n := |journal| - 1;
    if r in Kept(journal[..n], sel[..n], true) {
      RootIsSelected(journal[..n], sel[..n], r, root);
    }
  }

  /** In any listing order, the check passes exactly when the records listed last left what those made last left. */
  lemma {:induction false} CheckInAnyOrder(trees: seq<Tree>, journal: seq<Record>, sel: seq<bool>, listed: seq<Record>)
    requires History(trees, journal) && |sel| == |journal| && NoLaterOverlap(journal, sel)
    requires forall r :: r in listed <==> r in Kept(journal, sel, true)
    requires AllChanged(Rows(trees, journal, listed)) && Records(Rows(trees, journal, listed)) == listed
    requires WaysStay(Rows(trees, journal, listed)) && WaysIn(Rows(trees, journal, listed), trees[|journal|])
    ensures var rows, made := Rows(trees, journal, listed), Rows(trees, journal, Kept(journal, sel, true));
            Conflicts(ComposeFinalRoots(listed), trees[|journal|]) == [] <==> LeaveTheSame(rows, made)
  {
    var live, kept := trees[|journal|], Kept(journal, sel, true);
    var rows, made := Rows(trees, journal, listed), Rows(trees, journal, kept);
    LastIsShaped(trees, journal);
    hide *;
    CheckFollowsListing(rows, live);
    forall q ensures (Touched(rows, q) ==> Same(live, LastLeft(rows, q), q)) <==> Same(LastLeft(rows, q), LastLeft(made, q), q) {
      LastAgreesAt(trees, journal, sel, listed, q);
    }
  }

  lemma {:induction false} LastAgreesAt(trees: seq<Tree>, journal: seq<Record>, sel: seq<bool>, listed: seq<Record>, q: Path)
    requires History(trees, journal) && |sel| == |journal| && NoLaterOverlap(journal, sel)
    requires forall r :: r in listed <==> r in Kept(journal, sel, true)
    ensures var rows, made := Rows(trees, journal, listed), Rows(trees, journal, Kept(journal, sel, true));
            (Touched(rows, q) ==> Same(trees[|journal|], LastLeft(rows, q), q)) <==> Same(LastLeft(rows, q), LastLeft(made, q), q)
  {
    var kept := Kept(journal, sel, true);
    var rows, made := Rows(trees, journal, listed), Rows(trees, journal, kept);
    LiveIsLastMade(trees, journal, sel, q);
    SameRecordsTouch(trees, journal, listed, kept, q);
    SameRecordsTouch(trees, journal, kept, listed, q);
    hide Touched, LastLeft, Rows, Kept, History, NoLaterOverlap;
    if !Touched(rows, q) {
      UntouchedLeavesNothing(rows, q);
      UntouchedLeavesNothing(made, q);
    }
  }

  /**
   * Records undone in any listing order. The undo is refused exactly when, somewhere, what the record listed last left
   * is not what the record made last left. Let through, it ends in the history without the selection exactly when,
   * everywhere, what the record listed first found is what the record made first found.
   */
  lemma {:induction false} UndoInAnyOrder(trees: seq<Tree>, journal: seq<Record>, sel: seq<bool>, listed: seq<Record>, blobs: Blobs)
    requires History(trees, journal) && |sel| == |journal| && NoLaterOverlap(journal, sel)
    requires forall r :: r in listed <==> r in Kept(journal, sel, true)
    requires AllRecordsWhole(blobs, listed) && WaysStay(Rows(trees, journal, listed))
    ensures var live := trees[|journal|];
            var rows, made := Rows(trees, journal, listed), Rows(trees, journal, Kept(journal, sel, true));
            var back := RestoreBackwards(blobs, live, listed);
            && (Conflicts(ComposeFinalRoots(listed), live) == [] <==> LeaveTheSame(rows, made))
            && back.Some?
            && (back.value == Without(trees, journal, sel) <==> FindTheSame(rows, made, live))
  {
    var live, kept := trees[|journal|], Kept(journal, sel, true);
    var rows, made := Rows(trees, journal, listed), Rows(trees, journal, kept);
    forall r | r in kept ensures r in journal {
      KeptAreRecords(journal, sel, true, r);
    }
    hide *;
    RowsHold(trees, journal, listed);
    LiveHasWays(trees, journal, sel, listed);
    CheckInAnyOrder(trees, journal, sel, listed);
    RestoreFollowsListing(rows, live, blobs);
    WithoutIsFirstFound(trees, journal, sel, listed, blobs);
    var back, w := RestoreBackwards(blobs, live, listed).value, Without(trees, journal, sel);
    AgreeWithBoth(back, w, rows, made, live);
  }

  lemma {:induction false} AgreeWithBoth(back: Tree, w: Tree, rows: seq<Row>, made: seq<Row>, live: Tree)
    requires forall q :: Same(back, FirstFound(rows, q, live), q)
    requires forall q :: Same(w, FirstFound(made, q, live), q)
    ensures back == w <==> FindTheSame(rows, made, live)
  {
    if back == w {
      forall q ensures Same(FirstFound(rows, q, live), FirstFound(made, q, live), q) {
        assert Same(back, FirstFound(rows, q, live), q) && Same(w, FirstFound(made, q, live), q);
      }
    }
    if FindTheSame(rows, made, live) {
      forall q ensures Same(back, w, q) {
        assert Same(FirstFound(rows, q, live), FirstFound(made, q, live), q);
      }
      SameEverywhere(back, w);
    }
  }

  /** The history without the selection has what the records made first found. */
  lemma {:induction false} WithoutIsFirstFound(trees: seq<Tree>, journal: seq<Record>, sel: seq<bool>, listed: seq<Record>, blobs: Blobs)
    requires History(trees, journal) && |sel| == |journal| && NoLaterOverlap(journal, sel)
    requires forall r :: r in listed <==> r in Kept(journal, sel, true)
    requires AllRecordsWhole(blobs, listed) && WaysStay(Rows(trees, journal, listed))
    ensures var made := Rows(trees, journal, Kept(journal, sel, true));
            forall q :: Same(Without(trees, journal, sel), FirstFound(made, q, trees[|journal|]), q)
  {
    var live, kept := trees[|journal|], Kept(journal, sel, true);
    var made := Rows(trees, journal, kept);
    forall r | r in kept ensures r in journal {
      KeptAreRecords(journal, sel, true, r);
    }
    RowsHold(trees, journal, kept);
    SameRows(trees, journal, listed, kept);
    LiveHasWays(trees, journal, sel, kept);
    RestoreFollowsListing(made, live, blobs);
    BackwardsOverSelection(blobs, live, journal, sel);
    UndoEqualsNeverHappened(trees, journal, sel);
  }

  lemma {:induction false} SameRows(trees: seq<Tree>, journal: seq<Record>, listed: seq<Record>, kept: seq<Record>)
    requires |trees| == |journal| + 1 && WaysStay(Rows(trees, journal, listed)) && forall r :: r in kept ==> r in listed
    ensures WaysStay(Rows(trees, journal, kept))
  {
    var rows, made := Rows(trees, journal, listed), Rows(trees, journal, kept);
    hide RowOf, AboveRoot, Touches;
    forall i | 0 <= i < |made| ensures made[i] in rows {
      assert kept[i] in listed;
      var k :| 0 <= k < |listed| && listed[k] == kept[i];
      assert rows[k] == made[i];
    }
    FewerRows(rows, made);
  }

  lemma {:induction false} FewerRows(rows: seq<Row>, made: seq<Row>)
    requires WaysStay(rows) && forall i :: 0 <= i < |made| ==> made[i] in rows
    ensures WaysStay(made)
  {
    hide AboveRoot, Touches;
    forall i, j, a | 0 <= i < |made| && 0 <= j < |made| && AboveRoot(made[j], a) && Touches(made[i], a)
      ensures IsDirectory(made[i].found, a) && IsDirectory(made[i].left, a)
    {
      assert made[i] in rows && made[j] in rows;
    }
  }

  // ---- What the service chooses, and a run that ends wrong ----

  /** The places of some records in the journal. */
  function Among(journal: seq<Record>, chosen: seq<Record>): (sel: seq<bool>)
    ensures |sel| == |journal|
  {
    seq(|journal|, i requires 0 <= i < |journal| => journal[i] in chosen)
  }

  lemma {:induction false} KeptAmong(journal: seq<Record>, chosen: seq<Record>, sel: seq<bool>, r: Record)
    requires |sel| == |journal| && forall i :: 0 <= i < |journal| ==> sel[i] == (journal[i] in chosen)
    ensures r in Kept(journal, sel, true) <==> r in journal && r in chosen
    decreases |journal|
  {
    if journal != [] {
      var n := |journal| - 1;
      KeptAmong(journal[..n], chosen, sel[..n], r);
      assert r in journal <==> r in journal[..n] || r == journal[n];
    }
  }

  /** The records an undo takes, as the listing orders them. */
  function ChosenRecords(s: State, target: string): seq<Record> {
    Kept(ByTime(Active(s)), Select(ByTime(Active(s)), target), true)
  }

  lemma {:induction false} ChosenAreThose(s: State, target: string, r: Record)
    ensures r in ChosenRecords(s, target) <==> r in Kept(Active(s), Among(Active(s), ChosenRecords(s, target)), true)
  {
    var active, chosen := Active(s), ChosenRecords(s, target);
    KeptAmong(active, chosen, Among(active, chosen), r);
    if r in chosen {
      KeptAreRecords(ByTime(active), Select(ByTime(active), target), true, r);
      ByTimeSorts(active);
      assert r in multiset(ByTime(active));
    }
  }

  /** What `Service.Undo` does with any journal, whatever the clock did between its records. */
  lemma {:induction false} UndoAgainstTheClock(s: State, trees: seq<Tree>, target: string, blobs: Blobs)
    requires History(trees, Active(s)) && Backed(s, blobs)
    requires NoLaterOverlap(Active(s), Among(Active(s), ChosenRecords(s, target)))
    requires WaysStay(Rows(trees, Active(s), ChosenRecords(s, target)))
    ensures var active, chosen, live := Active(s), ChosenRecords(s, target), trees[|Active(s)|];
            var sel := Among(active, chosen);
            var rows, made := Rows(trees, active, chosen), Rows(trees, active, Kept(active, sel, true));
            var back := RestoreBackwards(blobs, live, chosen);
            && (Conflicts(ComposeFinalRoots(chosen), live) == [] <==> LeaveTheSame(rows, made))
            && back.Some?
            && (back.value == Without(trees, active, sel) <==> FindTheSame(rows, made, live))
  {
    var active, chosen := Active(s), ChosenRecords(s, target);
    ChosenAreWhole(s, blobs, target, trees[|active|]);
    assert AllRecordsWhole(blobs, chosen);
    hide *;
    forall r ensures r in chosen <==> r in Kept(active, Among(active, chosen), true) {
      ChosenAreThose(s, target, r);
    }
    UndoInAnyOrder(trees, active, Among(active, chosen), chosen, blobs);
  }

  lemma {:induction false} PairOfRows(x: Row, y: Row, q: Path, otherwise: Tree)
    ensures LastLeft([x, y], q) == if Touches(y, q) then y.left else if Touches(x, q) then x.left else map[]
    ensures FirstFound([x, y], q, otherwise) == if Touches(x, q) then x.found else if Touches(y, q) then y.found else otherwise
  {
    hide Touches;
    assert [x, y][..1] == [x] && [x][..0] == [];
    assert LastLeft([x], q) == if Touches(x, q) then x.left else map[];
    var later := if Touches(y, q) then y.found else otherwise;
    assert FirstFound([x], q, later) == if Touches(x, q) then x.found else later;
  }

  lemma {:induction false} RowsOfTwo(t: seq<Tree>, first: Record, second: Record)
    requires |t| == 3 && first != second
    ensures Rows(t, [first, second], [first, second]) == [Row(t[0], first, t[1]), Row(t[1], second, t[2])]
    ensures Rows(t, [first, second], [second, first]) == [Row(t[1], second, t[2]), Row(t[0], first, t[1])]
  {
    var journal := [first, second];
    assert Place(journal, first) == 0;
    assert Place(journal[1..], second) == 0 && Place(journal, second) == 1;
  }

  predicate InBoth(first: Record, second: Record, q: Path) {
    Covered(RootsOf(first), q) && Covered(RootsOf(second), q)
  }

  lemma {:induction false} SwapMatters(t: seq<Tree>, first: Record, second: Record)
    requires |t| == 3 && first != second
    ensures var rows, made := Rows(t, [first, second], [second, first]), Rows(t, [first, second], [first, second]);
            && (LeaveTheSame(rows, made) <==> forall q :: InBoth(first, second, q) ==> Same(t[2], t[1], q))
            && (FindTheSame(rows, made, t[2]) <==> forall q :: InBoth(first, second, q) ==> Same(t[1], t[0], q))
  {
    RowsOfTwo(t, first, second);
    var a, b := Row(t[0], first, t[1]), Row(t[1], second, t[2]);
    var rows, made := [b, a], [a, b];
    hide Rows, Place, LastLeft, FirstFound, Covered;
    forall q ensures Same(LastLeft(rows, q), LastLeft(made, q), q) <==> (InBoth(first, second, q) ==> Same(t[2], t[1], q))
             ensures Same(FirstFound(rows, q, t[2]), FirstFound(made, q, t[2]), q) <==> (InBoth(first, second, q) ==> Same(t[1], t[0], q))
    {
      PairOfRows(a, b, q, t[2]);
      PairOfRows(b, a, q, t[2]);
    }
  }

  /**
   * Two records of one run, the later one stamped earlier. Both are chosen, the later one first. The undo is refused
   * exactly when the later one changed something in the roots of both; let through, it is exact exactly when the
   * earlier one changed nothing there.
   */
  lemma {:induction false} TwoSwapped(s: State, t: seq<Tree>, first: Record, second: Record, target: string, blobs: Blobs)
    requires Active(s) == [first, second] && History(t, [first, second]) && Backed(s, blobs)
    requires second.createdAt < first.createdAt && target != "" && first.runId == second.runId == target
    requires WaysStay(Rows(t, [first, second], [second, first]))
    ensures ChosenRecords(s, target) == [second, first]
    ensures Conflicts(ComposeFinalRoots([second, first]), t[2]) == [] <==>
            forall q :: InBoth(first, second, q) ==> Same(t[2], t[1], q)
    ensures RestoreBackwards(blobs, t[2], [second, first]) == Some(t[0]) <==>
            forall q :: InBoth(first, second, q) ==> Same(t[1], t[0], q)
  {
    var journal, listed := [first, second], [second, first];
    ChosenOfTwo(s, first, second, target);
    var sel := Among(journal, listed);
    assert sel == [true, true] && |t| == 3 && first != second;
    hide Rows, RestoreBackwards, ComposeFinalRoots, Conflicts, WaysStay, Backed, History, Covered, Select, ByTime, Kept, Without;
    KeepingBoth(journal, sel);
    UndoAgainstTheClock(s, t, target, blobs);
    SwapMatters(t, first, second);
    WithoutBoth(t, journal, sel);
  }

  lemma {:induction false} ChosenOfTwo(s: State, first: Record, second: Record, target: string)
    requires Active(s) == [first, second] && second.createdAt < first.createdAt
    requires target != "" && first.runId == second.runId == target
    ensures ChosenRecords(s, target) == [second, first]
  {
    assert [first, second][1..] == [second] && [second][1..] == [];
    assert ByTime([second]) == [second];
    assert InsertByTime(first, [second]) == [second] + InsertByTime(first, [second][1..]) == [second, first];
    assert ByTime([first, second]) == [second, first];
    var sel := Select([second, first], target);
    assert sel == [true, true];
    KeepingBoth([second, first], sel);
  }

  lemma {:induction false} KeepingBoth(rs: seq<Record>, sel: seq<bool>)
    requires |rs| == 2 && sel == [true, true]
    ensures Kept(rs, sel, true) == rs
  {
    assert rs[..1][..0] == [] && sel[..1] == [true];
    assert Kept(rs[..1], sel[..1], true) == [rs[0]];
    assert rs == [rs[0], rs[1]];
  }

  lemma {:induction false} WithoutBoth(t: seq<Tree>, rs: seq<Record>, sel: seq<bool>)
    requires |rs| == 2 && sel == [true, true] && |t| == 3
    ensures Without(t, rs, sel) == t[0]
  {
    assert Without(t[..2][..1], rs[..1][..0], sel[..1][..0]) == t[0];
    assert Without(t[..2], rs[..1], sel[..1]) == t[0];
  }

  // ---- A run of two files where the undo is let through and goes wrong ----

  const F: Path := [[0x66]]
  const G: Path := [[0x67]]

  function TwoFiles(f: nat, g: nat): (t: Tree) {
    map[[] := Directory, F := File([f]), G := File([g])]
  }

  ghost function Change(id: Id, at: int, t: Tree, u: Tree, roots: seq<Path>): Record {
    Record(id, "run", at, CaptureAll(t, roots), CaptureAll(u, roots))
  }

  lemma {:induction false} FilesChanged(id: Id, at: int, t: Tree, u: Tree, roots: seq<Path>, a: nat, b: nat, c: nat, d: nat)
    requires t == TwoFiles(a, b) && u == TwoFiles(c, d) && (roots == [F] || roots == [F, G]) && (roots == [F] ==> b == d)
    ensures Changed(t, Change(id, at, t, u, roots), u) && RootsOf(Change(id, at, t, u, roots)) == roots
  {
    var r := Change(id, at, t, u, roots);
    assert RootsOf(r) == roots;
    assert Parent(F) == [] && Parent(G) == [];
    forall q | !Covered(roots, q) ensures Same(u, t, q) {
      assert !(roots[0] <= q) && (roots == [F, G] ==> !(roots[1] <= q));
    }
  }

  lemma {:induction false} TwoFilesChange(t: seq<Tree>, first: Record, second: Record)
    requires t == [TwoFiles(0, 0), TwoFiles(1, 0), TwoFiles(1, 1)]
    requires first == Change("a", 2, t[0], t[1], [F]) && second == Change("b", 1, t[1], t[2], [F, G])
    ensures History(t, [first, second]) && RootsOf(first) == [F] && RootsOf(second) == [F, G]
    ensures !Same(t[1], t[0], F) && forall q :: F <= q ==> Same(t[2], t[1], q)
  {
    assert !Same(t[1], t[0], F);
    FilesChanged("a", 2, t[0], t[1], [F], 0, 0, 1, 0);
    FilesChanged("b", 1, t[1], t[2], [F, G], 1, 0, 1, 1);
    OnlyGDiffers(t[2], t[1]);
    hide *;
    assert History(t, [first, second]) by { HistoryOfTwo(t, first, second); }
  }

  lemma HistoryOfTwo(t: seq<Tree>, first: Record, second: Record)
    requires |t| == 3 && Changed(t[0], first, t[1]) && Changed(t[1], second, t[2])
    ensures History(t, [first, second])
  {
    hide CaptureAll, OuterRootsFirst, ParentsExist, AgreeOutside, RootsOf;
  }

  lemma {:induction false} OnlyGDiffers(u: Tree, t: Tree)
    requires u == TwoFiles(1, 1) && t == TwoFiles(1, 0)
    ensures forall q :: F <= q ==> Same(u, t, q)
  {
    forall q | F <= q ensures Same(u, t, q) {
      assert q[0] == F[0] && F[0][0] != G[0][0];
    }
  }

  /** The earlier record changes f, the later one records both and changes g: undoing both leaves f changed. */
  lemma {:induction false} SwappedUndoGoesWrong(t: seq<Tree>, first: Record, second: Record, s: State, blobs: Blobs)
    requires t == [TwoFiles(0, 0), TwoFiles(1, 0), TwoFiles(1, 1)]
    requires first == Change("a", 2, t[0], t[1], [F]) && second == Change("b", 1, t[1], t[2], [F, G])
    requires s == State([], [first, second], {}) && Backed(s, blobs)
    ensures History(t, Active(s)) && ChosenRecords(s, "run") == [second, first]
    ensures Conflicts(ComposeFinalRoots(ChosenRecords(s, "run")), t[2]) == []
    ensures RestoreBackwards(blobs, t[2], ChosenRecords(s, "run")) != Some(t[0])
  {
    TwoFilesChange(t, first, second);
    BothActive(first, second);
    FlatWaysStay(t, first, second);
    assert first.createdAt == 2 && second.createdAt == 1 && first.runId == second.runId == "run";
    hide TwoFiles, Change, History, Backed, Covered, Rows, WaysStay, Kept, ByTime, Select, Same;
    hide RestoreBackwards, Conflicts, ComposeFinalRoots;
    TwoSwapped(s, t, first, second, "run", blobs);
    WhereBothReach(first, second);
  }

  lemma {:induction false} BothActive(first: Record, second: Record)
    ensures ActiveAmong([first, second], {}) == [first, second]
  {
    assert [first, second][..1] == [first] && [first][..0] == [];
    assert ActiveAmong([first], {}) == [first];
  }

  /** Nothing lies above these roots but the workspace itself. */
  lemma {:induction false} FlatWaysStay(t: seq<Tree>, first: Record, second: Record)
    requires |t| == 3 && RootsOf(first) == [F] && RootsOf(second) == [F, G]
    ensures WaysStay(Rows(t, [first, second], [second, first]))
  {
    RowsOfTwo(t, first, second);
    var rows := Rows(t, [first, second], [second, first]);
    forall i, j, a | 0 <= i < 2 && 0 <= j < 2 && AboveRoot(rows[j], a) ensures !Touches(rows[i], a) {
      assert a == [];
    }
  }

  lemma {:induction false} WhereBothReach(first: Record, second: Record)
    requires RootsOf(first) == [F] && RootsOf(second) == [F, G]
    ensures InBoth(first, second, F) && forall q :: InBoth(first, second, q) ==> F <= q
  {
    assert [F][0] == F && [F, G][0] == F;
  }
}
