/** The mutation service: snapshots, records, recovery and undo, as an object over the workspace and its journal. */
module MutationService {
  import opened Paths
  import opened FileTree
  import opened Snapshots
  import opened BlobStore
  import opened MutationJournal
  import opened CrashRecovery
  import opened UndoHistory
  import opened Composition
  import opened SnapshotOrder
  import opened Wrappers

  // ---- Undo, as the code runs it ----

  function RestoreBackwards(blobs: Blobs, t: Tree, records: seq<Record>): Option<Tree>
    decreases |records|
  {
    if records == [] then Some(t) else
      var n := |records| - 1;
      var next :- RestoreStored(blobs, t, records[n].pre);
      RestoreBackwards(blobs, next, records[..n])
  }

  predicate AllRecordsWhole(blobs: Blobs, records: seq<Record>) {
    forall r :: r in records ==> AllWhole(blobs, r.pre)
  }

  /** Restoring the chosen records in reverse is undoing the selection within the list, where the store is whole. */
  lemma {:induction false} BackwardsOverSelection(blobs: Blobs, t: Tree, records: seq<Record>, sel: seq<bool>)
    requires |sel| == |records| && AllRecordsWhole(blobs, Kept(records, sel, true))
    ensures RestoreBackwards(blobs, t, Kept(records, sel, true)) == UndoSelected(t, records, sel)
    decreases |records|
  {
    if records != [] {
      var n := |records| - 1;
      var kept := Kept(records[..n], sel[..n], true);
      if sel[n] {
        assert (kept + [records[n]])[..|kept|] == kept;
        assert records[n] in kept + [records[n]];
        WholeIsReadable(blobs, records[n].pre);
        var next := RestoreRoots(t, records[n].pre);
        if next.Some? { BackwardsOverSelection(blobs, next.value, records[..n], sel[..n]); }
      } else {
        assert Kept(records, sel, true) == kept;
        BackwardsOverSelection(blobs, t, records[..n], sel[..n]);
      }
    }
  }

  /** By run or transaction id, or the latest one. */
  function Select(active: seq<Record>, target: string): (sel: seq<bool>)
    ensures |sel| == |active|
  {
    seq(|active|, i requires 0 <= i < |active| =>
      if target != "" then active[i].runId == target || active[i].id == target else i == |active| - 1)
  }

  function Ids(records: seq<Record>): seq<Id> {
    if records == [] then [] else Ids(records[..|records| - 1]) + [records[|records| - 1].id]
  }

  /** The roots an undo rewrites, in the order it does. */
  function RestoredPaths(records: seq<Record>): seq<Path> {
    if records == [] then [] else
      var n := |records| - 1;
      PathsOf(records[n].pre) + RestoredPaths(records[..n])
  }

  function MarkAllUndone(s: State, records: seq<Record>): State {
    s.(inactive := s.inactive + set r | r in records :: r.id)
  }

  datatype Outcome = Returns(tree: Tree) | Throws(tree: Tree, message: string)

  datatype UndoError =
    | NothingReversible
    | Conflict(paths: seq<Path>)
    | RestoreFailed

  datatype UndoResult = UndoResult(transactions: seq<Id>, files: seq<Path>)

  /** The line that settles a prepared mutation; none when the rollback itself is stopped. */
  ghost function SettleLines(m: Prepared, outcome: Outcome, blobs: Blobs): seq<Event> {
    if outcome.Returns? then
      var post := CaptureAll(outcome.tree, PathsOf(m.pre));
      [if m.pre == post then RolledBackEvent(m.id, "no-change") else CommittedEvent(m.id, post)]
    else if RestoreStored(blobs, outcome.tree, m.pre).Some? then [RolledBackEvent(m.id, outcome.message)]
    else []
  }

  /** The workspace afterwards; None when the rollback itself is stopped. */
  function TreeAfter(m: Prepared, outcome: Outcome, blobs: Blobs): Option<Tree> {
    if outcome.Returns? then Some(outcome.tree) else RestoreStored(blobs, outcome.tree, m.pre)
  }

  function ApplyAll(s: State, lines: seq<Event>): State
    decreases |lines|
  {
    if lines == [] then s else ApplyAll(Apply(s, lines[0]), lines[1..])
  }

  /** Every pre-image a rollback or an undo may need is whole in the store. */
  predicate Backed(s: State, blobs: Blobs) {
    && (forall m :: m in s.prepared ==> AllWhole(blobs, m.pre))
    && AllRecordsWhole(blobs, s.committed)
  }

  lemma {:induction false} LinesKeepBacking(s: State, e: Event, blobs: Blobs)
    requires Backed(s, blobs) && (e.PreparedEvent? ==> AllWhole(blobs, e.mutation.pre))
    ensures Backed(Apply(s, e), blobs)
  {
    hide AllWhole;
    match e {
      case PreparedEvent(m) => forall x ensures x in PutPrepared(s.prepared, m) ==> x in s.prepared || x == m {
        PutHolds(s.prepared, m, x);
      }
      case CommittedEvent(id, post) =>
        var found := FindPrepared(s.prepared, id);
        if found.Some? {
          var r := ToRecord(found.value, post);
          assert AllWhole(blobs, r.pre);
          forall x ensures x in PutRecord(s.committed, r) ==> x in s.committed || x == r {
            PutRecordHolds(s.committed, r, x);
          }
          forall x ensures x in DropPrepared(s.prepared, id) ==> x in s.prepared { DropHolds(s.prepared, id, x); }
        }
      case RolledBackEvent(id, _) =>
        forall x ensures x in DropPrepared(s.prepared, id) ==> x in s.prepared { DropHolds(s.prepared, id, x); }
      case UndoneEvent(_) =>
    }
  }

  lemma {:induction false} PutHolds(s: seq<Prepared>, m: Prepared, x: Prepared)
    ensures x in PutPrepared(s, m) ==> x in s || x == m
  {
    if s != [] { PutHolds(s[1..], m, x); }
  }

  lemma {:induction false} PutRecordHolds(s: seq<Record>, r: Record, x: Record)
    ensures x in PutRecord(s, r) ==> x in s || x == r
  {
    if s != [] { PutRecordHolds(s[1..], r, x); }
  }

  lemma {:induction false} DropHolds(s: seq<Prepared>, id: Id, x: Prepared)
    ensures x in DropPrepared(s, id) ==> x in s
  {
    if s != [] { DropHolds(s[1..], id, x); }
  }

  /** Nothing stored later, whole or torn, takes that away. */
  lemma {:induction false} StoringKeepsBacking(s: State, was: Blobs, now: Blobs)
    requires Backed(s, was) && Extends(was, now)
    ensures Backed(s, now)
  {
    forall snaps: seq<RootSnapshot> | AllWhole(was, snaps) ensures AllWhole(now, snaps) {
      WholeIsReadable(was, snaps);
      StoringKeepsReading(was, now, snaps);
    }
  }

  function UndoneLines(ids: seq<Id>): (r: seq<Event>)
    ensures |r| == |ids| && forall i :: 0 <= i < |r| ==> r[i] == UndoneEvent(ids[i])
  {
    seq(|ids|, i requires 0 <= i < |ids| => UndoneEvent(ids[i]))
  }

  class Service {
    const journal: Journal
    var tree: Tree
    var blobs: Blobs

    /** Every pre-image on record can be restored as it was. */
    predicate Valid()
      reads this, journal
    {
      Backed(journal.Live(), blobs)
    }

    /** Replays the journal, then rolls back what a crash left incomplete; throws where that is stopped. */
    constructor (workspace: Tree, onDisk: JournalFile, stored: Blobs)
      ensures fresh(journal) && blobs == stored
      ensures Backed(Replay(onDisk.lines), stored) ==> Valid()
      ensures var r := Recover(Disk(workspace, onDisk, stored));
              r.Some? ==> r == Some(Disk(tree, journal.file, stored)) && journal.prepared == []
      ensures onDisk.tail.Whole? ==> journal.InStep() && journal.file.tail.Whole?
    {
      journal := new Journal(onDisk);
      tree, blobs := workspace, stored;
      new;
      RecoverIncomplete();
    }

    method RecoverIncomplete()
      requires journal.InStep()
      modifies this`tree, journal
      ensures old(Valid()) ==> Valid()
      ensures var r := Recover(Disk(old(tree), old(journal.file), blobs));
              r.Some? ==> r == Some(Disk(tree, journal.file, blobs)) && journal.prepared == []
      ensures old(journal.file).tail.Whole? ==> journal.InStep() && journal.file.tail.Whole?
    {
      var incomplete := journal.prepared;
      ghost var start := Disk(tree, journal.file, blobs);
      assert incomplete == Incomplete(start);
      hide Recovering, Recover, Incomplete, Service.Valid, Journal.InStep;
      RecoveryStarts(start);
      var n := 0;
      while n < |incomplete|
        invariant n <= |incomplete| && Recovering(start, Disk(tree, journal.file, blobs), journal.prepared, incomplete, n)
        invariant old(Valid()) ==> Valid()
        invariant old(journal.file).tail.Whole? ==> journal.InStep() && journal.file.tail.Whole?
      {
        RecoveryAdvances(start, Disk(tree, journal.file, blobs), journal.prepared, incomplete, n);
        var ok := RollBackOne(incomplete[n]);
        if !ok {
          return;
        }
        n := n + 1;
      }
      RecoveryEnds(start, Disk(tree, journal.file, blobs), journal.prepared, incomplete);
    }

    method RollBackOne(m: Prepared) returns (ok: bool)
      modifies this`tree, journal
      ensures old(Valid()) ==> Valid()
      ensures ok <==> RestoreStored(blobs, old(tree), m.pre).Some?
      ensures ok ==> Disk(tree, journal.file, blobs) == RolledBackOnce(Disk(old(tree), old(journal.file), blobs), m)
      ensures ok ==> journal.prepared == DropPrepared(old(journal.prepared), m.id)
      ensures old(journal.InStep()) && old(journal.file).tail.Whole? ==> journal.InStep() && journal.file.tail.Whole?
    {
      ok := RestoreRoots(m.pre);
      if ok {
        if old(Valid()) { LinesKeepBacking(journal.Live(), RolledBackEvent(m.id, "recovered-incomplete"), blobs); }
        journal.AppendRolledBack(m.id, "recovered-incomplete");
      }
    }

    method MakeDirectoriesOf(entries: seq<Entry>) returns (ok: bool)
      modifies this`tree
      ensures ok <==> MakeDirectories(old(tree), entries).Some?
      ensures ok ==> Some(tree) == MakeDirectories(old(tree), entries)
    {
      var i := 0;
      assert entries[0..] == entries;
      while i < |entries|
        invariant 0 <= i <= |entries|
        invariant MakeDirectories(tree, entries[i..]) == MakeDirectories(old(tree), entries)
      {
        assert entries[i..][0] == entries[i] && entries[i..][1..] == entries[i + 1..];
        if entries[i].node.Directory? {
          var made := MakeDirectory(tree, entries[i].path);
          if made.None? {
            return false;
          }
          tree := made.value;
        }
        i := i + 1;
      }
      assert entries[i..] == [];
      ok := true;
    }

    method WriteLeavesOf(entries: seq<Entry>) returns (ok: bool)
      modifies this`tree
      ensures ok <==> Readable(blobs, entries) && WriteLeaves(old(tree), LoadEntries(blobs, entries)).Some?
      ensures ok ==> Some(tree) == WriteLeaves(old(tree), LoadEntries(blobs, entries))
    {
      ghost var all := LoadEntries(blobs, entries);
      var i := 0;
      assert all[0..] == all;
      while i < |entries|
        invariant 0 <= i <= |entries|
        invariant WriteLeaves(tree, all[i..]) == WriteLeaves(old(tree), all)
        invariant forall k :: 0 <= k < i && entries[k].node.File? ==> entries[k].node.content in blobs
      {
        assert all[i..][0] == all[i] && all[i..][1..] == all[i + 1..];
        if entries[i].node.File? && entries[i].node.content !in blobs {
          assert entries[i] in entries;
          return false;
        }
        var node := Load(blobs, entries[i].node);
        if !node.Directory? {
          var written := WriteLeaf(tree, entries[i].path, node);
          if written.None? {
            return false;
          }
          tree := written.value;
        }
        i := i + 1;
      }
      assert all[i..] == [];
      ok := true;
    }

    /** Fails exactly where the file system or a missing blob stops it. */
    method RestoreRoot(root: Path, entries: seq<Entry>) returns (ok: bool)
      modifies this`tree
      ensures ok <==> Readable(blobs, entries) && FileTree.RestoreRoot(old(tree), root, LoadEntries(blobs, entries)).Some?
      ensures ok ==> Some(tree) == FileTree.RestoreRoot(old(tree), root, LoadEntries(blobs, entries))
    {
      tree := Remove(tree, root);
      LoadKeepsDirectories(blobs, tree, entries);
      ok := MakeDirectoriesOf(entries);
      if ok {
        ok := WriteLeavesOf(entries);
      }
    }

    method RestoreRoots(snaps: seq<RootSnapshot>) returns (ok: bool)
      modifies this`tree
      ensures ok <==> RestoreStored(blobs, old(tree), snaps).Some?
      ensures ok ==> Some(tree) == RestoreStored(blobs, old(tree), snaps)
    {
      ghost var all := LoadSnapshots(blobs, snaps);
      var i := 0;
      assert all[0..] == all;
      while i < |snaps|
        invariant 0 <= i <= |snaps|
        invariant forall k :: 0 <= k < i ==> Readable(blobs, snaps[k].entries)
        invariant Snapshots.RestoreRoots(tree, all[i..]) == Snapshots.RestoreRoots(old(tree), all)
      {
        RestoreStep(tree, all, i);
        var done := RestoreRoot(snaps[i].path, snaps[i].entries);
        if !done {
          return false;
        }
        i := i + 1;
      }
      assert all[i..] == [];
      ok := true;
    }

    /** Depth-first, children in name order; file contents go to the blob store. */
    method CaptureEntry(p: Path) returns (out: seq<Entry>)
      requires p in tree
      modifies this`blobs
      ensures Grew(old(blobs), blobs) && out == Walk(tree, p) && Readable(blobs, out)
      decreases Under(tree, p), 1
    {
      var node := tree[p];
      var below: seq<Entry> := [];
      if node.Directory? {
        var children := ListSorted(p);
        below := CaptureEntries(p, children);
      } else if node.File? && node.content !in blobs {
        blobs := blobs[node.content := node.content];
      }
      out := [Entry(p, node)] + below;
    }

    method CaptureEntries(p: Path, names: seq<Name>) returns (out: seq<Entry>)
      requires p in tree && forall n :: n in names ==> p + [n] in tree
      modifies this`blobs
      ensures Grew(old(blobs), blobs) && out == WalkAll(tree, p, names) && Readable(blobs, out)
      decreases Under(tree, p), 0
    {
      out := [];
      ghost var total := WalkAll(tree, p, names);
      var i := 0;
      assert names[0..] == names;
      while i < |names|
        invariant 0 <= i <= |names| && Grew(old(blobs), blobs) && Readable(blobs, out)
        invariant out + WalkAll(tree, p, names[i..]) == total
      {
        WalkAllStep(tree, p, names, i);
        var part := CaptureEntry(p + [names[i]]);
        JoinStep(out, part, WalkAll(tree, p, names[i + 1..]), total);
        out := out + part;
        i := i + 1;
      }
      assert names[i..] == [];
    }

    /** The directory listing, sorted. */
    method ListSorted(p: Path) returns (r: seq<Name>)
      ensures r == Sorted(ChildNames(tree, p))
    {
      var rest := set q | q in tree && |q| == |p| + 1 && p <= q :: q[|p|];
      assert forall n :: p + [n] in tree ==> (p + [n])[|p|] in rest;
      assert forall q :: q in tree && |q| == |p| + 1 && p <= q ==> q == p + [q[|p|]];
      assert rest == ChildNames(tree, p);
      r := SortNames(rest);
    }

    method CaptureRoot(p: Path) returns (r: RootSnapshot)
      modifies this`blobs
      ensures r == RootSnapshot(p, Capture(tree, p)) && Grew(old(blobs), blobs) && Readable(blobs, r.entries)
    {
      var entries := [];
      if p in tree {
        entries := CaptureEntry(p);
      }
      r := RootSnapshot(p, entries);
    }

    method CaptureRoots(roots: seq<Path>) returns (r: seq<RootSnapshot>)
      modifies this`blobs
      ensures r == CaptureAll(tree, roots) && Grew(old(blobs), blobs) && AllReadable(blobs, r)
    {
      r := [];
      var i := 0;
      while i < |roots|
        invariant 0 <= i <= |roots| && |r| == i && Grew(old(blobs), blobs) && AllReadable(blobs, r)
        invariant forall k :: 0 <= k < i ==> r[k] == RootSnapshot(roots[k], Capture(tree, roots[k]))
      {
        var snap := CaptureRoot(roots[i]);
        r := r + [snap];
        i := i + 1;
      }
    }

    /**
     * Snapshots, prepared line, action, then the committed line, or a rollback: of nothing when nothing
     * changed, of every root when the action threw. What it recorded can be restored as it was exactly if no torn
     * blob had taken the name of a recorded content.
     */
    method Record(id: Id, runId: string, createdAt: int, paths: seq<Path>, outcome: Outcome)
      returns (r: Result<bool, string>, ghost m: Prepared)
      modifies this, journal
      ensures Grew(old(blobs), blobs) && AllReadable(blobs, m.pre)
      ensures AllWhole(blobs, m.pre) <==> Storable(old(blobs), m.pre)
      ensures old(Valid()) && Storable(old(blobs), m.pre) ==> Valid()
      ensures m == Prepared(id, runId, createdAt, CaptureAll(old(tree), Distinct(paths)))
      ensures outcome.Returns? ==> r == Success(CaptureAll(outcome.tree, Distinct(paths)) != m.pre)
      ensures outcome.Throws? ==> r.Failure? && (TreeAfter(m, outcome, blobs).Some? ==> r.error == outcome.message)
      ensures TreeAfter(m, outcome, blobs).Some? ==> TreeAfter(m, outcome, blobs) == Some(tree)
      ensures journal.Live() == ApplyAll(Apply(old(journal.Live()), PreparedEvent(m)), SettleLines(m, outcome, blobs))
      ensures journal.file == AppendAll(old(journal.file).Append(PreparedEvent(m)), SettleLines(m, outcome, blobs))
      ensures old(journal.InStep()) && old(journal.file).tail.Whole? ==> journal.InStep() && journal.file.tail.Whole?
    {
      hide Backed, AllReadable, AllWhole, Storable, SettleLines, TreeAfter, CaptureAll, ApplyAll, AppendAll, FindPrepared, Grew;
      var mutation := Prepare(id, runId, createdAt, paths);
      m := mutation;
      tree := outcome.tree;
      ghost var stored := blobs;
      r := Settle(mutation, outcome);
      GrewFurther(old(blobs), stored, blobs);
      StoringKeepsReading(stored, blobs, m.pre);
      CapturedAreWhole(old(blobs), blobs, m.pre);
    }

    method Prepare(id: Id, runId: string, createdAt: int, paths: seq<Path>) returns (m: Prepared)
      modifies this`blobs, journal
      ensures Grew(old(blobs), blobs) && AllReadable(blobs, m.pre)
      ensures old(Valid()) && Storable(old(blobs), m.pre) ==> Valid()
      ensures m == Prepared(id, runId, createdAt, CaptureAll(tree, Distinct(paths)))
      ensures FindPrepared(journal.prepared, id) == Some(m)
      ensures journal.Live() == Apply(old(journal.Live()), PreparedEvent(m))
      ensures journal.file == old(journal.file).Append(PreparedEvent(m))
      ensures old(journal.InStep()) && old(journal.file).tail.Whole? ==> journal.InStep()
    {
      var pre := CaptureRoots(Distinct(paths));
      m := Prepared(id, runId, createdAt, pre);
      CapturedAreWhole(old(blobs), blobs, pre);
      if old(Valid()) && Storable(old(blobs), pre) {
        StoringKeepsBacking(journal.Live(), old(blobs), blobs);
        LinesKeepBacking(journal.Live(), PreparedEvent(m), blobs);
      }
      PutThenFind(journal.prepared, m);
      journal.AppendPrepared(m);
    }

    method Settle(m: Prepared, outcome: Outcome) returns (r: Result<bool, string>)
      requires AllReadable(blobs, m.pre) && FindPrepared(journal.prepared, m.id) == Some(m)
      requires tree == outcome.tree
      modifies this, journal
      ensures Grew(old(blobs), blobs) && (old(Valid()) ==> Valid())
      ensures outcome.Returns? ==> r == Success(CaptureAll(outcome.tree, PathsOf(m.pre)) != m.pre)
      ensures outcome.Throws? ==> r.Failure? && (TreeAfter(m, outcome, blobs).Some? ==> r.error == outcome.message)
      ensures TreeAfter(m, outcome, blobs).Some? ==> TreeAfter(m, outcome, blobs) == Some(tree)
      ensures journal.Live() == ApplyAll(old(journal.Live()), SettleLines(m, outcome, blobs))
      ensures journal.file == AppendAll(old(journal.file), SettleLines(m, outcome, blobs))
      ensures old(journal.InStep()) && old(journal.file).tail.Whole? ==> journal.InStep() && journal.file.tail.Whole?
    {
      SettlingOnce(journal.Live(), journal.file);
      if outcome.Returns? {
        var changed := SettleReturned(m, PathsOf(m.pre));
        r := Success(changed);
      } else {
        var ok := SettleThrown(m, outcome.message);
        r := Failure(if ok then outcome.message else "restore failed");
      }
    }

    method SettleReturned(m: Prepared, roots: seq<Path>) returns (changed: bool)
      requires FindPrepared(journal.prepared, m.id) == Some(m)
      modifies this`blobs, journal
      ensures Grew(old(blobs), blobs) && (old(Valid()) ==> Valid()) && changed == (m.pre != CaptureAll(tree, roots))
      ensures var e := if changed then CommittedEvent(m.id, CaptureAll(tree, roots)) else RolledBackEvent(m.id, "no-change");
              journal.Live() == Apply(old(journal.Live()), e) && journal.file == old(journal.file).Append(e)
      ensures old(journal.InStep()) && old(journal.file).tail.Whole? ==> journal.InStep()
    {
      var post := CaptureRoots(roots);
      changed := m.pre != post;
      ghost var e := if changed then CommittedEvent(m.id, post) else RolledBackEvent(m.id, "no-change");
      if old(Valid()) {
        StoringKeepsBacking(journal.Live(), old(blobs), blobs);
        LinesKeepBacking(journal.Live(), e, blobs);
      }
      if changed {
        var committed := journal.AppendCommitted(m.id, post);
      } else {
        journal.AppendRolledBack(m.id, "no-change");
      }
    }

    method SettleThrown(m: Prepared, message: string) returns (ok: bool)
      modifies this`tree, journal
      ensures old(Valid()) ==> Valid()
      ensures ok <==> RestoreStored(blobs, old(tree), m.pre).Some?
      ensures ok ==> Some(tree) == RestoreStored(blobs, old(tree), m.pre)
      ensures var e := RolledBackEvent(m.id, message);
              if ok then journal.Live() == Apply(old(journal.Live()), e) && journal.file == old(journal.file).Append(e)
              else journal.Live() == old(journal.Live()) && journal.file == old(journal.file)
      ensures old(journal.InStep()) && old(journal.file).tail.Whole? ==> journal.InStep() && journal.file.tail.Whole?
    {
      ok := RestoreRoots(m.pre);
      if ok {
        if old(Valid()) { LinesKeepBacking(journal.Live(), RolledBackEvent(m.id, message), blobs); }
        journal.AppendRolledBack(m.id, message);
      }
    }

    /** Captures each expected root afresh and lists those that differ. */
    method FindConflicts(expected: seq<RootSnapshot>) returns (paths: seq<Path>)
      modifies this`blobs
      ensures paths == Conflicts(expected, tree) && Grew(old(blobs), blobs)
    {
      paths := [];
      var i := 0;
      while i < |expected|
        invariant 0 <= i <= |expected| && Grew(old(blobs), blobs)
        invariant paths == Conflicts(expected[..i], tree)
      {
        var now := CaptureRoot(expected[i].path);
        assert expected[..i + 1][..i] == expected[..i];
        if now.entries != expected[i].entries {
          paths := paths + [expected[i].path];
        }
        i := i + 1;
      }
      assert expected[..i] == expected;
    }

    method UndoOne(record: Record) returns (ok: bool)
      modifies this`tree, journal
      ensures old(Valid()) ==> Valid()
      ensures ok <==> RestoreStored(blobs, old(tree), record.pre).Some?
      ensures ok ==> Some(tree) == RestoreStored(blobs, old(tree), record.pre)
      ensures ok ==> journal.Live() == Apply(old(journal.Live()), UndoneEvent(record.id))
      ensures ok ==> journal.file == old(journal.file).Append(UndoneEvent(record.id))
      ensures old(journal.InStep()) && old(journal.file).tail.Whole? ==> journal.InStep() && journal.file.tail.Whole?
    {
      ok := RestoreRoots(record.pre);
      if ok {
        if old(Valid()) { LinesKeepBacking(journal.Live(), UndoneEvent(record.id), blobs); }
        journal.AppendUndone(record.id);
      }
    }

    /** Restores pre-images latest first, marking each record undone. */
    method RestorePreImages(chosen: seq<Record>) returns (ok: bool, done: seq<Id>, restored: seq<Path>)
      modifies this`tree, journal
      ensures old(Valid()) ==> Valid()
      ensures ok <==> RestoreBackwards(blobs, old(tree), chosen).Some?
      ensures ok ==> Some(tree) == RestoreBackwards(blobs, old(tree), chosen)
      ensures ok ==> journal.Live() == MarkAllUndone(old(journal.Live()), chosen) && done == Reversed(Ids(chosen))
      ensures ok ==> journal.file == AppendAll(old(journal.file), UndoneLines(done))
      ensures ok ==> restored == RestoredPaths(chosen)
      ensures old(journal.InStep()) && old(journal.file).tail.Whole? ==> journal.InStep() && journal.file.tail.Whole?
    {
      restored, done := [], [];
      var n := |chosen|;
      ghost var s0 := journal.Live();
      assert chosen[..n] == chosen && chosen[n..] == [];
      while n > 0
        invariant 0 <= n <= |chosen| && unchanged(`blobs) && (old(Valid()) ==> Valid())
        invariant RestoreBackwards(blobs, tree, chosen[..n]) == RestoreBackwards(blobs, old(tree), chosen)
        invariant journal.Live() == MarkAllUndone(s0, chosen[n..])
        invariant done == Reversed(Ids(chosen[n..])) && journal.file == AppendAll(old(journal.file), UndoneLines(done))
        invariant restored + RestoredPaths(chosen[..n]) == RestoredPaths(chosen)
        invariant old(journal.InStep()) && old(journal.file).tail.Whole? ==> journal.InStep() && journal.file.tail.Whole?
      {
        n := n - 1;
        BackwardsStep(blobs, tree, chosen, n);
        UndoneStep(s0, chosen, n);
        var worked := UndoOne(chosen[n]);
        if !worked {
          return false, done, restored;
        }
        JoinStep(restored, PathsOf(chosen[n].pre), RestoredPaths(chosen[..n]), RestoredPaths(chosen));
        restored := restored + PathsOf(chosen[n].pre);
        AppendUndoneLine(old(journal.file), done, chosen[n].id);
        done := done + [chosen[n].id];
      }
      assert chosen[0..] == chosen && chosen[..0] == [];
      ok := true;
    }

    /**
     * Refuses on a conflict; otherwise restores pre-images latest first, marking each record undone. With every
     * recorded pre-image whole that is undoing the selection.
     */
    method Undo(target: string) returns (r: Result<UndoResult, UndoError>)
      modifies this, journal
      ensures Grew(old(blobs), blobs) && (old(Valid()) ==> Valid())
      ensures var active := ByTime(Active(old(journal.Live())));
              var chosen := Kept(active, Select(active, target), true);
              var conflicts := Conflicts(ComposeFinalRoots(chosen), old(tree));
              var back := RestoreBackwards(blobs, old(tree), chosen);
              && (chosen == [] <==> r == Failure(NothingReversible))
              && (chosen != [] && conflicts != [] <==> r == Failure(Conflict(conflicts)))
              && (r.Failure? && r.error != RestoreFailed ==>
                    tree == old(tree) && journal.Live() == old(journal.Live()) && journal.file == old(journal.file))
              && (r.Success? <==> chosen != [] && conflicts == [] && back.Some?)
              && (r.Success? ==>
                    && tree == back.value
                    && journal.Live() == MarkAllUndone(old(journal.Live()), chosen)
                    && journal.file == AppendAll(old(journal.file), UndoneLines(Reversed(Ids(chosen))))
                    && r.value == UndoResult(Reversed(Ids(chosen)), Distinct(RestoredPaths(chosen))))
              && (old(Valid()) ==> back == UndoSelected(old(tree), active, Select(active, target)))
      ensures old(journal.InStep()) && old(journal.file).tail.Whole? ==> journal.InStep() && journal.file.tail.Whole?
    {
      var active := journal.ListActive();
      var chosen := Kept(active, Select(active, target), true);
      if old(Valid()) { ChosenAreWhole(journal.Live(), blobs, target, tree); }
      if chosen == [] {
        return Failure(NothingReversible);
      }
      var expected := ComposeRoots(chosen);
      var conflicts := FindConflicts(expected);
      if old(Valid()) {
        StoringKeepsBacking(journal.Live(), old(blobs), blobs);
        ChosenAreWhole(journal.Live(), blobs, target, tree);
      }
      if conflicts != [] {
        return Failure(Conflict(conflicts));
      }
      var ok, done, restored := RestorePreImages(chosen);
      r := if ok then Success(UndoResult(done, Distinct(restored))) else Failure(RestoreFailed);
    }
  }

  lemma {:induction false} ChosenAreWhole(s: State, blobs: Blobs, target: string, t: Tree)
    requires Backed(s, blobs)
    ensures var active := ByTime(Active(s));
            var sel := Select(active, target);
            && AllRecordsWhole(blobs, Kept(active, sel, true))
            && RestoreBackwards(blobs, t, Kept(active, sel, true)) == UndoSelected(t, active, sel)
  {
    var active := ByTime(Active(s));
    var sel := Select(active, target);
    forall r | r in Kept(active, sel, true) ensures AllWhole(blobs, r.pre) {
      KeptAreRecords(active, sel, true, r);
      ListingHolds(s, r);
    }
    BackwardsOverSelection(blobs, t, active, sel);
  }

  function RolledBackOnce(d: Disk, m: Prepared): Disk
    requires RestoreStored(d.blobs, d.tree, m.pre).Some?
  {
    Disk(RestoreStored(d.blobs, d.tree, m.pre).value, d.file.Append(RolledBackEvent(m.id, "recovered-incomplete")), d.blobs)
  }

  /** `n` of the incomplete mutations are rolled back; going on from here ends where recovery ends. */
  predicate Recovering(start: Disk, d: Disk, prepared: seq<Prepared>, incomplete: seq<Prepared>, n: nat) {
    n <= |incomplete| && RollBackAll(d, incomplete[n..]) == Recover(start) && StillToDo(prepared, incomplete, n)
  }

  lemma {:induction false} RecoveryStarts(start: Disk)
    ensures Recovering(start, start, Incomplete(start), Incomplete(start), 0)
  {
    assert Incomplete(start)[0..] == Incomplete(start);
    AllToDo(Incomplete(start));
  }

  lemma {:induction false} RecoveryAdvances(start: Disk, d: Disk, prepared: seq<Prepared>, incomplete: seq<Prepared>, n: nat)
    requires n < |incomplete| && Recovering(start, d, prepared, incomplete, n)
    ensures var m := incomplete[n];
            if RestoreStored(d.blobs, d.tree, m.pre).None? then Recover(start).None?
            else Recovering(start, RolledBackOnce(d, m), DropPrepared(prepared, m.id), incomplete, n + 1)
  {
    assert incomplete[n..][0] == incomplete[n] && incomplete[n..][1..] == incomplete[n + 1..];
    OneLessToDo(prepared, incomplete, n);
  }

  lemma {:induction false} RecoveryEnds(start: Disk, d: Disk, prepared: seq<Prepared>, incomplete: seq<Prepared>)
    requires Recovering(start, d, prepared, incomplete, |incomplete|)
    ensures Recover(start) == Some(d) && prepared == []
  {
    assert incomplete[|incomplete|..] == [];
    NothingToDo(prepared, incomplete);
  }

  /** What is prepared is among those from `n` on. */
  predicate StillToDo(prepared: seq<Prepared>, incomplete: seq<Prepared>, n: nat) {
    forall m :: m in prepared ==> exists k :: n <= k < |incomplete| && incomplete[k].id == m.id
  }

  lemma {:induction false} AllToDo(incomplete: seq<Prepared>)
    ensures StillToDo(incomplete, incomplete, 0)
  {
    forall m | m in incomplete ensures exists k :: 0 <= k < |incomplete| && incomplete[k].id == m.id {
      var k :| 0 <= k < |incomplete| && incomplete[k] == m;
      assert incomplete[k].id == m.id;
    }
  }

  lemma {:induction false} OneLessToDo(prepared: seq<Prepared>, incomplete: seq<Prepared>, n: nat)
    requires n < |incomplete| && StillToDo(prepared, incomplete, n)
    ensures StillToDo(DropPrepared(prepared, incomplete[n].id), incomplete, n + 1)
  {
    var id := incomplete[n].id;
    forall m | m in DropPrepared(prepared, id) ensures exists k :: n + 1 <= k < |incomplete| && incomplete[k].id == m.id {
      DropHolds(prepared, id, m);
      DropDrops(prepared, id, m);
      var k :| n <= k < |incomplete| && incomplete[k].id == m.id;
      assert k > n;
    }
  }

  lemma {:induction false} NothingToDo(prepared: seq<Prepared>, incomplete: seq<Prepared>)
    requires StillToDo(prepared, incomplete, |incomplete|)
    ensures prepared == []
  {
    var m := if prepared == [] then Prepared("", "", 0, []) else prepared[0];
    assert m !in prepared;
  }

  lemma {:induction false} DropDrops(s: seq<Prepared>, id: Id, x: Prepared)
    requires x in DropPrepared(s, id)
    ensures x.id != id
  {
    if s[0].id == id || x != s[0] { DropDrops(s[1..], id, x); }
  }

  /** At most one line settles a mutation. */
  lemma {:induction false} SettlingOnce(s: State, file: JournalFile)
    ensures forall e :: ApplyAll(s, [e]) == Apply(s, e) && AppendAll(file, [e]) == file.Append(e)
    ensures ApplyAll(s, []) == s && AppendAll(file, []) == file
  {
    forall e ensures ApplyAll(s, [e]) == Apply(s, e) && AppendAll(file, [e]) == file.Append(e) {
      assert [e][1..] == [] && [e][..0] == [];
      assert ApplyAll(Apply(s, e), []) == Apply(s, e) && AppendAll(file, []) == file;
    }
  }

  lemma {:induction false} AppendUndoneLine(file: JournalFile, done: seq<Id>, id: Id)
    ensures AppendAll(file, UndoneLines(done + [id])) == AppendAll(file, UndoneLines(done)).Append(UndoneEvent(id))
  {
    AppendOneMore(file, UndoneLines(done), UndoneEvent(id));
    assert UndoneLines(done + [id]) == UndoneLines(done) + [UndoneEvent(id)];
  }

  function Reversed<T>(s: seq<T>): seq<T> {
    if s == [] then [] else Reversed(s[1..]) + [s[0]]
  }

  lemma {:induction false} BackwardsStep(blobs: Blobs, t: Tree, records: seq<Record>, k: nat)
    requires k < |records|
    ensures RestoreBackwards(blobs, t, records[..k + 1]) ==
            var next := RestoreStored(blobs, t, records[k].pre);
            if next.None? then None else RestoreBackwards(blobs, next.value, records[..k])
    ensures RestoredPaths(records[..k + 1]) == PathsOf(records[k].pre) + RestoredPaths(records[..k])
  {
    assert records[..k + 1][..k] == records[..k];
  }

  lemma {:induction false} UndoneStep(s: State, records: seq<Record>, k: nat)
    requires k < |records|
    ensures Apply(MarkAllUndone(s, records[k + 1..]), UndoneEvent(records[k].id)) == MarkAllUndone(s, records[k..])
    ensures Reversed(Ids(records[k..])) == Reversed(Ids(records[k + 1..])) + [records[k].id]
  {
    var r, later := records[k], records[k + 1..];
    assert records[k..] == [r] + later;
    IdsCons(r, later);
    assert (set x | x in [r] + later :: x.id) == (set x | x in later :: x.id) + {r.id};
  }

  lemma {:induction false} IdsCons(r: Record, later: seq<Record>)
    ensures Ids([r] + later) == [r.id] + Ids(later)
  {
    if later != [] {
      var n := |later| - 1;
      IdsCons(r, later[..n]);
      assert ([r] + later)[..n + 1] == [r] + later[..n];
    }
  }

  lemma {:induction false} LoadKeepsDirectories(blobs: Blobs, t: Tree, es: seq<Entry>)
    ensures MakeDirectories(t, LoadEntries(blobs, es)) == MakeDirectories(t, es)
    decreases |es|
  {
    if es != [] {
      assert LoadEntries(blobs, es)[1..] == LoadEntries(blobs, es[1..]);
      if es[0].node.Directory? {
        var next := MakeDirectory(t, es[0].path);
        if next.Some? { LoadKeepsDirectories(blobs, next.value, es[1..]); }
      } else {
        LoadKeepsDirectories(blobs, t, es[1..]);
      }
    }
  }

  lemma {:induction false} RestoreStep(t: Tree, snaps: seq<RootSnapshot>, i: nat)
    requires i < |snaps|
    ensures Snapshots.RestoreRoots(t, snaps[i..]) ==
            var next := FileTree.RestoreRoot(t, snaps[i].path, snaps[i].entries);
            if next.None? then None else Snapshots.RestoreRoots(next.value, snaps[i + 1..])
  {
    assert snaps[i..][0] == snaps[i] && snaps[i..][1..] == snaps[i + 1..];
  }

  lemma {:induction false} KeptAreRecords(records: seq<Record>, sel: seq<bool>, which: bool, r: Record)
    requires |sel| == |records| && r in Kept(records, sel, which)
    ensures r in records
    decreases |records|
  {
    var n := |records| - 1;
    if r in Kept(records[..n], sel[..n], which) {
      KeptAreRecords(records[..n], sel[..n], which, r);
    }
  }

  lemma {:induction false} PutThenFind(ps: seq<Prepared>, m: Prepared)
    ensures FindPrepared(PutPrepared(ps, m), m.id) == Some(m)
  {
    if ps != [] && ps[0].id != m.id {
      PutThenFind(ps[1..], m);
    }
  }
}
