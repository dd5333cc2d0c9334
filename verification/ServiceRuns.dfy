/** What every record and every undo keeps: the active journal is a history that ends in the live workspace. */
module ServiceRuns {
  import opened Paths
  import opened FileTree
  import opened Snapshots
  import opened BlobStore
  import opened MutationJournal
  import opened CrashRecovery
  import opened UndoHistory
  import opened Composition
  import opened MutationService
  import opened Wrappers

  predicate UniqueIds(rs: seq<Record>) {
    forall i, j :: 0 <= i < j < |rs| ==> rs[i].id != rs[j].id
  }

  /** Nothing is half done, and the active records lead from `trees[0]` to the live workspace. */
  ghost predicate Coherent(s: State, trees: seq<Tree>) {
    && s.prepared == []
    && UniqueIds(s.committed)
    && TimesAscend(Active(s))
    && History(trees, Active(s))
  }

  predicate FreshTo(s: State, m: Prepared) {
    && (forall r :: r in s.committed ==> r.id != m.id && r.createdAt <= m.createdAt)
    && m.id !in s.inactive
  }

  lemma {:induction false} PutFresh(rs: seq<Record>, r: Record)
    requires forall x :: x in rs ==> x.id != r.id
    ensures PutRecord(rs, r) == rs + [r]
  {
    if rs != [] {
      assert rs[0] in rs;
      PutFresh(rs[1..], r);
      assert rs == [rs[0]] + rs[1..];
    }
  }

  lemma {:induction false} ActiveOutlasts(rs: seq<Record>, i: set<Id>, j: set<Id>)
    ensures ActiveAmong(rs, i + j) == ActiveAmong(ActiveAmong(rs, i), j)
    decreases |rs|
  {
    if rs != [] {
      var n := |rs| - 1;
      var before := ActiveAmong(rs[..n], i);
      ActiveOutlasts(rs[..n], i, j);
      if rs[n].id !in i {
        assert (before + [rs[n]])[..|before|] == before;
      } else {
        assert before + [] == before;
      }
    }
  }

  lemma {:induction false} DroppingSelected(rs: seq<Record>, sel: seq<bool>, gone: set<Id>)
    requires |sel| == |rs| && forall i :: 0 <= i < |rs| ==> (rs[i].id in gone <==> sel[i])
    ensures ActiveAmong(rs, gone) == Kept(rs, sel, false)
    decreases |rs|
  {
    if rs != [] {
      DroppingSelected(rs[..|rs| - 1], sel[..|rs| - 1], gone);
    }
  }

  lemma {:induction false} IdsOfSelected(rs: seq<Record>, sel: seq<bool>, k: nat)
    requires |sel| == |rs| && UniqueIds(rs) && k < |rs|
    ensures (exists r :: r in Kept(rs, sel, true) && r.id == rs[k].id) <==> sel[k]
    decreases |rs|
  {
    var n := |rs| - 1;
    var kept := Kept(rs[..n], sel[..n], true);
    forall r | r in kept ensures r in rs[..n] {
      KeptAreRecords(rs[..n], sel[..n], true, r);
    }
    if k < n {
      IdsOfSelected(rs[..n], sel[..n], k);
      assert rs[..n][k] == rs[k];
      if r :| r in kept && r.id == rs[k].id { assert r in Kept(rs, sel, true); }
    } else {
      assert forall r :: r in kept ==> r.id != rs[n].id;
      if sel[n] { assert rs[n] in Kept(rs, sel, true); }
    }
  }

  lemma {:induction false} ActiveKeepsOrder(rs: seq<Record>, inactive: set<Id>)
    requires UniqueIds(rs)
    ensures UniqueIds(ActiveAmong(rs, inactive))
    ensures forall r :: r in ActiveAmong(rs, inactive) ==> r in rs
    decreases |rs|
  {
    if rs != [] {
      var n := |rs| - 1;
      ActiveKeepsOrder(rs[..n], inactive);
      var before := ActiveAmong(rs[..n], inactive);
      forall i | 0 <= i < |before| ensures before[i].id != rs[n].id {
        assert before[i] in rs[..n];
      }
    }
  }

  lemma {:induction false} KeptKeepsOrder(rs: seq<Record>, sel: seq<bool>)
    requires |sel| == |rs| && TimesAscend(rs)
    ensures TimesAscend(Kept(rs, sel, false))
    decreases |rs|
  {
    if rs != [] {
      var n := |rs| - 1;
      KeptKeepsOrder(rs[..n], sel[..n]);
      var before := Kept(rs[..n], sel[..n], false);
      forall i | 0 <= i < |before| ensures before[i].createdAt <= rs[n].createdAt {
        KeptAreRecords(rs[..n], sel[..n], false, before[i]);
      }
    }
  }

  /** The action, whether it returns or throws, left everything outside the recorded roots alone. */
  ghost predicate Confined(m: Prepared, base: Tree, u: Tree) {
    TreeShaped(u) && AgreeOutside(u, base, PathsOf(m.pre))
  }

  /**
   * A record call whose action stayed within its roots: the history grows by one, or nothing changed. When the
   * action threw, the rollback brings the workspace back.
   */
  lemma {:induction false} RecordKeepsCoherence(s: State, trees: seq<Tree>, m: Prepared, outcome: Outcome, blobs: Blobs)
    requires Coherent(s, trees) && FreshTo(s, m) && AllWhole(blobs, m.pre)
    requires WellPrepared(m, trees[|trees| - 1]) && Confined(m, trees[|trees| - 1], outcome.tree)
    ensures var live := trees[|trees| - 1];
            var post := CaptureAll(outcome.tree, PathsOf(m.pre));
            var s' := ApplyAll(Apply(s, PreparedEvent(m)), SettleLines(m, outcome, blobs));
            if outcome.Throws? then
              TreeAfter(m, outcome, blobs) == Some(live) && Active(s') == Active(s) && Coherent(s', trees)
            else if m.pre == post then
              outcome.tree == live && Active(s') == Active(s) && Coherent(s', trees)
            else
              Active(s') == Active(s) + [ToRecord(m, post)] && Coherent(s', trees + [outcome.tree])
  {
    var live, roots := trees[|trees| - 1], PathsOf(m.pre);
    var post := CaptureAll(outcome.tree, roots);
    LastIsShaped(trees, Active(s));
    if outcome.Throws? {
      RestoreUndoesConfinedChange(live, outcome.tree, roots);
      WholeIsReadable(blobs, m.pre);
      RolledBackLeavesNothing(s, trees, m, outcome.message);
    } else if m.pre == post {
      EqualCapturesMeanNoChange(live, outcome.tree, roots);
      RolledBackLeavesNothing(s, trees, m, "no-change");
    } else {
      ApplyOne(Apply(s, PreparedEvent(m)), CommittedEvent(m.id, post));
      CommitExtends(s, m, post);
      assert Changed(live, ToRecord(m, post), outcome.tree);
      ExtendHistory(trees, Active(s), ToRecord(m, post), outcome.tree);
    }
  }

  lemma {:induction false} RolledBackLeavesNothing(s: State, trees: seq<Tree>, m: Prepared, reason: string)
    requires Coherent(s, trees) && FreshTo(s, m)
    ensures var s' := ApplyAll(Apply(s, PreparedEvent(m)), [RolledBackEvent(m.id, reason)]);
            Active(s') == Active(s) && Coherent(s', trees)
  {
    var s1, e := Apply(s, PreparedEvent(m)), RolledBackEvent(m.id, reason);
    assert s1.prepared == [m];
    ApplyOne(s1, e);
    Settles(s1, m, e);
    ActiveKeepsOrder(s.committed, s.inactive);
    ActiveOutlasts(s.committed, s.inactive, {m.id});
    NothingDropped(Active(s), {m.id});
  }

  lemma {:induction false} ApplyOne(s: State, e: Event)
    ensures ApplyAll(s, [e]) == Apply(s, e)
  {
    assert [e][1..] == [];
  }

  lemma {:induction false} CommitExtends(s: State, m: Prepared, post: seq<RootSnapshot>)
    requires s.prepared == [] && FreshTo(s, m) && UniqueIds(s.committed) && TimesAscend(Active(s))
    ensures var s' := Apply(Apply(s, PreparedEvent(m)), CommittedEvent(m.id, post));
            && s'.prepared == [] && UniqueIds(s'.committed) && TimesAscend(Active(s'))
            && Active(s') == Active(s) + [ToRecord(m, post)]
  {
    var r, s1 := ToRecord(m, post), Apply(s, PreparedEvent(m));
    assert s1.prepared == [m];
    Settles(s1, m, CommittedEvent(m.id, post));
    assert FindPrepared([m], m.id) == Some(m);
    PutFresh(s.committed, r);
    ActiveKeepsOrder(s.committed, s.inactive);
    assert (s.committed + [r])[..|s.committed|] == s.committed;
  }

  lemma {:induction false} NothingDropped(rs: seq<Record>, gone: set<Id>)
    requires forall r :: r in rs ==> r.id !in gone
    ensures ActiveAmong(rs, gone) == rs
    decreases |rs|
  {
    if rs != [] {
      var n := |rs| - 1;
      NothingDropped(rs[..n], gone);
      assert rs == rs[..n] + [rs[n]];
    }
  }

  /** Equal snapshots of all roots a change was confined to mean there was no change. */
  lemma {:induction false} EqualCapturesMeanNoChange(t: Tree, u: Tree, roots: seq<Path>)
    requires TreeShaped(t) && TreeShaped(u) && AgreeOutside(u, t, roots)
    requires CaptureAll(t, roots) == CaptureAll(u, roots)
    ensures u == t
  {
    forall q ensures Same(u, t, q) {
      if Covered(roots, q) {
        var i :| 0 <= i < |roots| && roots[i] <= q;
        assert CaptureAll(t, roots)[i] == CaptureAll(u, roots)[i];
        CaptureIsExact(t, u, roots[i]);
        assert q in Restrict(t, roots[i]) <==> q in t;
        assert q in Restrict(u, roots[i]) <==> q in u;
      }
    }
    SameEverywhere(u, t);
  }

  /**
   * Undoing any selection that no active record left out overlaps later: the check passes, the workspace
   * becomes the history without the selection, and what remains active is again coherent.
   */
  lemma {:induction false} UndoKeepsCoherence(s: State, trees: seq<Tree>, sel: seq<bool>)
    requires Coherent(s, trees) && |sel| == |Active(s)| && NoLaterOverlap(Active(s), sel)
    ensures var active := Active(s);
            var live := trees[|trees| - 1];
            && ByTime(active) == active
            && Conflicts(ComposeFinalRoots(Kept(active, sel, true)), live) == []
            && UndoSelected(live, active, sel) == Some(Without(trees, active, sel))
            && var s' := MarkAllUndone(s, Kept(active, sel, true));
               && Active(s') == Kept(active, sel, false)
               && Coherent(s', Survivors(trees, active, sel))
               && Survivors(trees, active, sel)[|Active(s')|] == Without(trees, active, sel)
  {
    var active := Active(s);
    var chosen := Kept(active, sel, true);
    ListingKeepsJournalOrder(active);
    CompositionIsExact(trees, active, sel);
    NoConflictsWithItself(trees[|active|], TopLevelRoots(SelectedRoots(active, sel)));
    UndoEqualsNeverHappened(trees, active, sel);
    var gone := set r | r in chosen :: r.id;
    ActiveKeepsOrder(s.committed, s.inactive);
    forall i | 0 <= i < |active| ensures active[i].id in gone <==> sel[i] {
      IdsOfSelected(active, sel, i);
    }
    ActiveOutlasts(s.committed, s.inactive, gone);
    DroppingSelected(active, sel, gone);
    HistoryRemains(trees, active, sel);
    KeptKeepsOrder(active, sel);
  }

  lemma {:induction false} NoConflictsWithItself(t: Tree, roots: seq<Path>)
    ensures Conflicts(CaptureAll(t, roots), t) == []
    decreases |roots|
  {
    if roots != [] {
      var n := |roots| - 1;
      CaptureAllPrefix(t, roots, n);
      NoConflictsWithItself(t, roots[..n]);
    }
  }

  /**
   * An undo that dies part-way is neither finished nor reverted: recovery leaves the disk alone, the records
   * stay active, and a retry is refused exactly when some selected root no longer holds what was recorded.
   */
  lemma {:induction false} InterruptedUndoIsLeftAlone(file: JournalFile, blobs: Blobs, trees: seq<Tree>, target: string, partial: Tree)
    requires var s := Replay(file.lines);
             Coherent(s, trees) && NoLaterOverlap(Active(s), Select(Active(s), target)) && TreeShaped(partial)
    ensures Recover(Disk(partial, file, blobs)) == Some(Disk(partial, file, blobs))
    ensures var active := Active(Replay(file.lines));
            var sel := Select(active, target);
            var tops := TopLevelRoots(SelectedRoots(active, sel));
            Conflicts(ComposeFinalRoots(Kept(active, sel, true)), partial) == [] <==>
            forall p :: p in tops ==> Restrict(partial, p) == Restrict(trees[|active|], p)
  {
    var active := Active(Replay(file.lines));
    var sel := Select(active, target);
    var conflicts := Conflicts(ComposeFinalRoots(Kept(active, sel, true)), partial);
    forall p ensures p in conflicts <==>
                     p in TopLevelRoots(SelectedRoots(active, sel)) && Restrict(partial, p) != Restrict(trees[|active|], p)
    {
      ConflictsAreRealDifferences(trees, active, sel, partial, p);
    }
    if conflicts != [] {
      assert conflicts[0] in conflicts;
    }
  }

  // ---- A record call as a run of the crash model's steps ----

  lemma {:induction false} ConfinedIsDisturbed(m: Prepared, base: Tree, u: Tree)
    requires TreeShaped(base) && WellPrepared(m, base) && Confined(m, base, u)
    ensures Disturbed(m, base, u) && Overwrite(u, PathsOf(m.pre), base) == base
  {
    var r := Overwrite(u, PathsOf(m.pre), base);
    forall q ensures Same(r, base, q) {
      if !Covered(PathsOf(m.pre), q) { assert Same(r, u, q) && Same(u, base, q); }
    }
    SameEverywhere(r, base);
  }

  /** The steps of one record call after its first line: the action, then its settling line, after a rollback if it threw. */
  ghost function StepsOf(d: Disk, m: Prepared, base: Tree, outcome: Outcome): seq<Move> {
    if outcome.Throws? then
      [Touch(outcome.tree), Touch(RolledBack(d.(tree := outcome.tree), m, base).tree), RollBack(outcome.message)]
    else
      [Touch(outcome.tree), StoreBlobs(d.blobs), if CaptureAll(outcome.tree, PathsOf(m.pre)) == m.pre then NoChange else Commit]
  }

  /** What `Service.Record` promises of tree, file and blobs is where its steps lead. */
  lemma {:induction false} RecordIsARun(before: Disk, m: Prepared, outcome: Outcome, stored: Blobs, blobs: Blobs)
    requires TreeShaped(before.tree) && Incomplete(before) == [] && before.file.tail.Whole?
    requires WellPrepared(m, before.tree) && Disturbed(m, before.tree, outcome.tree)
    requires Grew(before.blobs, stored) && AllReadable(stored, m.pre) && Grew(stored, blobs)
    requires outcome.Throws? ==> blobs == stored
    ensures var steps := [StoreBlobs(stored)] + ([Begin(m)] + StepsOf(before.(blobs := blobs), m, before.tree, outcome));
            && IsRun(World(before, Idle), steps)
            && After(World(before, Idle), steps).phase.Idle?
            && var d := After(World(before, Idle), steps).disk;
               && d.blobs == blobs && Some(d.tree) == TreeAfter(m, outcome, blobs)
               && d.file == AppendAll(before.file.Append(PreparedEvent(m)), SettleLines(m, outcome, blobs))
  {
    var d := before.(blobs := blobs);
    var w0, w1 := World(before, Idle), World(before.(blobs := stored), Idle);
    var w2 := World(Disk(before.tree, before.file.Append(PreparedEvent(m)), stored), Busy(m, before.tree));
    StoringKeepsReading(stored, blobs, m.pre);
    SettlingSteps(w2, m, outcome, blobs);
    hide StepsOf, Enabled, Next;
    assert Enabled(w1, Begin(m)) && Next(w1, Begin(m)) == w2 by { BeginStep(w1, m); }
    assert Enabled(w0, StoreBlobs(stored)) && Next(w0, StoreBlobs(stored)) == w1 by { StoreStep(w0, stored); }
    hide IsRun, After, SettleLines, AppendAll, TreeAfter, RestoreStored, LinesMeetNewlines, AllReadable, WellPrepared, Disturbed, Grew;
    RunStep(w1, Begin(m), StepsOf(d, m, before.tree, outcome));
    RunStep(w0, StoreBlobs(stored), [Begin(m)] + StepsOf(d, m, before.tree, outcome));
  }

  lemma BeginStep(w: World, m: Prepared)
    requires w.phase.Idle? && WellPrepared(m, w.disk.tree) && AllReadable(w.disk.blobs, m.pre)
    ensures Enabled(w, Begin(m))
    ensures Next(w, Begin(m)) == World(w.disk.(file := w.disk.file.Append(PreparedEvent(m))), Busy(m, w.disk.tree))
  {
  }

  lemma StoreStep(w: World, blobs: Blobs)
    requires Grew(w.disk.blobs, blobs)
    ensures Enabled(w, StoreBlobs(blobs)) && Next(w, StoreBlobs(blobs)) == w.(disk := w.disk.(blobs := blobs))
  {
  }

  lemma {:induction false} SettlingSteps(w: World, m: Prepared, outcome: Outcome, blobs: Blobs)
    requires w.phase.Busy? && w.phase.m == m && TreeShaped(w.phase.base) && WellPrepared(m, w.phase.base)
    requires Disturbed(m, w.phase.base, outcome.tree) && AllReadable(w.disk.blobs, m.pre) && Grew(w.disk.blobs, blobs)
    requires outcome.Throws? ==> blobs == w.disk.blobs
    ensures var steps := StepsOf(w.disk.(blobs := blobs), m, w.phase.base, outcome);
            && IsRun(w, steps) && After(w, steps).phase.Idle?
            && var d := After(w, steps).disk;
               && d.blobs == blobs && Some(d.tree) == TreeAfter(m, outcome, blobs)
               && d.file == AppendAll(w.disk.file, SettleLines(m, outcome, blobs))
  {
    hide *;
    if outcome.Throws? { ThrownSteps(w, m, outcome); } else { ReturnedSteps(w, m, outcome, blobs); }
  }

  lemma {:induction false} ThrownSteps(w: World, m: Prepared, outcome: Outcome)
    requires w.phase.Busy? && w.phase.m == m && TreeShaped(w.phase.base) && WellPrepared(m, w.phase.base)
    requires Disturbed(m, w.phase.base, outcome.tree) && AllReadable(w.disk.blobs, m.pre) && outcome.Throws?
    ensures var steps := StepsOf(w.disk, m, w.phase.base, outcome);
            && IsRun(w, steps) && After(w, steps).phase.Idle?
            && var d := After(w, steps).disk;
               && d.blobs == w.disk.blobs && Some(d.tree) == TreeAfter(m, outcome, d.blobs)
               && d.file == AppendAll(w.disk.file, SettleLines(m, outcome, d.blobs))
  {
    var thrown := w.disk.(tree := outcome.tree);
    SettlingOnce(EMPTY, w.disk.file);
    RollbackRestores(thrown, m, w.phase.base);
    hide RestoreStored, Disturbed, WellPrepared, AllReadable, TreeShaped;
    RunOfThree(w, Touch(outcome.tree), Touch(RolledBack(thrown, m, w.phase.base).tree), RollBack(outcome.message));
  }

  lemma {:induction false} ReturnedSteps(w: World, m: Prepared, outcome: Outcome, blobs: Blobs)
    requires w.phase.Busy? && w.phase.m == m && Disturbed(m, w.phase.base, outcome.tree) && outcome.Returns?
    requires Grew(w.disk.blobs, blobs)
    ensures var steps := StepsOf(w.disk.(blobs := blobs), m, w.phase.base, outcome);
            && IsRun(w, steps) && After(w, steps).phase.Idle?
            && var d := After(w, steps).disk;
               && d.blobs == blobs && Some(d.tree) == TreeAfter(m, outcome, blobs)
               && d.file == AppendAll(w.disk.file, SettleLines(m, outcome, d.blobs))
  {
    hide Disturbed, Grew, CaptureAll;
    SettlingOnce(EMPTY, w.disk.file);
    RunOfThree(w, Touch(outcome.tree), StoreBlobs(blobs), if CaptureAll(outcome.tree, PathsOf(m.pre)) == m.pre then NoChange else Commit);
  }

  // ---- Whole lives of a service ----

  /** Each call says what the blob store holds after it: never less than before, in a killed call also torn blobs. */
  datatype Call =
    | Recorded(m: Prepared, outcome: Outcome, blobs: Blobs)
    | CaptureKilled(blobs: Blobs)                        // a record or an undo dies before its first line
    | RecordKilled(m: Prepared, tree: Tree, blobs: Blobs)    // dies with `tree` on disk, between the prepared and the settling line
    | Undone(target: string, blobs: Blobs)
    | UndoKilled(target: string, first: nat, blobs: Blobs)   // dies between two records; those from `first` on are undone
    | Restarted

  ghost function Listing(d: Disk): seq<Record> {
    ByTime(Active(Replay(d.file.lines)))
  }

  ghost function Chosen(d: Disk, target: string): (sel: seq<bool>)
    ensures |sel| == |Listing(d)|
  {
    Select(Listing(d), target)
  }

  /** Nothing is selected, or a selected root was changed since. */
  ghost predicate Refused(d: Disk, target: string) {
    var chosen := Kept(Listing(d), Chosen(d, target), true);
    chosen == [] || Conflicts(ComposeFinalRoots(chosen), d.tree) != []
  }

  function From(sel: seq<bool>, first: nat): (r: seq<bool>)
    ensures |r| == |sel| && forall i :: 0 <= i < |r| ==> (r[i] <==> sel[i] && first <= i)
  {
    seq(|sel|, i requires 0 <= i < |sel| => sel[i] && first <= i)
  }

  /** The capture finds no torn blob under the name of a content it records. */
  predicate Stored(d: Disk, m: Prepared, blobs: Blobs) {
    Extends(d.blobs, blobs) && AllWhole(blobs, m.pre)
  }

  ghost predicate Possible(d: Disk, c: Call) {
    match c
    case Recorded(m, outcome, blobs) =>
      FreshTo(Replay(d.file.lines), m) && WellPrepared(m, d.tree) && Confined(m, d.tree, outcome.tree) && Stored(d, m, blobs)
    case CaptureKilled(blobs) => Extends(d.blobs, blobs)
    case RecordKilled(m, tree, blobs) =>
      FreshTo(Replay(d.file.lines), m) && WellPrepared(m, d.tree) && Confined(m, d.tree, tree) && Stored(d, m, blobs)
    case Undone(target, blobs) =>
      Extends(d.blobs, blobs) && (Refused(d, target) || NoLaterOverlap(Listing(d), Chosen(d, target)))
    case UndoKilled(target, first, blobs) =>
      Extends(d.blobs, blobs) && !Refused(d, target) && NoLaterOverlap(Listing(d), Chosen(d, target))
    case Restarted => true
  }

  ghost function DiskUndone(d: Disk, sel: seq<bool>): Option<Disk>
    requires |sel| == |Listing(d)|
  {
    var chosen := Kept(Listing(d), sel, true);
    var tree :- RestoreBackwards(d.blobs, d.tree, chosen);
    Some(Disk(tree, AppendAll(d.file, UndoneLines(Reversed(Ids(chosen)))), d.blobs))
  }

  /** The disk after a call, and after the next start where the call killed the process; None where one throws. */
  ghost function DiskAfter(d: Disk, c: Call): Option<Disk> {
    match c
    case Recorded(m, outcome, blobs) =>
      var tree :- TreeAfter(m, outcome, blobs);
      Some(Disk(tree, AppendAll(d.file.Append(PreparedEvent(m)), SettleLines(m, outcome, blobs)), blobs))
    case CaptureKilled(blobs) => Recover(d.(blobs := blobs))
    case RecordKilled(m, tree, blobs) => Recover(Disk(tree, d.file.Append(PreparedEvent(m)), blobs))
    case Undone(target, blobs) =>
      if Refused(d, target) then Some(d.(blobs := blobs)) else DiskUndone(d.(blobs := blobs), Chosen(d, target))
    case UndoKilled(target, first, blobs) =>
      var left :- DiskUndone(d.(blobs := blobs), From(Chosen(d, target), first));
      Recover(left)
    case Restarted => Recover(d)
  }

  ghost predicate AllPossible(d: Disk, calls: seq<Call>)
    decreases |calls|
  {
    calls == [] ||
    (Possible(d, calls[0]) && (DiskAfter(d, calls[0]).Some? ==> AllPossible(DiskAfter(d, calls[0]).value, calls[1..])))
  }

  ghost function DiskAfterAll(d: Disk, calls: seq<Call>): Option<Disk>
    decreases |calls|
  {
    if calls == [] then Some(d) else
      var next :- DiskAfter(d, calls[0]);
      DiskAfterAll(next, calls[1..])
  }

  /** The journal is a history that ends in the workspace, its lines and the pre-images it names are whole. */
  ghost predicate InOrder(d: Disk, trees: seq<Tree>) {
    && Coherent(Replay(d.file.lines), trees) && trees[|trees| - 1] == d.tree
    && d.file.tail.Whole? && Backed(Replay(d.file.lines), d.blobs)
  }

  lemma {:induction false} ReplayAll(lines: seq<Event>, es: seq<Event>)
    ensures Replay(lines + es) == ApplyAll(Replay(lines), es)
    decreases |es|
  {
    if es == [] {
      assert lines + es == lines;
    } else {
      ReplayAppend(lines, es[0]);
      ReplayAll(lines + [es[0]], es[1..]);
      assert lines + [es[0]] + es[1..] == lines + es;
    }
  }

  lemma {:induction false} ReplayUndone(lines: seq<Event>, ids: seq<Id>)
    ensures var s := Replay(lines);
            Replay(lines + UndoneLines(ids)) == s.(inactive := s.inactive + set x | x in ids)
    decreases |ids|
  {
    hide Replay;
    if ids == [] {
      assert lines + UndoneLines(ids) == lines;
    } else {
      var n := |ids| - 1;
      assert lines + UndoneLines(ids) == lines + UndoneLines(ids[..n]) + [UndoneEvent(ids[n])];
      assert forall x :: x in ids <==> x in ids[..n] || x == ids[n];
      ReplayUndone(lines, ids[..n]);
      ReplayAppend(lines + UndoneLines(ids[..n]), UndoneEvent(ids[n]));
    }
  }

  lemma {:induction false} ReversedHolds<T>(s: seq<T>, x: T)
    ensures x in Reversed(s) <==> x in s
  {
    if s != [] { ReversedHolds(s[1..], x); }
  }

  lemma {:induction false} IdsHold(rs: seq<Record>, x: Id)
    ensures x in Ids(rs) <==> exists r :: r in rs && r.id == x
  {
    if rs != [] {
      var n := |rs| - 1;
      IdsHold(rs[..n], x);
      if x == rs[n].id { assert rs[n] in rs; }
      if r :| r in rs && r.id == x { assert r == rs[n] || r in rs[..n]; }
    }
  }

  lemma {:induction false} UndoneLinesMark(lines: seq<Event>, chosen: seq<Record>)
    ensures Replay(lines + UndoneLines(Reversed(Ids(chosen)))) == MarkAllUndone(Replay(lines), chosen)
  {
    var ids := Reversed(Ids(chosen));
    ReplayUndone(lines, ids);
    forall x ensures x in ids <==> x in (set r | r in chosen :: r.id) {
      ReversedHolds(Ids(chosen), x);
      IdsHold(chosen, x);
    }
    assert (set x | x in ids) == (set r | r in chosen :: r.id);
  }

  lemma {:induction false} NothingUndone(t: Tree, records: seq<Record>, sel: seq<bool>)
    requires |sel| == |records| && forall i :: 0 <= i < |sel| ==> !sel[i]
    ensures UndoSelected(t, records, sel) == Some(t) && Kept(records, sel, true) == []
    decreases |records|
  {
    if records != [] { NothingUndone(t, records[..|records| - 1], sel[..|sel| - 1]); }
  }

  /** The later part of a selection is what an undo does first. */
  lemma {:induction false} LaterPartComesFirst(t: Tree, records: seq<Record>, sel: seq<bool>, first: nat)
    requires first <= |records| == |sel|
    ensures var part := UndoSelected(t, records, From(sel, first));
            UndoSelected(t, records, sel) ==
            if part.None? then None else UndoSelected(part.value, records[..first], sel[..first])
    decreases |records|
  {
    var n := |records| - 1;
    if first == |records| {
      NothingUndone(t, records, From(sel, first));
      assert records[..first] == records && sel[..first] == sel;
    } else {
      assert From(sel, first)[..n] == From(sel[..n], first);
      assert records[..n][..first] == records[..first] && sel[..n][..first] == sel[..first];
      var next := if sel[n] then RestoreRoots(t, records[n].pre) else Some(t);
      if next.Some? { LaterPartComesFirst(next.value, records[..n], sel[..n], first); }
    }
  }

  /** A selection stays undoable when only its later part is undone. */
  lemma {:induction false} LaterPartStaysAlone(records: seq<Record>, sel: seq<bool>, first: nat)
    requires |sel| == |records| && NoLaterOverlap(records, sel)
    ensures NoLaterOverlap(records, From(sel, first))
  {
  }

  lemma {:induction false} IdleDiskIsLeftAlone(d: Disk, trees: seq<Tree>)
    requires InOrder(d, trees)
    ensures Recover(d) == Some(d)
  {
  }

  lemma {:induction false} StoringKeepsOrder(d: Disk, trees: seq<Tree>, blobs: Blobs)
    requires InOrder(d, trees) && Extends(d.blobs, blobs)
    ensures InOrder(d.(blobs := blobs), trees)
  {
    StoringKeepsBacking(Replay(d.file.lines), d.blobs, blobs);
  }

  lemma {:induction false} InOrderListing(d: Disk, trees: seq<Tree>)
    requires InOrder(d, trees)
    ensures |trees| == |Listing(d)| + 1 && Listing(d) == Active(Replay(d.file.lines))
  {
    ListingKeepsJournalOrder(Active(Replay(d.file.lines)));
  }

  /** What an undo restores is whole in the store, so it restores what was recorded. */
  lemma {:induction false} UndoReadsWhatWasRecorded(d: Disk, sel: seq<bool>)
    requires |sel| == |Listing(d)| && Backed(Replay(d.file.lines), d.blobs)
    ensures RestoreBackwards(d.blobs, d.tree, Kept(Listing(d), sel, true)) == UndoSelected(d.tree, Listing(d), sel)
  {
    forall r | r in Kept(Listing(d), sel, true) ensures AllWhole(d.blobs, r.pre) {
      KeptAreRecords(Listing(d), sel, true, r);
      ListingHolds(Replay(d.file.lines), r);
    }
    BackwardsOverSelection(d.blobs, d.tree, Listing(d), sel);
  }

  lemma {:induction false} UndoneKeepsOrder(d: Disk, trees: seq<Tree>, sel: seq<bool>) returns (trees': seq<Tree>)
    requires InOrder(d, trees) && |sel| == |Listing(d)| && NoLaterOverlap(Listing(d), sel)
    ensures var r := DiskUndone(d, sel);
            && r.Some? && InOrder(r.value, trees')
            && |Listing(d)| + 1 == |trees|
            && Conflicts(ComposeFinalRoots(Kept(Listing(d), sel, true)), d.tree) == []
            && r.value.tree == Without(trees, Listing(d), sel)
            && Active(Replay(r.value.file.lines)) == Kept(Listing(d), sel, false)
  {
    var s, chosen := Replay(d.file.lines), Kept(Listing(d), sel, true);
    ListingKeepsJournalOrder(Active(s));
    UndoKeepsCoherence(s, trees, sel);
    UndoneLinesMark(d.file.lines, chosen);
    UndoReadsWhatWasRecorded(d, sel);
    WholeFilesGrow(d.file, UndoneLines(Reversed(Ids(chosen))));
    trees' := Survivors(trees, Listing(d), sel);
  }

  lemma {:induction false} ManyLinesKeepBacking(s: State, es: seq<Event>, blobs: Blobs)
    requires Backed(s, blobs) && forall e :: e in es && e.PreparedEvent? ==> AllWhole(blobs, e.mutation.pre)
    ensures Backed(ApplyAll(s, es), blobs)
    decreases |es|
  {
    if es != [] {
      assert es[0] in es;
      LinesKeepBacking(s, es[0], blobs);
      ManyLinesKeepBacking(Apply(s, es[0]), es[1..], blobs);
    }
  }

  /** The lines a record call adds, as one file and as one state. */
  lemma {:induction false} RecordedLines(d: Disk, m: Prepared, es: seq<Event>, blobs: Blobs)
    requires d.file.tail.Whole? && Backed(Replay(d.file.lines), blobs) && AllWhole(blobs, m.pre)
    requires forall e :: e in es ==> !e.PreparedEvent?
    ensures var file := AppendAll(d.file.Append(PreparedEvent(m)), es);
            && file.tail.Whole? && file.lines == d.file.lines + [PreparedEvent(m)] + es
            && Replay(file.lines) == ApplyAll(Apply(Replay(d.file.lines), PreparedEvent(m)), es)
            && Backed(Replay(file.lines), blobs)
  {
    hide Backed;
    var p := d.file.Append(PreparedEvent(m));
    WholeFilesGrow(p, es);
    ReplayAppend(d.file.lines, PreparedEvent(m));
    ReplayAll(p.lines, es);
    LinesKeepBacking(Replay(d.file.lines), PreparedEvent(m), blobs);
    ManyLinesKeepBacking(Replay(p.lines), es, blobs);
  }

  lemma {:induction false} SettlingLinesOnly(m: Prepared, outcome: Outcome, blobs: Blobs)
    ensures forall e :: e in SettleLines(m, outcome, blobs) ==> !e.PreparedEvent?
  {
  }

  lemma ReturnedTree(m: Prepared, outcome: Outcome, blobs: Blobs)
    ensures outcome.Returns? ==> TreeAfter(m, outcome, blobs) == Some(outcome.tree)
  {
  }

  lemma {:induction false} RecordedKeepsOrder(d: Disk, trees: seq<Tree>, m: Prepared, outcome: Outcome, blobs: Blobs)
    returns (trees': seq<Tree>)
    requires InOrder(d, trees) && Possible(d, Recorded(m, outcome, blobs))
    ensures var r := DiskAfter(d, Recorded(m, outcome, blobs)); r.Some? && InOrder(r.value, trees')
  {
    StoringKeepsOrder(d, trees, blobs);
    SettlingLinesOnly(m, outcome, blobs);
    trees' := RecordedCoherence(Replay(d.file.lines), trees, m, outcome, blobs);
    hide Coherent, Replay, ApplyAll, Active, CaptureAll, FreshTo, WellPrepared, Confined, Backed, AppendAll, AllWhole, Extends;
    hide SettleLines, TreeAfter, JournalFile.Append;
    RecordedLines(d, m, SettleLines(m, outcome, blobs), blobs);
  }

  lemma {:induction false} RecordedCoherence(s: State, trees: seq<Tree>, m: Prepared, outcome: Outcome, blobs: Blobs)
    returns (trees': seq<Tree>)
    requires Coherent(s, trees) && FreshTo(s, m) && AllWhole(blobs, m.pre)
    requires WellPrepared(m, trees[|trees| - 1]) && Confined(m, trees[|trees| - 1], outcome.tree)
    ensures Coherent(ApplyAll(Apply(s, PreparedEvent(m)), SettleLines(m, outcome, blobs)), trees') && trees' != []
    ensures TreeAfter(m, outcome, blobs) == Some(trees'[|trees'| - 1])
  {
    assert trees != [];
    RecordKeepsCoherence(s, trees, m, outcome, blobs);
    ReturnedTree(m, outcome, blobs);
    hide *;
    trees' := trees;
    if outcome.Returns? {
      if CaptureAll(outcome.tree, PathsOf(m.pre)) != m.pre { trees' := trees + [outcome.tree]; }
    }
  }

  lemma {:induction false} KilledKeepsOrder(d: Disk, trees: seq<Tree>, m: Prepared, tree: Tree, blobs: Blobs)
    requires InOrder(d, trees) && Possible(d, RecordKilled(m, tree, blobs))
    ensures var r := DiskAfter(d, RecordKilled(m, tree, blobs)); r.Some? && r.value.tree == d.tree && InOrder(r.value, trees)
  {
    var e := RolledBackEvent(m.id, "recovered-incomplete");
    LastIsShaped(trees, Active(Replay(d.file.lines)));
    ConfinedIsDisturbed(m, d.tree, tree);
    WholeIsReadable(blobs, m.pre);
    var left := Disk(tree, d.file.Append(PreparedEvent(m)), blobs);
    RunningIsRolledBack(d.file.lines, m, d.tree, left);
    RolledBackRoots(left, m, d.tree);
    StoringKeepsOrder(d, trees, blobs);
    hide Recover, Backed, Coherent, Replay, AllWhole, WellPrepared, Disturbed, Active;
    RolledBackLeavesNothing(Replay(d.file.lines), trees, m, "recovered-incomplete");
    RecordedLines(d, m, [e], blobs);
    SettlingOnce(EMPTY, left.file);
  }

  /** Every call, finished or killed, leaves the journal a history that ends in the workspace. */
  lemma {:induction false} CallKeepsOrder(d: Disk, trees: seq<Tree>, c: Call) returns (trees': seq<Tree>)
    requires InOrder(d, trees) && Possible(d, c)
    ensures DiskAfter(d, c).Some? && InOrder(DiskAfter(d, c).value, trees')
  {
    hide InOrder, Replay, Recover, RestoreBackwards, DiskUndone, Stored, Backed, SettleLines, TreeAfter;
    trees' := trees;
    match c {
      case Recorded(m, outcome, blobs) => trees' := RecordedKeepsOrder(d, trees, m, outcome, blobs);
      case CaptureKilled(blobs) =>
        StoringKeepsOrder(d, trees, blobs);
        IdleDiskIsLeftAlone(d.(blobs := blobs), trees);
      case RecordKilled(m, tree, blobs) => KilledKeepsOrder(d, trees, m, tree, blobs);
      case Undone(target, blobs) =>
        StoringKeepsOrder(d, trees, blobs);
        if !Refused(d, target) { trees' := UndoneKeepsOrder(d.(blobs := blobs), trees, Chosen(d, target)); }
      case UndoKilled(target, first, blobs) =>
        var sel := From(Chosen(d, target), first);
        StoringKeepsOrder(d, trees, blobs);
        LaterPartStaysAlone(Listing(d), Chosen(d, target), first);
        trees' := UndoneKeepsOrder(d.(blobs := blobs), trees, sel);
        IdleDiskIsLeftAlone(DiskUndone(d.(blobs := blobs), sel).value, trees');
      case Restarted => IdleDiskIsLeftAlone(d, trees);
    }
  }

  lemma {:induction false} CallsKeepOrder(d: Disk, trees: seq<Tree>, calls: seq<Call>) returns (trees': seq<Tree>)
    requires InOrder(d, trees) && AllPossible(d, calls)
    ensures DiskAfterAll(d, calls).Some? && InOrder(DiskAfterAll(d, calls).value, trees')
    decreases |calls|
  {
    hide InOrder, DiskAfter, Possible;
    trees' := trees;
    if calls != [] {
      var next := CallKeepsOrder(d, trees, calls[0]);
      trees' := CallsKeepOrder(DiskAfter(d, calls[0]).value, next, calls[1..]);
    }
  }

  /** An undo that is not refused for lack of records gives the history without what it undoes. */
  ghost predicate UndoesExactly(d: Disk, trees: seq<Tree>, target: string, blobs: Blobs)
    requires |trees| == |Listing(d)| + 1
  {
    var sel := Chosen(d, target);
    var after := DiskAfter(d, Undone(target, blobs));
    NoLaterOverlap(Listing(d), sel) && Kept(Listing(d), sel, true) != [] ==>
      && after.Some?
      && after.value.tree == Without(trees, Listing(d), sel)
      && Active(Replay(after.value.file.lines)) == Kept(Listing(d), sel, false)
  }

  lemma UnrefusedUndo(d: Disk, target: string, blobs: Blobs)
    requires !Refused(d, target)
    ensures DiskAfter(d, Undone(target, blobs)) == DiskUndone(d.(blobs := blobs), Chosen(d, target))
  {
  }

  lemma {:induction false} NextUndoIsExact(d: Disk, trees: seq<Tree>, target: string, blobs: Blobs)
    requires InOrder(d, trees) && Extends(d.blobs, blobs)
    ensures |trees| == |Listing(d)| + 1 && UndoesExactly(d, trees, target, blobs)
  {
    var sel := Chosen(d, target);
    InOrderListing(d, trees);
    StoringKeepsOrder(d, trees, blobs);
    hide Replay, Active, InOrder, Without, Kept, RestoreBackwards, NoLaterOverlap, DiskAfter, DiskUndone, Extends;
    assert Listing(d.(blobs := blobs)) == Listing(d);
    hide Listing, Chosen;
    if NoLaterOverlap(Listing(d), sel) && Kept(Listing(d), sel, true) != [] {
      var after := UndoneKeepsOrder(d.(blobs := blobs), trees, sel);
      UnrefusedUndo(d, target, blobs);
    }
  }

  /**
   * Over the whole life of a service, through calls that return, throw or are killed, undos and restarts: no
   * call gets stuck, the journal stays a history that ends in the workspace, and the next undo gives that
   * history without what it undoes.
   */
  lemma {:induction false} EveryLifeUndoesExactly(tree: Tree, stored: Blobs, calls: seq<Call>, target: string)
    requires TreeShaped(tree) && AllPossible(Disk(tree, JournalFile([], Whole), stored), calls)
    ensures var r := DiskAfterAll(Disk(tree, JournalFile([], Whole), stored), calls);
            r.Some? && exists trees: seq<Tree> ::
              && InOrder(r.value, trees) && |trees| == |Listing(r.value)| + 1
              && forall blobs :: Extends(r.value.blobs, blobs) ==> UndoesExactly(r.value, trees, target, blobs)
  {
    var start := Disk(tree, JournalFile([], Whole), stored);
    assert InOrder(start, [tree]) by {
      assert Replay([]) == EMPTY && Active(EMPTY) == [];
    }
    hide InOrder, UndoesExactly, DiskAfter, Possible, Listing, Extends;
    var trees := CallsKeepOrder(start, [tree], calls);
    var d := DiskAfterAll(start, calls).value;
    NextUndoIsExact(d, trees, target, d.blobs) by { assert Extends(d.blobs, d.blobs) by { ExtendsItself(d.blobs); } }
    forall blobs | Extends(d.blobs, blobs) ensures UndoesExactly(d, trees, target, blobs) {
      NextUndoIsExact(d, trees, target, blobs);
    }
  }

  lemma ExtendsItself(blobs: Blobs)
    ensures Extends(blobs, blobs)
  {
  }

  // ---- The object, used ----

  lemma {:induction false} LatestKept(records: seq<Record>)
    requires records != []
    ensures var n := |records| - 1; Kept(records, Select(records, ""), false) == records[..n]
  {
    var n := |records| - 1;
    EverythingKept(records[..n], Select(records, "")[..n]);
  }

  lemma {:induction false} EverythingKept(records: seq<Record>, sel: seq<bool>)
    requires |sel| == |records| && forall i :: 0 <= i < |sel| ==> !sel[i]
    ensures Kept(records, sel, false) == records
    decreases |records|
  {
    if records != [] {
      var n := |records| - 1;
      EverythingKept(records[..n], sel[..n]);
      assert records == records[..n] + [records[n]];
    }
  }

  /** Undoing the latest record alone puts back the workspace before it. */
  lemma {:induction false} LatestUndone(trees: seq<Tree>, records: seq<Record>)
    requires History(trees, records) && records != []
    ensures var sel, n := Select(records, ""), |records| - 1;
            && NoLaterOverlap(records, sel) && Kept(records, sel, true) == [records[n]]
            && Without(trees, records, sel) == trees[n]
  {
    var sel, n := Select(records, ""), |records| - 1;
    var part, ts := records[..n], trees[..n + 1];
    assert |trees| == n + 2;
    hide History, UndoSelected, DisjointRoots;
    assert NoLaterOverlap(records, sel);
    HistoryPrefix(trees, records, sel);
    NothingUndone(ts[n], part, sel[..n]);
    UndoEqualsNeverHappened(ts, part, sel[..n]);
  }

  /** What a service finds that starts on a journal whose latest record turned `d` into `u`. */
  lemma {:induction false} LatestRecordUndone(d: Disk, trees: seq<Tree>, m: Prepared, u: Tree, blobs: Blobs)
    requires InOrder(d, trees) && Possible(d, Recorded(m, Returns(u), blobs)) && u != d.tree
    ensures var d1 := Disk(u, AppendAll(d.file.Append(PreparedEvent(m)), SettleLines(m, Returns(u), blobs)), blobs);
            var chosen := Kept(Listing(d1), Select(Listing(d1), ""), true);
            && Recover(d1) == Some(d1)
            && |chosen| == 1 && chosen[0].id == m.id
            && Conflicts(ComposeFinalRoots(chosen), u) == []
            && UndoSelected(u, Listing(d1), Select(Listing(d1), "")) == Some(d.tree)
            && Active(MarkAllUndone(Replay(d1.file.lines), chosen)) == Active(Replay(d.file.lines))
  {
    LatestRecorded(d, trees, m, u, blobs);
    var d1 := Disk(u, AppendAll(d.file.Append(PreparedEvent(m)), SettleLines(m, Returns(u), blobs)), blobs);
    hide InOrder, Listing, Replay, Active, UndoSelected, ComposeFinalRoots, Recover, Possible, SettleLines, Select, Kept, AppendAll;
    LatestUndoneInOrder(d1, trees + [u]);
  }

  lemma {:induction false} LatestRecorded(d: Disk, trees: seq<Tree>, m: Prepared, u: Tree, blobs: Blobs)
    requires InOrder(d, trees) && Possible(d, Recorded(m, Returns(u), blobs)) && u != d.tree
    ensures var d1 := Disk(u, AppendAll(d.file.Append(PreparedEvent(m)), SettleLines(m, Returns(u), blobs)), blobs);
            var n := |Listing(d1)| - 1;
            && InOrder(d1, trees + [u]) && |trees| == n + 1 && (trees + [u])[n] == d.tree
            && Listing(d1)[n].id == m.id && Listing(d1)[..n] == Active(Replay(d.file.lines))
  {
    var s, post := Replay(d.file.lines), CaptureAll(u, PathsOf(m.pre));
    var d1 := Disk(u, AppendAll(d.file.Append(PreparedEvent(m)), SettleLines(m, Returns(u), blobs)), blobs);
    RecordKeepsCoherence(s, trees, m, Returns(u), blobs);
    ChangeShows(d, trees, m, u, blobs);
    StoringKeepsOrder(d, trees, blobs);
    RecordedLines(d, m, SettleLines(m, Returns(u), blobs), blobs);
    hide SettleLines, ApplyAll, Active, Coherent, CaptureAll, TreeShaped, Backed, AppendAll;
    InOrderListing(d1, trees + [u]);
    InOrderListing(d, trees);
  }

  lemma {:induction false} ChangeShows(d: Disk, trees: seq<Tree>, m: Prepared, u: Tree, blobs: Blobs)
    requires InOrder(d, trees) && Possible(d, Recorded(m, Returns(u), blobs)) && u != d.tree
    ensures m.pre != CaptureAll(u, PathsOf(m.pre))
  {
    LastIsShaped(trees, Active(Replay(d.file.lines)));
    if m.pre == CaptureAll(u, PathsOf(m.pre)) { EqualCapturesMeanNoChange(d.tree, u, PathsOf(m.pre)); }
  }

  lemma {:induction false} LatestUndoneInOrder(d: Disk, trees: seq<Tree>)
    requires InOrder(d, trees) && |trees| > 1
    ensures |Listing(d)| + 1 == |trees|
    ensures var n := |Listing(d)| - 1;
            var sel := Select(Listing(d), "");
            var chosen := Kept(Listing(d), sel, true);
            && Recover(d) == Some(d)
            && chosen == [Listing(d)[n]]
            && Conflicts(ComposeFinalRoots(chosen), d.tree) == []
            && UndoSelected(d.tree, Listing(d), sel) == Some(trees[n])
            && Active(MarkAllUndone(Replay(d.file.lines), chosen)) == Listing(d)[..n]
  {
    InOrderListing(d, trees);
    var sel := Select(Listing(d), "");
    LatestUndone(trees, Listing(d));
    UndoKeepsCoherence(Replay(d.file.lines), trees, sel);
    LatestKept(Listing(d));
  }

  lemma {:induction false} PossibleRecord(d: Disk, m: Prepared, u: Tree)
    requires FreshTo(Replay(d.file.lines), m) && WellPrepared(m, d.tree) && Confined(m, d.tree, u) && Storable(d.blobs, m.pre)
    ensures forall blobs :: Grew(d.blobs, blobs) && AllReadable(blobs, m.pre) ==> Possible(d, Recorded(m, Returns(u), blobs))
  {
    forall blobs | Grew(d.blobs, blobs) && AllReadable(blobs, m.pre) ensures Possible(d, Recorded(m, Returns(u), blobs)) {
      CapturedAreWhole(d.blobs, blobs, m.pre);
    }
  }

  /** A mutation is recorded, the process ends, and a new service undoes it. */
  method RecordRestartUndo(s: Service, ghost trees: seq<Tree>, id: Id, runId: string, createdAt: int,
                           paths: seq<Path>, u: Tree)
    returns (t: Service, r: Result<UndoResult, UndoError>)
    requires s.journal.InStep() && InOrder(Disk(s.tree, s.journal.file, s.blobs), trees)
    requires var m := Prepared(id, runId, createdAt, CaptureAll(s.tree, Distinct(paths)));
             && FreshTo(s.journal.Live(), m) && WellPrepared(m, s.tree) && Confined(m, s.tree, u) && u != s.tree
             && Storable(s.blobs, m.pre)
    modifies s, s.journal
    ensures s.tree == u && t.Valid() && t.tree == old(s.tree)
    ensures r.Success? && r.value.transactions == [id]
    ensures Active(t.journal.Live()) == Active(old(s.journal.Live()))
  {
    hide *;
    ghost var m;
    t, m := RecordRestart(s, trees, id, runId, createdAt, paths, u);
    ghost var chosen := Kept(ByTime(Active(t.journal.Live())), Select(ByTime(Active(t.journal.Live())), ""), true);
    OneId(chosen);
    r := t.Undo("");
  }

  lemma OneId(chosen: seq<Record>)
    requires |chosen| == 1
    ensures Reversed(Ids(chosen)) == [chosen[0].id]
  {
  }

  method RecordRestart(s: Service, ghost trees: seq<Tree>, id: Id, runId: string, createdAt: int, paths: seq<Path>, u: Tree)
    returns (t: Service, ghost m: Prepared)
    requires s.journal.InStep() && InOrder(Disk(s.tree, s.journal.file, s.blobs), trees)
    requires var m := Prepared(id, runId, createdAt, CaptureAll(s.tree, Distinct(paths)));
             && FreshTo(s.journal.Live(), m) && WellPrepared(m, s.tree) && Confined(m, s.tree, u) && u != s.tree
             && Storable(s.blobs, m.pre)
    modifies s, s.journal
    ensures fresh(t) && fresh(t.journal) && t.Valid() && s.tree == t.tree == u
    ensures var active := ByTime(Active(t.journal.Live()));
            var chosen := Kept(active, Select(active, ""), true);
            && |chosen| == 1 && chosen[0].id == id
            && Conflicts(ComposeFinalRoots(chosen), u) == []
            && UndoSelected(u, active, Select(active, "")) == Some(old(s.tree))
            && Active(MarkAllUndone(t.journal.Live(), chosen)) == Active(old(s.journal.Live()))
  {
    assert s.Valid() && s.journal.file.tail.Whole?;
    ghost var before := Disk(s.tree, s.journal.file, s.blobs);
    PossibleRecord(before, Prepared(id, runId, createdAt, CaptureAll(s.tree, Distinct(paths))), u);
    hide Coherent, InOrder, Active, RestoreBackwards, UndoSelected, ComposeFinalRoots, Recover, CaptureAll, Kept, Conflicts, Select;
    hide Backed, FreshTo, WellPrepared, Confined, Replay, ApplyAll, SettleLines, AppendAll, Storable, AllWhole, AllReadable;
    hide Possible, TreeAfter, Grew, JournalFile.Append, MarkAllUndone;
    var changed;
    changed, m := s.Record(id, runId, createdAt, paths, Returns(u));
    ReturnedTree(m, Returns(u), s.blobs);
    LatestRecordUndone(before, trees, m, u, s.blobs);
    t := new Service(s.tree, s.journal.file, s.blobs);
  }
}
