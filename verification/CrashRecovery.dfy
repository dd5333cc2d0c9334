/** Crash atomicity of a recorded mutation, over every interleaving of work, torn writes, crashes and recoveries. */
module CrashRecovery {
  import opened Paths
  import opened FileTree
  import opened Snapshots
  import opened BlobStore
  import opened MutationJournal
  import opened Wrappers

  /** All that survives a crash. */
  datatype Disk = Disk(tree: Tree, file: JournalFile, blobs: Blobs)

  /** What the service was doing; lost in a crash, never consulted by recovery. */
  datatype Phase = Idle | Busy(m: Prepared, base: Tree)

  datatype World = World(disk: Disk, phase: Phase)

  // ---- Recovery: a function of the disk alone ----

  function RollBackAll(d: Disk, incomplete: seq<Prepared>): Option<Disk>
    decreases |incomplete|
  {
    if incomplete == [] then Some(d)
    else
      var tree :- RestoreStored(d.blobs, d.tree, incomplete[0].pre);
      var line := RolledBackEvent(incomplete[0].id, "recovered-incomplete");
      RollBackAll(Disk(tree, d.file.Append(line), d.blobs), incomplete[1..])
  }

  /** Rebuilding the service: replay the journal, then roll back what is incomplete. */
  function Recover(d: Disk): Option<Disk> {
    RollBackAll(d, Incomplete(d))
  }

  function Incomplete(d: Disk): seq<Prepared> {
    Replay(d.file.lines).prepared
  }

  // ---- Steps ----

  /** A mutation about to be prepared: snapshots of the tree as it stands. */
  ghost predicate WellPrepared(m: Prepared, tree: Tree) {
    && m.pre == CaptureAll(tree, PathsOf(m.pre))
    && OuterRootsFirst(PathsOf(m.pre))
    && ParentsExist(tree, PathsOf(m.pre))
  }

  /** The tree while a mutation runs: anything, as long as the recorded roots still have a place to be. */
  ghost predicate Disturbed(m: Prepared, base: Tree, tree: Tree) {
    TreeShaped(tree) && ParentsExist(Overwrite(tree, PathsOf(m.pre), base), PathsOf(m.pre))
  }

  datatype Move =
    | External(tree: Tree)              // any change while nothing is recorded, an undo's writes included
    | MarkUndone(id: Id)                // an undo's journal line
    | StoreBlobs(blobs: Blobs)          // captures store what is not there yet
    | Begin(m: Prepared)                // the prepared line is on disk
    | Touch(tree: Tree)                 // one step of the action, or of a restore after a failure or a restart
    | Commit                            // the committed line is on disk
    | NoChange                          // pre and post snapshots are equal
    | RollBack(reason: string)          // the restore is complete and its line is on disk
    | Crash                             // the process dies and a new one starts
    | CutBlob(name: Content, part: Content)      // it dies while a blob is written
    | CutLine(line: Move, readable: bool)        // it dies while a line is written, at the latest before its newline
  {
    predicate WritesLine() {
      MarkUndone? || Begin? || Commit? || NoChange? || RollBack?
    }
  }

  ghost predicate Enabled(w: World, mv: Move)
    decreases mv
  {
    var d := w.disk;
    match mv
    case External(tree) => w.phase.Idle? && TreeShaped(tree)
    case MarkUndone(id) => w.phase.Idle?
    case StoreBlobs(blobs) => Grew(d.blobs, blobs)
    case Begin(m) => w.phase.Idle? && WellPrepared(m, d.tree) && AllReadable(d.blobs, m.pre)
    case Touch(tree) => w.phase.Busy? && Disturbed(w.phase.m, w.phase.base, tree)
    case Commit => w.phase.Busy? && CaptureAll(d.tree, PathsOf(w.phase.m.pre)) != w.phase.m.pre
    case NoChange => w.phase.Busy? && CaptureAll(d.tree, PathsOf(w.phase.m.pre)) == w.phase.m.pre
    case RollBack(_) => w.phase.Busy? && RestoreStored(d.blobs, d.tree, w.phase.m.pre) == Some(d.tree)
    case Crash => true
    case CutBlob(name, _) => name !in d.blobs
    case CutLine(line, _) => line.WritesLine() && Enabled(w, line)
  }

  ghost function LineOf(w: World, mv: Move): Event
    requires mv.WritesLine() && Enabled(w, mv)
  {
    match mv
    case MarkUndone(id) => UndoneEvent(id)
    case Begin(m) => PreparedEvent(m)
    case Commit => CommittedEvent(w.phase.m.id, CaptureAll(w.disk.tree, PathsOf(w.phase.m.pre)))
    case NoChange => RolledBackEvent(w.phase.m.id, "no-change")
    case RollBack(reason) => RolledBackEvent(w.phase.m.id, reason)
  }

  ghost function PhaseAfter(w: World, mv: Move): Phase {
    if mv.Begin? then Busy(mv.m, w.disk.tree) else Idle
  }

  ghost function Next(w: World, mv: Move): World
    requires Enabled(w, mv)
  {
    var d := w.disk;
    match mv
    case External(tree) => w.(disk := d.(tree := tree))
    case Touch(tree) => w.(disk := d.(tree := tree))
    case StoreBlobs(blobs) => w.(disk := d.(blobs := blobs))
    case CutBlob(name, part) => w.(disk := d.(blobs := d.blobs[name := part]))
    case Crash => w
    case CutLine(line, readable) =>
      World(d.(file := d.file.Cut(LineOf(w, line), readable)),
            if readable && d.file.tail.Whole? then PhaseAfter(w, line) else w.phase)
    case _ => World(d.(file := d.file.Append(LineOf(w, mv))), PhaseAfter(w, mv))
  }

  ghost predicate IsRun(w: World, moves: seq<Move>)
    decreases |moves|
  {
    moves == [] || (Enabled(w, moves[0]) && IsRun(Next(w, moves[0]), moves[1..]))
  }

  ghost function After(w: World, moves: seq<Move>): World
    requires IsRun(w, moves)
    decreases |moves|
  {
    if moves == [] then w else After(Next(w, moves[0]), moves[1..])
  }

  /** No line is written behind an incomplete one. */
  ghost predicate LinesMeetNewlines(w: World, moves: seq<Move>)
    requires IsRun(w, moves)
    decreases |moves|
  {
    moves == [] || (MeetsNewline(w, moves[0]) && LinesMeetNewlines(Next(w, moves[0]), moves[1..]))
  }

  predicate MeetsNewline(w: World, mv: Move) {
    mv.WritesLine() || mv.CutLine? ==> w.disk.file.tail.Whole?
  }

  // ---- What every step keeps ----

  /** The last line that can be read prepares `m`; before it nothing was incomplete. */
  predicate EndsPreparing(lines: seq<Event>, m: Prepared) {
    lines != [] && lines[|lines| - 1] == PreparedEvent(m) && Replay(lines[..|lines| - 1]).prepared == []
  }

  ghost predicate Sound(w: World) {
    && TreeShaped(w.disk.tree)
    && (match w.phase
        case Idle => Incomplete(w.disk) == []
        case Busy(m, base) =>
          && EndsPreparing(w.disk.file.lines, m)
          && TreeShaped(base) && WellPrepared(m, base) && AllReadable(w.disk.blobs, m.pre)
          && Disturbed(m, base, w.disk.tree))
  }

  lemma {:induction false} PreparingIsIncomplete(lines: seq<Event>, m: Prepared)
    requires EndsPreparing(lines, m)
    ensures Replay(lines).prepared == [m]
  {
  }

  lemma {:induction false} Prepares(lines: seq<Event>, m: Prepared)
    requires Replay(lines).prepared == []
    ensures EndsPreparing(lines + [PreparedEvent(m)], m)
  {
    assert (lines + [PreparedEvent(m)])[..|lines|] == lines;
  }

  /** A line about the only prepared mutation settles it. */
  lemma {:induction false} Settles(s: State, m: Prepared, e: Event)
    requires s.prepared == [m]
    requires (e.CommittedEvent? || e.RolledBackEvent?) && e.id == m.id
    ensures Apply(s, e).prepared == []
  {
    assert FindPrepared([m], m.id) == Some(m);
    assert DropPrepared([m], m.id) == DropPrepared([m][1..], m.id) == [];
  }

  lemma {:induction false} OverwriteWithItself(t: Tree, roots: seq<Path>)
    ensures Overwrite(t, roots, t) == t
  {
    var r := Overwrite(t, roots, t);
    forall q ensures Same(r, t, q) {
      if Covered(roots, q) { assert Same(r, t, q); }
    }
    SameEverywhere(r, t);
  }

  /** A line that lands settles the unfinished mutation, or begins one. */
  lemma {:induction false} LineLands(w: World, mv: Move, file: JournalFile)
    requires Sound(w) && mv.WritesLine() && Enabled(w, mv) && file.lines == w.disk.file.lines + [LineOf(w, mv)]
    ensures Sound(World(w.disk.(file := file), PhaseAfter(w, mv)))
  {
    var lines := w.disk.file.lines;
    ReplayAppend(lines, LineOf(w, mv));
    if mv.Begin? {
      Prepares(lines, mv.m);
      OverwriteWithItself(w.disk.tree, PathsOf(mv.m.pre));
    } else if w.phase.Busy? {
      PreparingIsIncomplete(lines, w.phase.m);
      Settles(Replay(lines), w.phase.m, LineOf(w, mv));
    }
  }

  lemma {:induction false} StoreKeepsSound(w: World, blobs: Blobs)
    requires Sound(w) && Extends(w.disk.blobs, blobs)
    ensures Sound(w.(disk := w.disk.(blobs := blobs)))
  {
    if w.phase.Busy? { StoringKeepsReading(w.disk.blobs, blobs, w.phase.m.pre); }
  }

  lemma {:induction false} StepKeepsSound(w: World, mv: Move)
    requires Sound(w) && Enabled(w, mv) && MeetsNewline(w, mv)
    ensures Sound(Next(w, mv)) && Extends(w.disk.blobs, Next(w, mv).disk.blobs)
  {
    hide Incomplete, EndsPreparing, WellPrepared, Disturbed, AllReadable;
    if mv.WritesLine() {
      LineLands(w, mv, w.disk.file.Append(LineOf(w, mv)));
    } else if mv.CutLine? {
      if mv.readable {
        LineLands(w, mv.line, w.disk.file.Cut(LineOf(w, mv.line), true));
      } else {
        TailDoesNotMatter(w, w.disk.file.Cut(LineOf(w, mv.line), false));
      }
    } else if mv.StoreBlobs? || mv.CutBlob? {
      StoreKeepsSound(w, Next(w, mv).disk.blobs);
    } else {
      TreeKeepsSound(w, mv);
    }
  }

  lemma {:induction false} TreeKeepsSound(w: World, mv: Move)
    requires Sound(w) && Enabled(w, mv) && (mv.External? || mv.Touch? || mv.Crash?)
    ensures Sound(Next(w, mv))
  {
  }

  lemma {:induction false} TailDoesNotMatter(w: World, file: JournalFile)
    requires Sound(w) && file.lines == w.disk.file.lines
    ensures Sound(w.(disk := w.disk.(file := file)))
  {
  }

  lemma {:induction false} RunsAreSound(w: World, moves: seq<Move>)
    requires Sound(w) && IsRun(w, moves) && LinesMeetNewlines(w, moves)
    ensures Sound(After(w, moves)) && Extends(w.disk.blobs, After(w, moves).disk.blobs)
    decreases |moves|
  {
    if moves != [] {
      StepKeepsSound(w, moves[0]);
      RunsAreSound(Next(w, moves[0]), moves[1..]);
    }
  }

  // ---- What recovery finds and leaves ----

  /** Recovery of a single unfinished mutation. */
  ghost function RolledBack(d: Disk, m: Prepared, base: Tree): Disk {
    Disk(Overwrite(d.tree, PathsOf(m.pre), LoadTree(d.blobs, base)),
         d.file.Append(RolledBackEvent(m.id, "recovered-incomplete")), d.blobs)
  }

  lemma {:induction false} SoundRecovers(w: World)
    requires Sound(w)
    ensures w.phase.Idle? ==> Recover(w.disk) == Some(w.disk)
    ensures w.phase.Busy? ==> Recover(w.disk) == Some(RolledBack(w.disk, w.phase.m, w.phase.base))
  {
    if w.phase.Busy? {
      var m, d := w.phase.m, w.disk;
      PreparingIsIncomplete(d.file.lines, m);
      RestoreStoredIsExact(d.blobs, w.phase.base, d.tree, PathsOf(m.pre));
      assert [m][1..] == [];
      assert RollBackAll(RolledBack(d, m, w.phase.base), []) == Some(RolledBack(d, m, w.phase.base));
    }
  }

  /** The rolled-back line settles the mutation on disk exactly when it is not glued to half a line. */
  lemma {:induction false} RecoverySettles(file: JournalFile, m: Prepared, reason: string)
    requires EndsPreparing(file.lines, m)
    ensures Replay(file.Append(RolledBackEvent(m.id, reason)).lines).prepared == (if file.tail.Torn? then [m] else [])
  {
    var e := RolledBackEvent(m.id, reason);
    PreparingIsIncomplete(file.lines, m);
    ReplayAppend(file.lines, e);
    Settles(Replay(file.lines), m, e);
  }

  /**
   * Whatever happened before, a crash now is survived: recovery succeeds and puts every recorded root of an
   * unfinished mutation back from the store, and nothing else. The roots are as they were prepared exactly when
   * every blob the pre-image names is whole; nothing stays incomplete exactly when no half line was there; and
   * then a second recovery changes nothing.
   */
  lemma {:induction false} CrashAnywhereIsRecovered(tree: Tree, blobs: Blobs, moves: seq<Move>)
    requires var start := World(Disk(tree, JournalFile([], Whole), blobs), Idle);
             TreeShaped(tree) && IsRun(start, moves) && LinesMeetNewlines(start, moves)
    ensures var w := After(World(Disk(tree, JournalFile([], Whole), blobs), Idle), moves);
            var r := Recover(w.disk);
            && r.Some? && r.value.blobs == w.disk.blobs
            && (w.phase.Idle? ==> r.value == w.disk)
            && (w.phase.Busy? ==>
                  var m := w.phase.m;
                  var roots := PathsOf(m.pre);
                  && (forall q :: !Covered(roots, q) ==> Same(r.value.tree, w.disk.tree, q))
                  && CaptureAll(r.value.tree, roots) == LoadSnapshots(w.disk.blobs, m.pre)
                  && (r.value.tree == Overwrite(w.disk.tree, roots, w.phase.base) <==> AllWhole(w.disk.blobs, m.pre)))
            && (Incomplete(r.value) == [] <==> w.phase.Idle? || !w.disk.file.tail.Torn?)
            && (Incomplete(r.value) == [] ==> Recover(r.value) == r)
  {
    var start := World(Disk(tree, JournalFile([], Whole), blobs), Idle);
    var w := After(start, moves);
    RunsAreSound(start, moves);
    SoundRecovers(w);
    if w.phase.Busy? {
      RecoverySettles(w.disk.file, w.phase.m, "recovered-incomplete");
      RolledBackRoots(w.disk, w.phase.m, w.phase.base);
    }
  }

  lemma {:induction false} RolledBackRoots(d: Disk, m: Prepared, base: Tree)
    requires TreeShaped(base) && WellPrepared(m, base) && AllReadable(d.blobs, m.pre)
    ensures var roots := PathsOf(m.pre);
            var back := RolledBack(d, m, base).tree;
            && CaptureAll(back, roots) == LoadSnapshots(d.blobs, m.pre)
            && (back == Overwrite(d.tree, roots, base) <==> AllWhole(d.blobs, m.pre))
            && (CaptureAll(back, roots) == m.pre <==> AllWhole(d.blobs, m.pre))
  {
    var roots := PathsOf(m.pre);
    RestoreNeedsWholeBlobs(d.blobs, base, d.tree, roots);
    CapturesAgree(RolledBack(d, m, base).tree, LoadTree(d.blobs, base), roots);
    LoadedCaptures(d.blobs, base, roots);
    WholeLoads(d.blobs, m.pre);
  }

  /** What a rollback leaves: the recorded roots as the store has them, everything else as the action left it. */
  lemma {:induction false} RollbackRestores(d: Disk, m: Prepared, base: Tree)
    requires TreeShaped(base) && WellPrepared(m, base) && Disturbed(m, base, d.tree) && AllReadable(d.blobs, m.pre)
    ensures var back := RolledBack(d, m, base).tree;
            && RestoreStored(d.blobs, d.tree, m.pre) == Some(back)
            && RestoreStored(d.blobs, back, m.pre) == Some(back)
            && Disturbed(m, base, back)
            && CaptureAll(back, PathsOf(m.pre)) == LoadSnapshots(d.blobs, m.pre)
  {
    var roots, l := PathsOf(m.pre), LoadTree(d.blobs, base);
    var back := Overwrite(d.tree, roots, l);
    RestoreStoredIsExact(d.blobs, base, d.tree, roots);
    LoadTreeKeepsShape(d.blobs, base, d.tree, roots);
    OverwriteKeepsShape(d.tree, roots, l);
    forall q ensures Same(Overwrite(back, roots, l), back, q) && Same(Overwrite(back, roots, base), Overwrite(d.tree, roots, base), q) {
      if Covered(roots, q) { assert Same(back, l, q); } else { assert Same(back, d.tree, q); }
    }
    SameEverywhere(Overwrite(back, roots, l), back);
    SameEverywhere(Overwrite(back, roots, base), Overwrite(d.tree, roots, base));
    RestoreStoredIsExact(d.blobs, base, back, roots);
    RolledBackRoots(d, m, base);
  }

  /** A start after a crash is itself a run: one restore, one line, whatever it may be cut into by further crashes. */
  lemma {:induction false} RecoveryIsARun(w: World)
    requires Sound(w) && w.phase.Busy?
    ensures var moves := [Crash, Touch(RolledBack(w.disk, w.phase.m, w.phase.base).tree), RollBack("recovered-incomplete")];
            && IsRun(w, moves)
            && After(w, moves).phase.Idle?
            && Recover(w.disk) == Some(After(w, moves).disk)
  {
    SoundRecovers(w);
    RollbackRestores(w.disk, w.phase.m, w.phase.base);
    RunOfThree(w, Crash, Touch(RolledBack(w.disk, w.phase.m, w.phase.base).tree), RollBack("recovered-incomplete"));
  }

  lemma {:induction false} RunOfThree(w: World, a: Move, b: Move, c: Move)
    requires Enabled(w, a) && Enabled(Next(w, a), b) && Enabled(Next(Next(w, a), b), c)
    ensures IsRun(w, [a, b, c]) && After(w, [a, b, c]) == Next(Next(Next(w, a), b), c)
  {
    hide Enabled, Next;
    var v := Next(w, a);
    var u := Next(v, b);
    var x := Next(u, c);
    assert [a, b, c][1..] == [b, c] && [b, c][1..] == [c] && [c][1..] == [];
    assert IsRun(x, []) && After(x, []) == x;
    assert IsRun(u, [c]) && After(u, [c]) == x;
    assert IsRun(v, [b, c]) && After(v, [b, c]) == x;
  }

  lemma {:induction false} RunStep(w: World, a: Move, moves: seq<Move>)
    requires Enabled(w, a) && IsRun(Next(w, a), moves)
    ensures IsRun(w, [a] + moves) && After(w, [a] + moves) == After(Next(w, a), moves)
    ensures MeetsNewline(w, a) && LinesMeetNewlines(Next(w, a), moves) ==> LinesMeetNewlines(w, [a] + moves)
  {
    hide Enabled, Next, MeetsNewline;
    assert ([a] + moves)[1..] == moves;
  }

  // ---- When the store is whole ----

  /** A torn blob never harms a pre-image already stored: what was whole stays whole, over any run. */
  lemma {:induction false} WholeStaysWhole(w: World, moves: seq<Move>, snaps: seq<RootSnapshot>)
    requires IsRun(w, moves) && AllReadable(w.disk.blobs, snaps)
    ensures AllWhole(After(w, moves).disk.blobs, snaps) <==> AllWhole(w.disk.blobs, snaps)
    ensures AllReadable(After(w, moves).disk.blobs, snaps)
    decreases |moves|
  {
    if moves != [] {
      StoringKeepsReading(w.disk.blobs, Next(w, moves[0]).disk.blobs, snaps);
      WholeStaysWhole(Next(w, moves[0]), moves[1..], snaps);
    }
  }

  predicate AllBlobsWhole(blobs: Blobs) {
    forall c :: c in blobs ==> blobs[c] == c
  }

  /** Only a crash inside a blob write puts a torn blob there. */
  lemma {:induction false} TornOnlyByCut(w: World, moves: seq<Move>)
    requires IsRun(w, moves) && AllBlobsWhole(w.disk.blobs)
    requires forall i :: 0 <= i < |moves| && moves[i].CutBlob? ==> moves[i].part == moves[i].name
    ensures AllBlobsWhole(After(w, moves).disk.blobs)
    decreases |moves|
  {
    if moves != [] {
      assert moves[0].CutBlob? ==> moves[0].part == moves[0].name;
      TornOnlyByCut(Next(w, moves[0]), moves[1..]);
    }
  }

  function OneFile(n: Name, c: Content): Tree {
    map[[] := Directory, [n] := File(c)]
  }

  /**
   * The run in which it fails: the process dies while it stores the content of a file for the first time, the next
   * one records the same file, finds the name taken, and dies at work. Recovery writes the torn content into the file.
   */
  lemma {:induction false} TornBlobReachesTheFile(n: Name, c: Content, part: Content, now: Content, m: Prepared)
    requires part != c && m.pre == CaptureAll(OneFile(n, c), [[n]])
    ensures var start := World(Disk(OneFile(n, c), JournalFile([], Whole), map[]), Idle);
            var moves := [CutBlob(c, part), Crash, Begin(m), Touch(OneFile(n, now)), Crash];
            && IsRun(start, moves) && LinesMeetNewlines(start, moves)
            && var r := Recover(After(start, moves).disk);
               r.Some? && r.value.tree == OneFile(n, part) != OneFile(n, c)
  {
    var base, t, torn := OneFile(n, c), OneFile(n, now), map[c := part];
    var lines := JournalFile([PreparedEvent(m)], Whole);
    OneFileSnapshot(n, c, m);
    OneFileRestored(n, c, part, now);
    assert AllReadable(torn, m.pre);
    assert EndsPreparing(lines.lines, m) by {
      assert [PreparedEvent(m)] == [] + [PreparedEvent(m)] && Replay([]) == EMPTY;
      Prepares([], m);
    }
    hide OneFile, CaptureAll, Overwrite, Replay, LoadTree, Recover, IsRun, After, LinesMeetNewlines, AllReadable;
    RecordBehindTornBlob(base, t, c, part, m);
    SoundRecovers(World(Disk(t, lines, torn), Busy(m, base)));
  }

  lemma {:induction false} RecordBehindTornBlob(base: Tree, t: Tree, c: Content, part: Content, m: Prepared)
    requires TreeShaped(base) && WellPrepared(m, base) && Disturbed(m, base, t) && AllReadable(map[c := part], m.pre)
    ensures var start := World(Disk(base, JournalFile([], Whole), map[]), Idle);
            var moves := [CutBlob(c, part), Crash, Begin(m), Touch(t), Crash];
            && IsRun(start, moves) && LinesMeetNewlines(start, moves)
            && After(start, moves) == World(Disk(t, JournalFile([PreparedEvent(m)], Whole), map[c := part]), Busy(m, base))
  {
    var file: JournalFile, torn: Blobs := JournalFile([], Whole), map[c := part];
    assert file.lines + [PreparedEvent(m)] == [PreparedEvent(m)];
    var w0, w1 := World(Disk(base, file, map[]), Idle), World(Disk(base, file, torn), Idle);
    var w2 := World(Disk(base, file.Append(PreparedEvent(m)), torn), Busy(m, base));
    var w3 := World(Disk(t, file.Append(PreparedEvent(m)), torn), Busy(m, base));
    hide WellPrepared, Disturbed, TreeShaped, Replay, AllReadable, IsRun, After, LinesMeetNewlines;
    Stays(w3);
    RunStep(w3, Crash, []);
    RunStep(w2, Touch(t), [Crash]);
    RunStep(w1, Begin(m), [Touch(t)] + [Crash]);
    RunStep(w1, Crash, [Begin(m)] + ([Touch(t)] + [Crash]));
    RunStep(w0, CutBlob(c, part), [Crash] + ([Begin(m)] + ([Touch(t)] + [Crash])));
    assert [CutBlob(c, part)] + ([Crash] + ([Begin(m)] + ([Touch(t)] + [Crash]))) == [CutBlob(c, part), Crash, Begin(m), Touch(t), Crash];
    assert [Crash] + [] == [Crash];
  }

  lemma Stays(w: World)
    ensures IsRun(w, []) && After(w, []) == w && LinesMeetNewlines(w, [])
  {
  }

  lemma {:induction false} OneFileRestored(n: Name, c: Content, part: Content, now: Content)
    requires part != c
    ensures var base, t := OneFile(n, c), OneFile(n, now);
            && TreeShaped(t) && Overwrite(t, [[n]], base) == base && OneFile(n, part) != base
            && Overwrite(t, [[n]], LoadTree(map[c := part], base)) == OneFile(n, part)
  {
    var base, t := OneFile(n, c), OneFile(n, now);
    var back, got := Overwrite(t, [[n]], base), Overwrite(t, [[n]], LoadTree(map[c := part], base));
    forall q ensures Same(back, base, q) && Same(got, OneFile(n, part), q) {
      CoveredByOne([n], q);
    }
    SameEverywhere(back, base);
    SameEverywhere(got, OneFile(n, part));
    assert OneFile(n, part)[[n]] != base[[n]];
  }

  lemma {:induction false} OneFileSnapshot(n: Name, c: Content, m: Prepared)
    requires m.pre == CaptureAll(OneFile(n, c), [[n]])
    ensures PathsOf(m.pre) == [[n]] && m.pre == [RootSnapshot([n], [Entry([n], File(c))])]
    ensures TreeShaped(OneFile(n, c)) && WellPrepared(m, OneFile(n, c))
  {
    assert m.pre == [m.pre[0]] && Capture(OneFile(n, c), [n]) == [Entry([n], File(c))];
    assert PathsOf(m.pre) == [[n]];
  }

  // ---- One recorded mutation ----

  /** How far a record call had come when the process died. */
  datatype Point =
    | BeforePrepared
    | Running                     // the prepared line is on disk; captures, the action or its rollback are at work
    | AfterCommitted
    | AfterNoChange
    | AfterThrow(reason: string)  // the roots are restored and their line is on disk

  /** The lines a record call has added by then, as far as they can be read. */
  function Added(m: Prepared, post: seq<RootSnapshot>, p: Point): seq<Event> {
    match p
    case BeforePrepared => []
    case Running => [PreparedEvent(m)]
    case AfterCommitted => [PreparedEvent(m), CommittedEvent(m.id, post)]
    case AfterNoChange => [PreparedEvent(m), RolledBackEvent(m.id, "no-change")]
    case AfterThrow(reason) => [PreparedEvent(m), RolledBackEvent(m.id, reason)]
  }

  /** A half line is one not yet readable, the prepared or the settling one; a line without newline is the last. */
  predicate TailAt(p: Point, tail: Tail) {
    match p
    case BeforePrepared => !tail.Unterminated?
    case Running => true
    case _ => !tail.Torn?
  }

  /** The disks it can leave behind at that point, torn lines and torn blobs included. */
  ghost predicate CrashPoint(d: Disk, before: Disk, m: Prepared, post: seq<RootSnapshot>, p: Point) {
    && d.file.lines == before.file.lines + Added(m, post, p) && TailAt(p, d.file.tail)
    && Extends(before.blobs, d.blobs) && (p.BeforePrepared? || AllReadable(d.blobs, m.pre))
    && (match p
        case BeforePrepared => d.tree == before.tree
        case Running => Disturbed(m, before.tree, d.tree)
        case AfterCommitted => TreeShaped(d.tree) && CaptureAll(d.tree, PathsOf(m.pre)) == post
        case AfterNoChange => TreeShaped(d.tree) && CaptureAll(d.tree, PathsOf(m.pre)) == m.pre
        case AfterThrow(_) =>
          exists u :: Disturbed(m, before.tree, u) && RestoreStored(d.blobs, u, m.pre) == Some(d.tree))
  }

  /** After the settling line there is nothing to recover. */
  lemma {:induction false} SettledIsLeftAlone(x: seq<Event>, m: Prepared, e: Event, d: Disk)
    requires Replay(x).prepared == [] && TreeShaped(d.tree)
    requires (e.CommittedEvent? || e.RolledBackEvent?) && e.id == m.id
    requires d.file.lines == x + [PreparedEvent(m), e]
    ensures Recover(d) == Some(d) && Incomplete(d) == []
  {
    var p := PreparedEvent(m);
    assert x + [p, e] == x + [p] + [e];
    Prepares(x, m);
    PreparingIsIncomplete(x + [p], m);
    ReplayAppend(x + [p], e);
    Settles(Replay(x + [p]), m, e);
    SoundRecovers(World(d, Idle));
  }

  lemma {:induction false} RunningIsRolledBack(x: seq<Event>, m: Prepared, base: Tree, d: Disk)
    requires TreeShaped(base) && Replay(x).prepared == [] && WellPrepared(m, base)
    requires d.file.lines == x + [PreparedEvent(m)] && Disturbed(m, base, d.tree) && AllReadable(d.blobs, m.pre)
    ensures Recover(d) == Some(RolledBack(d, m, base))
    ensures Incomplete(RolledBack(d, m, base)) == [] <==> !d.file.tail.Torn?
    ensures var now := CaptureAll(RolledBack(d, m, base).tree, PathsOf(m.pre));
            now == LoadSnapshots(d.blobs, m.pre) && (now == m.pre <==> AllWhole(d.blobs, m.pre))
  {
    Prepares(x, m);
    SoundRecovers(World(d, Busy(m, base)));
    RecoverySettles(d.file, m, "recovered-incomplete");
    RolledBackRoots(d, m, base);
  }

  /**
   * Wherever a record call is cut short, inside a blob or a line too: recovery succeeds, touches nothing outside the
   * roots, and leaves a mutation incomplete exactly if it died with half of its settling line written. The roots hold
   * the post-image if and only if the committed line can be read, else what the store has of the pre-image: the
   * pre-image itself exactly when its blobs are whole, or when nothing had to be read.
   */
  lemma {:induction false} RecordIsAtomic(before: Disk, m: Prepared, post: seq<RootSnapshot>, p: Point, d: Disk)
    requires TreeShaped(before.tree) && Incomplete(before) == []
    requires WellPrepared(m, before.tree) && CrashPoint(d, before, m, post, p)
    ensures var r := Recover(d);
            && r.Some?
            && (Incomplete(r.value) == [] <==> !(p.Running? && d.file.tail.Torn?))
            && (p.AfterCommitted? <==> CommittedEvent(m.id, post) in d.file.lines[|before.file.lines|..])
            && (forall q :: !Covered(PathsOf(m.pre), q) ==> Same(r.value.tree, d.tree, q))
            && var now := CaptureAll(r.value.tree, PathsOf(m.pre));
               && now == (if p.AfterCommitted? then post
                          else if p.Running? || p.AfterThrow? then LoadSnapshots(d.blobs, m.pre)
                          else m.pre)
               && (p.Running? || p.AfterThrow? ==> (now == m.pre <==> AllWhole(d.blobs, m.pre)))
  {
    hide Replay, CaptureAll, RestoreStored, RollBackAll, Recover, AllReadable, AllWhole, Incomplete;
    var x := before.file.lines;
    assert d.file.lines[|x|..] == Added(m, post, p);
    assert Incomplete(before) == Replay(x).prepared by { IncompleteIs(before); }
    match p {
      case BeforePrepared => IdleIsLeftAlone(d, before);
      case Running => RunningIsRolledBack(x, m, before.tree, d);
      case AfterCommitted => SettledIsLeftAlone(x, m, CommittedEvent(m.id, post), d);
      case AfterNoChange => SettledIsLeftAlone(x, m, RolledBackEvent(m.id, "no-change"), d);
      case AfterThrow(reason) =>
        var u :| Disturbed(m, before.tree, u) && RestoreStored(d.blobs, u, m.pre) == Some(d.tree);
        RollbackRestores(d.(tree := u), m, before.tree);
        RolledBackRoots(d.(tree := u), m, before.tree);
        SettledIsLeftAlone(x, m, RolledBackEvent(m.id, reason), d);
    }
  }

  lemma IncompleteIs(d: Disk)
    ensures Incomplete(d) == Replay(d.file.lines).prepared
  {
  }

  lemma {:induction false} IdleIsLeftAlone(d: Disk, before: Disk)
    requires TreeShaped(before.tree) && Incomplete(before) == []
    requires d.file.lines == before.file.lines + [] && d.tree == before.tree
    ensures Recover(d) == Some(d) && Incomplete(d) == []
  {
    assert d.file.lines == before.file.lines;
    SoundRecovers(World(d, Idle));
  }

  // ---- Why whole lines are needed ----

  lemma {:induction false} RollBackInParts(d: Disk, first: seq<Prepared>, rest: seq<Prepared>)
    ensures RollBackAll(d, first + rest) ==
            var mid := RollBackAll(d, first);
            if mid.None? then None else RollBackAll(mid.value, rest)
    decreases |first|
  {
    if first == [] {
      assert first + rest == rest;
    } else {
      assert (first + rest)[1..] == first[1..] + rest;
      var tree := RestoreStored(d.blobs, d.tree, first[0].pre);
      if tree.Some? {
        var line := RolledBackEvent(first[0].id, "recovered-incomplete");
        RollBackInParts(Disk(tree.value, d.file.Append(line), d.blobs), first[1..], rest);
      }
    }
  }

  lemma {:induction false} PutNew(s: seq<Prepared>, m: Prepared)
    requires forall p :: p in s ==> p.id != m.id
    ensures PutPrepared(s, m) == s + [m]
  {
    if s != [] {
      assert s[0] in s;
      PutNew(s[1..], m);
      assert s == [s[0]] + s[1..];
    }
  }

  /**
   * A record begun after an incomplete line loses its prepared line. If it then dies having changed a root,
   * recovery brings the old roots back exactly when the file ended with a newline. Others may be incomplete
   * already: `mid` is the disk once these are rolled back.
   */
  lemma {:induction false} RecoveryNeedsWholeTail(file: JournalFile, before: Tree, m: Prepared, d: Disk, mid: Disk)
    requires TreeShaped(before) && WellPrepared(m, before) && AllWhole(d.blobs, m.pre)
    requires d.file == file.Append(PreparedEvent(m))
    requires forall p :: p in Replay(file.Kept()).prepared ==> p.id != m.id
    requires RollBackAll(d, Replay(file.Kept()).prepared) == Some(mid) && mid.blobs == d.blobs
    requires Disturbed(m, before, mid.tree) && CaptureAll(mid.tree, PathsOf(m.pre)) != m.pre
    ensures var r := Recover(d);
            r.Some? && (CaptureAll(r.value.tree, PathsOf(m.pre)) == m.pre <==> file.tail.Whole?)
  {
    if file.tail.Whole? {
      var stale := Replay(file.lines).prepared;
      ReplayAppend(file.lines, PreparedEvent(m));
      PutNew(stale, m);
      RollBackInParts(d, stale, [m]);
      WholeIsReadable(d.blobs, m.pre);
      RollbackRestores(mid, m, before);
      assert [m][1..] == [];
      var back := RolledBack(mid, m, before);
      assert RollBackAll(back, []) == Some(back);
    }
  }

  /**
   * A process that dies with half of a settling line written: recovery puts the roots back, but its own line is
   * glued to that half. On disk the mutation stays incomplete, and whatever is committed over its roots afterwards,
   * behind whole lines, is taken back to the old pre-image at the next start; exactly then.
   */
  lemma {:induction false} HalfLineReturns(d: Disk, m: Prepared, base: Tree, k: Prepared, e: Event, later: Disk)
    requires Sound(World(d, Busy(m, base))) && m.id != k.id
    requires (e.CommittedEvent? || e.RolledBackEvent?) && e.id == k.id
    requires later.file == RolledBack(d, m, base).file.Append(PreparedEvent(k)).Append(e)
    requires Disturbed(m, base, later.tree) && Extends(d.blobs, later.blobs)
    ensures Recover(d) == Some(RolledBack(d, m, base))
    ensures Incomplete(RolledBack(d, m, base)) == [] <==> !d.file.tail.Torn?
    ensures var r := Recover(later);
            && r.Some?
            && (Incomplete(later) == [] <==> !d.file.tail.Torn?)
            && r.value.tree == if d.file.tail.Torn?
                               then Overwrite(later.tree, PathsOf(m.pre), LoadTree(later.blobs, base)) else later.tree
  {
    SoundRecovers(World(d, Busy(m, base)));
    RecoverySettles(d.file, m, "recovered-incomplete");
    if d.file.tail.Torn? {
      HalfLineStays(d, m, base, k, e, later);
    } else {
      ShapeOf(m, base, later.tree);
      var file := RolledBack(d, m, base).file;
      TwoAppended(file, PreparedEvent(k), e);
      SettledIsLeftAlone(file.lines, k, e, later);
    }
  }

  lemma {:induction false} HalfLineStays(d: Disk, m: Prepared, base: Tree, k: Prepared, e: Event, later: Disk)
    requires Sound(World(d, Busy(m, base))) && m.id != k.id && d.file.tail.Torn?
    requires (e.CommittedEvent? || e.RolledBackEvent?) && e.id == k.id
    requires later.file == RolledBack(d, m, base).file.Append(PreparedEvent(k)).Append(e)
    requires Disturbed(m, base, later.tree) && Extends(d.blobs, later.blobs)
    ensures Incomplete(later) == [m] && Recover(later) == Some(RolledBack(later, m, base))
  {
    var x := d.file.lines[..|d.file.lines| - 1];
    assert d.file.lines == x + [PreparedEvent(m)];
    StoringKeepsReading(d.blobs, later.blobs, m.pre);
    hide Replay, Recover, Incomplete, Overwrite, LoadTree, Disturbed, WellPrepared, AllReadable;
    OthersSettleNothing(x, m, base, k, e, later);
  }

  lemma ShapeOf(m: Prepared, base: Tree, t: Tree)
    requires Disturbed(m, base, t)
    ensures TreeShaped(t)
  {
  }

  /** Lines of another mutation leave an incomplete one so. */
  lemma {:induction false} OthersSettleNothing(x: seq<Event>, m: Prepared, base: Tree, k: Prepared, e: Event, d: Disk)
    requires Replay(x).prepared == [] && TreeShaped(base) && WellPrepared(m, base) && Disturbed(m, base, d.tree)
    requires AllReadable(d.blobs, m.pre) && m.id != k.id && (e.CommittedEvent? || e.RolledBackEvent?) && e.id == k.id
    requires d.file.lines == x + [PreparedEvent(m)] + [PreparedEvent(k)] + [e]
    ensures Incomplete(d) == [m] && Recover(d) == Some(RolledBack(d, m, base))
  {
    var z := x + [PreparedEvent(m)];
    Prepares(x, m);
    PreparingIsIncomplete(z, m);
    ReplayAppend(z, PreparedEvent(k));
    PutNew([m], k);
    ReplayAppend(z + [PreparedEvent(k)], e);
    AnotherSettles(Replay(z + [PreparedEvent(k)]), m, k, e);
    OneIsRolledBack(d, m, base);
  }

  lemma {:induction false} AnotherSettles(s: State, m: Prepared, k: Prepared, e: Event)
    requires s.prepared == [m] + [k] && m.id != k.id
    requires (e.CommittedEvent? || e.RolledBackEvent?) && e.id == k.id
    ensures Apply(s, e).prepared == [m]
  {
    assert s.prepared[0] == m && s.prepared[1..] == [k] && [k][1..] == [];
    assert FindPrepared([k], k.id) == Some(k) && FindPrepared(s.prepared, k.id) == Some(k);
    assert DropPrepared([k], k.id) == DropPrepared([], k.id) == [];
    assert DropPrepared(s.prepared, k.id) == [m] + DropPrepared([k], k.id) == [m];
  }

  lemma {:induction false} OneIsRolledBack(d: Disk, m: Prepared, base: Tree)
    requires Incomplete(d) == [m] && TreeShaped(base) && WellPrepared(m, base) && Disturbed(m, base, d.tree)
    requires AllReadable(d.blobs, m.pre)
    ensures Recover(d) == Some(RolledBack(d, m, base))
  {
    RestoreStoredIsExact(d.blobs, base, d.tree, PathsOf(m.pre));
    assert [m][1..] == [];
    assert RollBackAll(RolledBack(d, m, base), []) == Some(RolledBack(d, m, base));
  }

  /**
   * A mutation whose committed line is read but lacks its newline is known to this process and, after one
   * more record call, unknown to the next, which then rolls it back: the roots lose their new contents
   * exactly when the newline was missing.
   */
  lemma {:induction false} CommitNeedsItsNewline(x: seq<Event>, m: Prepared, post: seq<RootSnapshot>, file: JournalFile,
                                                 base: Tree, k: Prepared, e: Event, d: Disk)
    requires TreeShaped(base) && Replay(x).prepared == [] && WellPrepared(m, base) && m.id != k.id
    requires (e.CommittedEvent? || e.RolledBackEvent?) && e.id == k.id
    requires Disturbed(m, base, d.tree) && CaptureAll(d.tree, PathsOf(m.pre)) == post != m.pre && AllReadable(d.blobs, m.pre)
    requires file.lines == x + [PreparedEvent(m), CommittedEvent(m.id, post)]
    requires d.file == file.Append(PreparedEvent(k)).Append(e)
    ensures Recover(d.(file := file)) == Some(d.(file := file))
    ensures var r := Recover(d);
            r.Some? && CaptureAll(r.value.tree, PathsOf(m.pre)) == if file.tail.Unterminated? then LoadSnapshots(d.blobs, m.pre) else post
  {
    hide Replay, Apply, Recover, RollBackAll, CaptureAll, AllReadable, WellPrepared, Disturbed, LoadSnapshots, TreeShaped;
    ShapeOf(m, base, d.tree);
    SettledIsLeftAlone(x, m, CommittedEvent(m.id, post), d.(file := file));
    TwoAppended(file, PreparedEvent(k), e);
    hide JournalFile.Append;
    if file.tail.Unterminated? {
      assert file.Kept() == x + [PreparedEvent(m)];
      LineOfAnotherSettlesNothing(x, m, e, d, base);
    } else if file.tail.Whole? {
      SettledIsLeftAlone(file.lines, k, e, d);
    } else {
      LineOfNobodyChangesNothing(file.lines, e, d);
    }
  }

  lemma {:induction false} TwoAppended(file: JournalFile, a: Event, b: Event)
    ensures file.Append(a).Append(b).lines == if file.tail.Whole? then file.lines + [a, b] else file.Kept() + [b]
  {
    assert file.lines + [a] + [b] == file.lines + [a, b];
  }

  /** The settling line of a record whose prepared line was lost leaves the other one incomplete. */
  lemma {:induction false} LineOfAnotherSettlesNothing(x: seq<Event>, m: Prepared, e: Event, d: Disk, base: Tree)
    requires Replay(x).prepared == [] && TreeShaped(base) && WellPrepared(m, base) && Disturbed(m, base, d.tree)
    requires (e.CommittedEvent? || e.RolledBackEvent?) && e.id != m.id && AllReadable(d.blobs, m.pre)
    requires d.file.lines == x + [PreparedEvent(m)] + [e]
    ensures var r := Recover(d); r.Some? && CaptureAll(r.value.tree, PathsOf(m.pre)) == LoadSnapshots(d.blobs, m.pre)
  {
    var z := x + [PreparedEvent(m)];
    Prepares(x, m);
    PreparingIsIncomplete(z, m);
    ReplayAppend(z, e);
    assert FindPrepared([m], e.id) == None;
    assert DropPrepared([m], e.id) == [m] + DropPrepared([m][1..], e.id) == [m];
    OneIsRolledBack(d, m, base);
    RolledBackRoots(d, m, base);
  }

  lemma {:induction false} LineOfNobodyChangesNothing(y: seq<Event>, e: Event, d: Disk)
    requires Replay(y).prepared == [] && TreeShaped(d.tree) && (e.CommittedEvent? || e.RolledBackEvent?)
    requires d.file.lines == y + [e]
    ensures Recover(d) == Some(d)
  {
    ReplayAppend(y, e);
    assert FindPrepared([], e.id) == None && DropPrepared([], e.id) == [];
    SoundRecovers(World(d, Idle));
  }
}
