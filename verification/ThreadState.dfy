/** Saving a thread and restoring it. */
module ThreadState {
  import opened Messages
  import opened ThreadModel
  import opened ThreadProtocol
  import opened ThreadRuns
  import opened Wrappers

  datatype SavedEntry = SavedEntry(
    turn: TurnId, kind: Kind, message: Message,
    elided: bool, iteration: Option<int>, summary: Option<string>, originalTokens: Option<nat>)

  datatype Saved = Saved(entries: seq<SavedEntry>, turns: seq<Turn>, open: Option<TurnId>, iteration: int)

  function SaveEntry(e: Entry): SavedEntry {
    SavedEntry(e.turn, e.kind, e.message, e.elided, e.iteration, e.summary, e.originalTokens)
  }

  function Export(t: Thread): Saved {
    Saved(seq(|t.entries|, i requires 0 <= i < |t.entries| => SaveEntry(t.entries[i])), t.turns, t.open, t.iteration)
  }

  // ---- The validator ----

  function OpenTurns(turns: seq<Turn>): (r: seq<TurnId>)
    ensures forall id :: id in r <==> Turn(id, Open) in turns
  {
    if |turns| == 0 then []
    else
      assert turns == turns[..|turns| - 1] + [turns[|turns| - 1]];
      OpenTurns(turns[..|turns| - 1]) + if turns[|turns| - 1].status.Open? then [turns[|turns| - 1].id] else []
  }

  predicate SavedEntryOk(turns: seq<Turn>, e: SavedEntry) {
    HasTurn(turns, e.turn) && RoleMatches(e.kind, e.message)
  }

  predicate Accepts(s: Saved) {
    var open := OpenTurns(s.turns);
    && (s.open.Some? ==> HasTurn(s.turns, s.open.value))
    && |open| <= 1 && (|open| == 1 ==> s.open == Some(open[0])) && (|open| == 0 ==> s.open.None?)
    && forall i :: 0 <= i < |s.entries| ==> SavedEntryOk(s.turns, s.entries[i])
  }

  // ---- Restoring ----

  /** New ids of saved turns; a repeated id means its last turn. */
  function Names(turns: seq<Turn>, base: nat): (r: map<TurnId, TurnId>)
    ensures forall id :: id in r <==> HasTurn(turns, id)
    decreases |turns|
  {
    if |turns| == 0 then map[]
    else
      var n := |turns| - 1;
      var rest := Names(turns[..n], base);
      assert forall i :: 0 <= i < n ==> turns[..n][i] == turns[i];
      rest[turns[n].id := Plain(base + 1 + n)]
  }

  function RestoredStatus(status: Status, preserve: bool): Status {
    if status.Open? && !preserve then Aborted else status
  }

  function RestoreTurns(turns: seq<Turn>, base: nat, preserve: bool): (r: seq<Turn>)
    ensures |r| == |turns|
    ensures forall i :: 0 <= i < |r| ==> r[i] == Turn(Plain(base + 1 + i), RestoredStatus(turns[i].status, preserve))
  {
    seq(|turns|, i requires 0 <= i < |turns| => Turn(Plain(base + 1 + i), RestoredStatus(turns[i].status, preserve)))
  }

  function RestoreEntry(e: SavedEntry, turn: TurnId, id: nat, factor: real): Entry {
    Entry(id, turn, e.kind, e.message, Tokens(e.message, factor), e.elided, e.iteration, e.summary, e.originalTokens)
  }

  function RestoreEntries(es: seq<SavedEntry>, names: map<TurnId, TurnId>, base: nat, factor: real): (r: seq<Entry>)
    requires forall i :: 0 <= i < |es| ==> es[i].turn in names
    ensures |r| == |es|
    ensures forall i :: 0 <= i < |r| ==> r[i] == RestoreEntry(es[i], names[es[i].turn], base + 1 + i, factor)
  {
    seq(|es|, i requires 0 <= i < |es| => RestoreEntry(es[i], names[es[i].turn], base + 1 + i, factor))
  }

  const CANCELLED_NOTICE := "上次会话在未完成轮次中断；悬空工具调用已取消，请重新确认后续操作。"

  /** The turns and entries under their new names, before an open turn is dealt with. */
  function Renamed(t: Thread, s: Saved, preserve: bool, factor: real): Thread
    requires Accepts(s)
  {
    var names := Names(s.turns, t.lastTurn);
    assert forall i :: 0 <= i < |s.entries| ==> SavedEntryOk(s.turns, s.entries[i]);
    Thread(RestoreEntries(s.entries, names, t.lastEntry, factor), RestoreTurns(s.turns, t.lastTurn, preserve), None, 0,
           t.lastEntry + |s.entries|, t.lastTurn + |s.turns|)
  }

  /** The new name of the saved open turn. */
  function NewOpen(t: Thread, s: Saved): Option<TurnId>
    requires Accepts(s)
  {
    var open := OpenTurns(s.turns);
    if |open| == 0 then None
    else
      assert open[0] in open;
      Some(Names(s.turns, t.lastTurn)[open[0]])
  }

  /** An open turn goes on, or is cancelled with a notice. */
  function Reopened(u: Thread, open: Option<TurnId>, preserve: bool, factor: real): Thread {
    match open
    case None => u
    case Some(id) =>
      if preserve then u.(open := Some(id))
      else AddNotice(u.(entries := DropAllUnanswered(u.entries, id, factor)), CANCELLED_NOTICE, factor)
  }

  function Restore(t: Thread, s: Saved, preserve: bool, factor: real): Thread
    requires Accepts(s)
  {
    Reopened(Renamed(t, s, preserve, factor), NewOpen(t, s), preserve, factor).(iteration := if s.iteration < 0 then 0 else s.iteration)
  }

  // ---- Reading does not depend on the names of turns ----

  ghost predicate SameButNames(xs: seq<Shape>, ys: seq<Shape>) {
    && |xs| == |ys|
    && (forall i :: 0 <= i < |xs| ==> xs[i].requests == ys[i].requests && xs[i].answers == ys[i].answers)
    && (forall i, j :: 0 <= i < |xs| && 0 <= j < |xs| ==> (xs[i].turn == xs[j].turn <==> ys[i].turn == ys[j].turn))
  }

  predicate SameScanButNames(s: Scan, u: Scan) {
    (s.Broken? && u.Broken?) || (s.Scan? && u.Scan? && s.pending == u.pending && s.seen == u.seen)
  }

  lemma StepButNames(s: Scan, u: Scan, x: Shape, y: Shape)
    requires SameScanButNames(s, u) && x.requests == y.requests && x.answers == y.answers
    requires s.Scan? ==> (s.turn == Some(x.turn) <==> u.turn == Some(y.turn))
    ensures SameScanButNames(Step(s, x), Step(u, y))
  {
  }

  lemma {:induction false} NamesDoNotMatter(xs: seq<Shape>, ys: seq<Shape>)
    requires SameButNames(xs, ys)
    ensures SameScanButNames(ScanAll(START, xs), ScanAll(START, ys))
    decreases |xs|
  {
    if |xs| > 0 {
      var n := |xs| - 1;
      assert SameButNames(xs[..n], ys[..n]);
      NamesDoNotMatter(xs[..n], ys[..n]);
      if n > 0 && ScanAll(START, xs[..n]).Scan? {
        LastTurnRead(xs[..n]);
        LastTurnRead(ys[..n]);
        assert xs[n - 1].turn == xs[n].turn <==> ys[n - 1].turn == ys[n].turn;
      }
      StepButNames(ScanAll(START, xs[..n]), ScanAll(START, ys[..n]), xs[n], ys[n]);
    }
  }

  // ---- Round trip ----

  lemma {:induction false} OpenTurnsAre(t: Thread)
    requires TurnsOk(t)
    ensures OpenTurns(t.turns) == if t.open.Some? then [t.open.value] else []
  {
    OpenTurnsOf(t.turns, t.open);
    if t.open.Some? {
      var i :| 0 <= i < |t.turns| && t.turns[i].id == t.open.value;
      assert t.turns[i] == Turn(t.open.value, Open);
    }
  }

  lemma {:induction false} OpenTurnsOf(turns: seq<Turn>, open: Option<TurnId>)
    requires DistinctTurns(turns)
    requires forall i :: 0 <= i < |turns| ==> (turns[i].status.Open? <==> open == Some(turns[i].id))
    ensures |OpenTurns(turns)| <= 1 && forall id :: id in OpenTurns(turns) ==> open == Some(id)
    ensures OpenTurns(turns) == [] || (open.Some? && OpenTurns(turns) == [open.value])
    decreases |turns|
  {
    if |turns| > 0 {
      var n := |turns| - 1;
      OpenTurnsOf(turns[..n], open);
    }
  }

  /** Every thread in order exports a state that its own validator accepts. */
  lemma {:induction false} ExportIsAccepted(t: Thread)
    requires TurnsOk(t) && EntriesOk(t)
    ensures Accepts(Export(t))
  {
    OpenTurnsAre(t);
    forall i | 0 <= i < |t.entries| ensures SavedEntryOk(t.turns, Export(t).entries[i]) {
      assert EntryOk(t, t.entries[i]);
    }
  }

  lemma {:induction false} NamesAt(turns: seq<Turn>, base: nat, i: nat)
    requires DistinctTurns(turns) && i < |turns|
    ensures HasTurn(turns, turns[i].id) && Names(turns, base)[turns[i].id] == Plain(base + 1 + i)
    decreases |turns|
  {
    var n := |turns| - 1;
    assert HasTurn(turns, turns[i].id);
    if i < n {
      assert turns[..n][i] == turns[i];
      NamesAt(turns[..n], base, i);
    }
  }

  /** Turn `j` of the original is the turn of its entry `i`, and so in the copy. */
  predicate SameTurnAt(es: seq<Entry>, turns: seq<Turn>, fs: seq<Entry>, names: seq<Turn>, i: nat, j: nat) {
    && i < |es| && i < |fs| && j < |turns| && j < |names|
    && turns[j].id == es[i].turn && names[j].id == fs[i].turn
  }

  ghost predicate CopiedEntry(es: seq<Entry>, turns: seq<Turn>, fs: seq<Entry>, names: seq<Turn>, i: nat) {
    && i < |es| && i < |fs| && SaveEntry(fs[i]).(turn := es[i].turn) == SaveEntry(es[i])
    && exists j: nat :: SameTurnAt(es, turns, fs, names, i, j)
  }

  /** `u` is `t` with turns renamed to fresh ids in order, statuses as given, and the entries' texts, kinds and marks kept. */
  ghost predicate IsCopy(t: Thread, u: Thread, base: nat, preserve: bool) {
    && |u.turns| == |t.turns| && |u.entries| == |t.entries|
    && (forall i :: 0 <= i < |t.turns| ==>
          u.turns[i] == Turn(Plain(base + 1 + i), RestoredStatus(t.turns[i].status, preserve)))
    && (forall i: nat :: i < |t.entries| ==> CopiedEntry(t.entries, t.turns, u.entries, u.turns, i))
  }

  lemma {:induction false} RenamedIsCopy(r: Thread, t: Thread, preserve: bool, factor: real)
    requires TurnsOk(t) && EntriesOk(t) && Accepts(Export(t))
    ensures IsCopy(t, Renamed(r, Export(t), preserve, factor), r.lastTurn, preserve)
  {
    var u := Renamed(r, Export(t), preserve, factor);
    forall i: nat | i < |t.entries| ensures CopiedEntry(t.entries, t.turns, u.entries, u.turns, i) {
      RenamedEntry(r, t, preserve, factor, i);
    }
  }

  lemma {:induction false} RenamedEntry(r: Thread, t: Thread, preserve: bool, factor: real, i: nat)
    requires TurnsOk(t) && EntriesOk(t) && Accepts(Export(t)) && i < |t.entries|
    ensures var u := Renamed(r, Export(t), preserve, factor); CopiedEntry(t.entries, t.turns, u.entries, u.turns, i)
  {
    var u := Renamed(r, Export(t), preserve, factor);
    var k := TurnIndex(t, i);
    NamesAt(t.turns, r.lastTurn, k);
    assert SameTurnAt(t.entries, t.turns, u.entries, u.turns, i, k);
  }

  lemma {:induction false} CopyHasSamePattern(t: Thread, u: Thread, base: nat, preserve: bool)
    requires DistinctTurns(t.turns) && IsCopy(t, u, base, preserve)
    ensures forall i, j :: 0 <= i < |t.entries| && 0 <= j < |t.entries| ==>
              (t.entries[i].turn == t.entries[j].turn <==> u.entries[i].turn == u.entries[j].turn)
  {
    forall i: nat, j: nat | i < |t.entries| && j < |t.entries|
      ensures t.entries[i].turn == t.entries[j].turn <==> u.entries[i].turn == u.entries[j].turn
    {
      assert CopiedEntry(t.entries, t.turns, u.entries, u.turns, i) && CopiedEntry(t.entries, t.turns, u.entries, u.turns, j);
      var k: nat :| SameTurnAt(t.entries, t.turns, u.entries, u.turns, i, k);
      var l: nat :| SameTurnAt(t.entries, t.turns, u.entries, u.turns, j, l);
      assert k != l ==> t.turns[k].id != t.turns[l].id;
    }
  }

  lemma {:induction false} CopiedTurnIs(t: Thread, u: Thread, i: nat, j: nat)
    requires DistinctTurns(t.turns) && CopiedEntry(t.entries, t.turns, u.entries, u.turns, i) && j < |t.turns| && t.turns[j].id == t.entries[i].turn
    ensures SameTurnAt(t.entries, t.turns, u.entries, u.turns, i, j)
  {
    var k: nat :| SameTurnAt(t.entries, t.turns, u.entries, u.turns, i, k);
    DistinctTurnsAt(t.turns, k, j);
  }

  lemma DistinctTurnsAt(turns: seq<Turn>, k: nat, j: nat)
    requires DistinctTurns(turns) && k < |turns| && j < |turns|
    ensures turns[k].id == turns[j].id <==> k == j
  {
  }

  lemma {:induction false} TurnIndex(t: Thread, i: nat) returns (k: nat)
    requires EntriesOk(t) && i < |t.entries|
    ensures k < |t.turns| && t.turns[k].id == t.entries[i].turn
  {
    assert EntryOk(t, t.entries[i]);
    k :| 0 <= k < |t.turns| && t.turns[k].id == t.entries[i].turn;
  }

  // ---- A copy is in order when the original is ----

  lemma {:induction false} CopyTurns(t: Thread, u: Thread, base: nat, preserve: bool)
    requires Sound(t) && IsCopy(t, u, base, preserve) && u.lastTurn == base + |t.turns|
    requires if preserve then OpenCopied(t, u) else u.open.None?
    ensures TurnsOk(u)
  {
    if preserve {
      forall i | 0 <= i < |u.turns| ensures u.turns[i].status.Open? <==> u.open == Some(u.turns[i].id) {
        if t.open.Some? {
          var j: nat :| OpenAt(t, u, j);
          assert i != j ==> t.turns[i].id != t.turns[j].id;
        }
      }
    }
  }

  /** The open turn of the copy is the original's under its new name. */
  ghost predicate OpenCopied(t: Thread, u: Thread) {
    && |u.turns| == |t.turns| && (t.open.None? ==> u.open.None?)
    && (t.open.Some? ==> exists j: nat :: OpenAt(t, u, j))
  }

  predicate OpenAt(t: Thread, u: Thread, j: nat) {
    j < |t.turns| && j < |u.turns| && t.open == Some(t.turns[j].id) && u.open == Some(u.turns[j].id)
  }

  ghost predicate NumberedFrom(es: seq<Entry>, base: nat) {
    forall i :: 0 <= i < |es| ==> es[i].id == base + 1 + i
  }

  lemma {:induction false} CopyEntries(t: Thread, u: Thread, base: nat, preserve: bool, first: nat)
    requires Sound(t) && IsCopy(t, u, base, preserve)
    requires NumberedFrom(u.entries, first) && u.lastEntry == first + |t.entries|
    ensures EntriesOk(u) && Together(u.entries)
    ensures SameScanButNames(Read(t.entries), Read(u.entries))
  {
    CopyHasSamePattern(t, u, base, preserve);
    forall i | 0 <= i < |u.entries| ensures EntryOk(u, u.entries[i]) && u.entries[i].message == t.entries[i].message {
      assert CopiedEntry(t.entries, t.turns, u.entries, u.turns, i) && EntryOk(t, t.entries[i]);
      var j: nat :| SameTurnAt(t.entries, t.turns, u.entries, u.turns, i, j);
    }
    TogetherCopied(t.entries, u.entries);
    NamesDoNotMatter(Shapes(t.entries), Shapes(u.entries));
  }

  lemma {:induction false} TogetherCopied(es: seq<Entry>, fs: seq<Entry>)
    requires Together(es) && |fs| == |es|
    requires forall i, j :: 0 <= i < |es| && 0 <= j < |es| ==> (es[i].turn == es[j].turn <==> fs[i].turn == fs[j].turn)
    ensures Together(fs)
  {
    forall k: nat | k < |fs| ensures Joined(fs, k) {
      assert Joined(es, k);
    }
  }

  /** What a restored thread shares with the exported one. */
  ghost predicate IsRestored(t: Thread, u: Thread, base: nat, preserve: bool) {
    && IsCopy(t, u, base, preserve) && u.iteration == (if t.iteration < 0 then 0 else t.iteration)
    && (if preserve then OpenCopied(t, u) else u.open.None?)
  }

  /** With the open turn preserved the restored thread is the exported one up to the names of its turns. */
  lemma {:induction false} RestoringContinuesTheTurn(r: Thread, t: Thread, factor: real)
    requires Sound(t)
    ensures Accepts(Export(t))
    ensures var u := Restore(r, Export(t), true, factor);
            && IsRestored(t, u, r.lastTurn, true) && Sound(u) && Read(u.entries).pending == Read(t.entries).pending
  {
    ExportIsAccepted(t);
    var u := Restore(r, Export(t), true, factor);
    RenamedIsCopy(r, t, true, factor);
    RestoredParts(r, Export(t), factor);
    CopyAgain(t, Renamed(r, Export(t), true, factor), u, r.lastTurn);
    RestoredOpen(r, t, factor);
    CopyIsSound(t, u, r.lastTurn, r.lastEntry);
  }

  lemma CopyAgain(t: Thread, v: Thread, u: Thread, base: nat)
    requires IsCopy(t, v, base, true) && u.entries == v.entries && u.turns == v.turns
    ensures IsCopy(t, u, base, true)
  {
  }

  lemma RestoredParts(r: Thread, s: Saved, factor: real)
    requires Accepts(s)
    ensures var u, v := Restore(r, s, true, factor), Renamed(r, s, true, factor);
            && u.entries == v.entries && u.turns == v.turns && u.lastTurn == r.lastTurn + |s.turns|
            && u.lastEntry == r.lastEntry + |s.entries| && NumberedFrom(u.entries, r.lastEntry)
            && u.iteration == if s.iteration < 0 then 0 else s.iteration
  {
  }

  lemma {:induction false} NewOpenIs(r: Thread, t: Thread) returns (j: nat)
    requires TurnsOk(t) && Accepts(Export(t)) && t.open.Some?
    ensures j < |t.turns| && t.turns[j].id == t.open.value && NewOpen(r, Export(t)) == Some(Plain(r.lastTurn + 1 + j))
  {
    hide Accepts;
    OpenTurnsAre(t);
    j :| 0 <= j < |t.turns| && t.turns[j].id == t.open.value;
    NamesAt(t.turns, r.lastTurn, j);
  }

  lemma {:induction false} RestoredOpen(r: Thread, t: Thread, factor: real)
    requires TurnsOk(t) && Accepts(Export(t))
    ensures OpenCopied(t, Restore(r, Export(t), true, factor))
  {
    var u := Restore(r, Export(t), true, factor);
    if t.open.Some? {
      var j := NewOpenIs(r, t);
      assert OpenAt(t, u, j);
    } else {
      OpenTurnsAre(t);
    }
  }

  lemma {:induction false} CopyIsSound(t: Thread, u: Thread, base: nat, first: nat)
    requires Sound(t) && IsCopy(t, u, base, true) && OpenCopied(t, u) && u.lastTurn == base + |t.turns|
    requires NumberedFrom(u.entries, first) && u.lastEntry == first + |t.entries|
    ensures Sound(u) && Read(u.entries).pending == Read(t.entries).pending
  {
    CopyTurns(t, u, base, true);
    CopyEntries(t, u, base, true, first);
    CopiedPairs(t, u, base);
  }

  lemma {:induction false} CopiedPairs(t: Thread, u: Thread, base: nat)
    requires Sound(t) && IsCopy(t, u, base, true) && OpenCopied(t, u) && SameScanButNames(Read(t.entries), Read(u.entries))
    ensures OpenIsLast(u) && Paired(u)
  {
    if t.open.Some? {
      var n := |t.entries| - 1;
      var j: nat :| OpenAt(t, u, j);
      CopiedTurnIs(t, u, n, j);
      ReadingLast(u.entries);
    }
  }

  /**
   * The copy `u` of the open turn, number `j`, is aborted and its unanswered calls are gone in `v`; a notice in a
   * closed turn of its own follows.
   */
  predicate AbortedCopy(t: Thread, u: Thread, v: Thread, j: nat, factor: real) {
    && j < |t.turns| == |u.turns| && t.open == Some(t.turns[j].id) && u.turns[j].status.Aborted?
    && |v.turns| == |u.turns| + 1 && v.turns[..|u.turns|] == u.turns && v.turns[|u.turns|].status.Committed?
    && |v.entries| == |u.entries| + 1
    && v.entries[..|u.entries|] == DropAllUnanswered(u.entries, u.turns[j].id, factor)
    && v.entries[|u.entries|].turn == v.turns[|u.turns|].id
    && v.entries[|u.entries|].message == UserText(NOTICE_PREFIX + CANCELLED_NOTICE)
  }

  /** Without it the open turn is aborted, its unanswered calls are cancelled and a notice says so: nothing is pending. */
  lemma {:induction false} RestoringSettlesTheTurn(r: Thread, t: Thread, factor: real)
    requires Sound(t)
    ensures Accepts(Export(t))
    ensures var u, v := Renamed(r, Export(t), false, factor), Restore(r, Export(t), false, factor);
            && IsCopy(t, u, r.lastTurn, false)
            && (if t.open.Some? then exists j: nat :: AbortedCopy(t, u, v, j, factor) else v.entries == u.entries && v.turns == u.turns)
            && Sound(v) && NothingPending(v) && v.open.None?
  {
    ExportIsAccepted(t);
    RenamedIsCopy(r, t, false, factor);
    var u := Renamed(r, Export(t), false, factor);
    CopyTurns(t, u, r.lastTurn, false);
    CopyEntries(t, u, r.lastTurn, false, r.lastEntry);
    ReopenedIsSound(r, t, u, factor);
    SettledParts(r, t, factor);
    var v := Reopened(u, NewOpen(r, Export(t)), false, factor);
    IterationDoesNotMatter(v, if t.iteration < 0 then 0 else t.iteration);
  }

  lemma {:induction false} SettledParts(r: Thread, t: Thread, factor: real)
    requires TurnsOk(t) && Accepts(Export(t)) && IsCopy(t, Renamed(r, Export(t), false, factor), r.lastTurn, false)
    ensures var u, v := Renamed(r, Export(t), false, factor), Restore(r, Export(t), false, factor);
            if t.open.Some? then exists j: nat :: AbortedCopy(t, u, v, j, factor) else v.entries == u.entries && v.turns == u.turns
  {
    hide Accepts, DropAllUnanswered;
    var u, v := Renamed(r, Export(t), false, factor), Restore(r, Export(t), false, factor);
    if t.open.Some? {
      var j := NewOpenIs(r, t);
      assert v.turns == u.turns + [v.turns[|u.turns|]];
      assert v.entries == DropAllUnanswered(u.entries, u.turns[j].id, factor) + [v.entries[|u.entries|]];
      assert AbortedCopy(t, u, v, j, factor);
    } else {
      OpenTurnsAre(t);
    }
  }

  lemma {:induction false} ReopenedIsSound(r: Thread, t: Thread, u: Thread, factor: real)
    requires Sound(t) && Accepts(Export(t)) && IsCopy(t, u, r.lastTurn, false) && u.open.None?
    requires TurnsOk(u) && EntriesOk(u) && Together(u.entries) && SameScanButNames(Read(t.entries), Read(u.entries))
    ensures var v := Reopened(u, NewOpen(r, Export(t)), false, factor); Sound(v) && NothingPending(v) && v.open.None?
  {
    if t.open.Some? {
      var j := LastCopied(r, t, u);
      var id := u.turns[j].id;
      DroppingLast(u, id, factor);
      NoticeKeepsSoundExactly(u.(entries := DropAllUnanswered(u.entries, id, factor)), CANCELLED_NOTICE, factor);
    } else {
      OpenTurnsAre(t);
    }
  }

  lemma {:induction false} IterationDoesNotMatter(t: Thread, n: int)
    requires Sound(t)
    ensures Sound(t.(iteration := n))
  {
    forall i | 0 <= i < |t.entries| ensures EntryOk(t.(iteration := n), t.entries[i]) {
      assert EntryOk(t, t.entries[i]);
    }
  }

  lemma {:induction false} LastCopied(r: Thread, t: Thread, u: Thread) returns (j: nat)
    requires Sound(t) && Accepts(Export(t)) && t.open.Some? && IsCopy(t, u, r.lastTurn, false)
    ensures j < |u.turns| && NewOpen(r, Export(t)) == Some(u.turns[j].id) && u.entries[|t.entries| - 1].turn == u.turns[j].id
  {
    j := NewOpenIs(r, t);
    CopiedTurnIs(t, u, |t.entries| - 1, j);
  }

  /** Cancelling the unanswered calls of the last turn, closed already. */
  lemma {:induction false} DroppingLast(u: Thread, id: TurnId, factor: real)
    requires TurnsOk(u) && EntriesOk(u) && Together(u.entries) && Read(u.entries).Scan? && u.open.None?
    requires |u.entries| > 0 && u.entries[|u.entries| - 1].turn == id
    ensures var v := u.(entries := DropAllUnanswered(u.entries, id, factor)); Sound(v) && NothingPending(v)
  {
    ReadingLast(u.entries);
    DroppingKeepsEntries(u, id, factor);
    DroppingSettles(u.entries, id, factor);
  }
}
