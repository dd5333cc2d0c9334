/** The provider's rule: every tool call is answered right after it, in its own turn, exactly once. */
module ThreadProtocol {
  import opened Messages
  import opened ThreadModel
  import opened Wrappers

  /** What the rule looks at in an entry. */
  datatype Shape = Shape(turn: TurnId, requests: seq<string>, answers: Option<string>)

  function ShapeOf(e: Entry): Shape {
    match e.message
    case ToolMessage(id, _, _) => Shape(e.turn, [], Some(id))
    case ChatMessage(_, _, _, calls) => Shape(e.turn, CallIds(calls), None)
  }

  function Shapes(es: seq<Entry>): (r: seq<Shape>)
    ensures |r| == |es| && forall i :: 0 <= i < |r| ==> r[i] == ShapeOf(es[i])
  {
    seq(|es|, i requires 0 <= i < |es| => ShapeOf(es[i]))
  }

  /** Reading entries in order: the turn being read, its unanswered calls, and all its calls so far. */
  datatype Scan = Broken | Scan(turn: Option<TurnId>, pending: set<string>, seen: set<string>)

  const START := Scan(None, {}, {})

  predicate Distinct(ids: seq<string>) {
    forall i, j :: 0 <= i < j < |ids| ==> ids[i] != ids[j]
  }

  function IdSet(ids: seq<string>): set<string> {
    set i | 0 <= i < |ids| :: ids[i]
  }

  function Step(s: Scan, x: Shape): Scan {
    if s.Broken? then Broken
    else
      var same := s.turn == Some(x.turn);
      var pending, seen := if same then s.pending else {}, if same then s.seen else {};
      if !same && s.pending != {} then Broken
      else
        match x.answers
        case Some(id) => if id in pending then Scan(Some(x.turn), pending - {id}, seen) else Broken
        case None =>
          if pending != {} || !Distinct(x.requests) || IdSet(x.requests) * seen != {} then Broken
          else Scan(Some(x.turn), IdSet(x.requests), seen + IdSet(x.requests))
  }

  function ScanAll(s: Scan, xs: seq<Shape>): Scan {
    if |xs| == 0 then s else Step(ScanAll(s, xs[..|xs| - 1]), xs[|xs| - 1])
  }

  function Read(es: seq<Entry>): Scan {
    ScanAll(START, Shapes(es))
  }

  // ---- What a thread is like between operations ----

  ghost predicate DistinctTurns(turns: seq<Turn>) {
    forall i, j :: 0 <= i < j < |turns| ==> turns[i].id != turns[j].id
  }

  ghost predicate DistinctEntries(es: seq<Entry>) {
    forall i, j :: 0 <= i < j < |es| ==> es[i].id != es[j].id
  }

  ghost predicate TurnsOk(t: Thread) {
    && DistinctTurns(t.turns)
    && (forall i :: 0 <= i < |t.turns| ==> t.turns[i].id.n <= t.lastTurn)
    && (forall i :: 0 <= i < |t.turns| ==> (t.turns[i].status.Open? <==> t.open == Some(t.turns[i].id)))
    && (t.open.Some? ==> HasTurn(t.turns, t.open.value))
  }

  predicate RoleMatches(kind: Kind, m: Message) {
    match kind
    case AssistantKind => m.ChatMessage? && m.role.Assistant?
    case ToolResultKind => m.ToolMessage?
    case _ => m.ChatMessage? && m.role.User?
  }

  predicate EntryOk(t: Thread, e: Entry) {
    && HasTurn(t.turns, e.turn) && e.id <= t.lastEntry && RoleMatches(e.kind, e.message)
    && (e.message.ChatMessage? && !e.message.role.Assistant? ==> e.message.calls == [])
  }

  ghost predicate EntriesOk(t: Thread) {
    && (forall i {:trigger EntryOk(t, t.entries[i])} :: 0 <= i < |t.entries| ==> EntryOk(t, t.entries[i]))
    && DistinctEntries(t.entries)
  }

  /** An entry whose turn came before follows an entry of that turn. */
  predicate Joined(es: seq<Entry>, k: nat) {
    k < |es| && forall i :: 0 <= i < k && es[i].turn == es[k].turn ==> es[k - 1].turn == es[k].turn
  }

  /** The entries of a turn stand together. */
  ghost predicate Together(es: seq<Entry>) {
    forall k: nat :: k < |es| ==> Joined(es, k)
  }

  lemma {:induction false} StandTogether(es: seq<Entry>, i: nat, j: nat, k: nat)
    requires Together(es) && i <= j <= k < |es| && es[i].turn == es[k].turn
    ensures es[j].turn == es[i].turn
    decreases k
  {
    if j < k {
      assert Joined(es, k);
      StandTogether(es, i, j, k - 1);
    }
  }

  /** An open turn is the last one. */
  predicate OpenIsLast(t: Thread) {
    t.open.Some? ==> |t.entries| > 0 && t.entries[|t.entries| - 1].turn == t.open.value
  }

  /** No call of a closed turn is unanswered; the open turn's unanswered calls are its latest entry's. */
  ghost predicate Paired(t: Thread) {
    var s := Read(t.entries);
    s.Scan? && (s.pending != {} ==> t.open.Some? && s.turn == t.open)
  }

  ghost predicate Sound(t: Thread) {
    TurnsOk(t) && EntriesOk(t) && Together(t.entries) && OpenIsLast(t) && Paired(t)
  }

  ghost predicate NothingPending(t: Thread) {
    Read(t.entries).Scan? && Read(t.entries).pending == {}
  }

  // ---- What the scan says about positions ----

  /** Between the request at `a` and position `k` there is nothing but results of the same turn. */
  predicate ResultsOnly(xs: seq<Shape>, a: nat, k: nat)
    requires a < k <= |xs|
  {
    forall m :: a < m < k ==> xs[m].turn == xs[a].turn && xs[m].answers.Some?
  }

  lemma {:induction false} PendingWasRequested(xs: seq<Shape>, id: string) returns (a: nat)
    requires ScanAll(START, xs).Scan? && id in ScanAll(START, xs).pending
    ensures a < |xs| && Some(xs[a].turn) == ScanAll(START, xs).turn && id in xs[a].requests
    ensures xs[a].answers.None? && ResultsOnly(xs, a, |xs|)
    ensures forall m :: a < m < |xs| ==> xs[m].answers != Some(id)
    decreases |xs|
  {
    var n := |xs| - 1;
    var before := ScanAll(START, xs[..n]);
    if xs[n].answers.None? {
      a := n;
    } else {
      a := PendingWasRequested(xs[..n], id);
      assert forall m :: a < m < n ==> xs[..n][m] == xs[m];
    }
  }

  lemma {:induction false} PrefixReads(s: Scan, xs: seq<Shape>, n: nat)
    requires n <= |xs| && ScanAll(s, xs).Scan?
    ensures ScanAll(s, xs[..n]).Scan?
    decreases |xs|
  {
    if n == |xs| {
      assert xs[..n] == xs;
    } else {
      PrefixReads(s, xs[..|xs| - 1], n);
      assert xs[..|xs| - 1][..n] == xs[..n];
    }
  }

  /** Every result is preceded, in its turn, by the entry that asked for it, with only results between. */
  lemma {:induction false} ResultsFollowTheirCall(xs: seq<Shape>, k: nat) returns (a: nat)
    requires ScanAll(START, xs).Scan? && k < |xs| && xs[k].answers.Some?
    ensures a < k && xs[a].turn == xs[k].turn && xs[k].answers.value in xs[a].requests && ResultsOnly(xs, a, k)
    ensures forall m :: a < m < k ==> xs[m].answers != xs[k].answers
  {
    PrefixReads(START, xs, k + 1);
    assert xs[..k + 1][..k] == xs[..k] && xs[..k + 1][k] == xs[k];
    a := PendingWasRequested(xs[..k], xs[k].answers.value);
    assert forall m :: 0 <= m < k ==> xs[..k][m] == xs[m];
  }

  /** Every call whose turn is over is answered, with only results of that turn in between. */
  lemma {:induction false} CallsAreAnswered(xs: seq<Shape>, a: nat, id: string) returns (k: nat)
    requires a < |xs| && id in xs[a].requests && xs[a].answers.None?
    requires var s := ScanAll(START, xs); s.Scan? && (s.pending == {} || s.turn != Some(xs[a].turn))
    ensures a < k < |xs| && xs[k].turn == xs[a].turn && xs[k].answers == Some(id) && ResultsOnly(xs, a, k)
    ensures forall m :: a < m < k ==> xs[m].answers != Some(id)
  {
    PrefixReads(START, xs, a + 1);
    ScanStep(xs, a);
    k := AnswerComes(xs, a, a + 1, id);
  }

  /** Still pending after the first `n` entries, a call of a finished turn is answered by a later one. */
  lemma {:induction false} AnswerComes(xs: seq<Shape>, a: nat, n: nat, id: string) returns (k: nat)
    requires a < n <= |xs| && var s := ScanAll(START, xs); s.Scan? && (s.pending == {} || s.turn != Some(xs[a].turn))
    requires var s := ScanAll(START, xs[..n]); s.Scan? && s.turn == Some(xs[a].turn) && id in s.pending
    requires ResultsOnly(xs, a, n) && forall m :: a < m < n ==> xs[m].answers != Some(id)
    ensures a < k < |xs| && xs[k].turn == xs[a].turn && xs[k].answers == Some(id) && ResultsOnly(xs, a, k)
    ensures forall m :: a < m < k ==> xs[m].answers != Some(id)
    decreases |xs| - n
  {
    hide ScanAll, Step;
    assert xs[..|xs|] == xs;
    k := n;
    AnswerStep(xs, n, id);
    if xs[n].answers != Some(id) {
      k := AnswerComes(xs, a, n + 1, id);
    }
  }

  /** While a call is pending, only results of its turn follow. */
  lemma {:induction false} AnswerStep(xs: seq<Shape>, n: nat, id: string)
    requires ScanAll(START, xs).Scan? && n < |xs| && ScanAll(START, xs[..n]).Scan? && id in ScanAll(START, xs[..n]).pending
    ensures xs[n].answers.Some? && ScanAll(START, xs[..n]).turn == Some(xs[n].turn)
    ensures var s := ScanAll(START, xs[..n + 1]);
            s.Scan? && s.turn == Some(xs[n].turn) && (xs[n].answers != Some(id) ==> id in s.pending)
  {
    PrefixReads(START, xs, n + 1);
    ScanStep(xs, n);
  }

  lemma {:induction false} ScanStep(xs: seq<Shape>, n: nat)
    requires n < |xs|
    ensures ScanAll(START, xs[..n + 1]) == Step(ScanAll(START, xs[..n]), xs[n])
  {
    assert xs[..n + 1][..n] == xs[..n];
  }

  // ---- Appending, rewriting in place, cutting ----

  lemma {:induction false} ReadSnoc(es: seq<Entry>, e: Entry)
    ensures Read(es + [e]) == Step(Read(es), ShapeOf(e))
  {
    assert Shapes(es + [e])[..|es|] == Shapes(es);
  }

  /** Rewriting texts never changes what the rule sees. */
  lemma {:induction false} SameShapesReadAlike(es: seq<Entry>, fs: seq<Entry>)
    requires |es| == |fs| && forall i :: 0 <= i < |es| ==> ShapeOf(es[i]) == ShapeOf(fs[i])
    ensures Read(es) == Read(fs)
  {
    assert Shapes(es) == Shapes(fs);
  }

  /** `w` knows no less than `v` needs: same unanswered calls, fewer calls seen. */
  predicate Lighter(w: Scan, v: Scan) {
    && w.Scan? && v.Scan? && w.pending == v.pending
    && (if w.turn == v.turn then w.seen <= v.seen else w.pending == {} && w.seen == {})
  }

  lemma LighterStep(w: Scan, v: Scan, x: Shape)
    requires Lighter(w, v) && Step(v, x).Scan?
    ensures Lighter(Step(w, x), Step(v, x)) && Step(w, x).turn == Step(v, x).turn
  {
  }

  lemma {:induction false} LighterScan(w: Scan, v: Scan, xs: seq<Shape>)
    requires Lighter(w, v) && ScanAll(v, xs).Scan?
    ensures Lighter(ScanAll(w, xs), ScanAll(v, xs)) && (|xs| > 0 ==> ScanAll(w, xs).turn == ScanAll(v, xs).turn)
    decreases |xs|
  {
    if |xs| > 0 {
      PrefixReads(v, xs, |xs| - 1);
      LighterScan(w, v, xs[..|xs| - 1]);
      LighterStep(ScanAll(w, xs[..|xs| - 1]), ScanAll(v, xs[..|xs| - 1]), xs[|xs| - 1]);
    }
  }

  lemma {:induction false} ScanInParts(s: Scan, xs: seq<Shape>, ys: seq<Shape>)
    ensures ScanAll(s, xs + ys) == ScanAll(ScanAll(s, xs), ys)
    decreases |ys|
  {
    if |ys| == 0 {
      assert xs + ys == xs;
    } else {
      assert (xs + ys)[..|xs + ys| - 1] == xs + ys[..|ys| - 1];
      ScanInParts(s, xs, ys[..|ys| - 1]);
    }
  }

  /** A prefix may be replaced by an entry of a new turn wherever the rest does not start with a result. */
  lemma {:induction false} CutReads(es: seq<Entry>, k: nat, head: Entry)
    requires Read(es).Scan? && k <= |es|
    requires if k < |es| then es[k].message.ChatMessage? else Read(es).pending == {}
    requires head.message.ChatMessage? && head.message.calls == []
    ensures var s := Read([head] + es[k..]);
            s.Scan? && s.pending == Read(es).pending && (k < |es| ==> s.turn == Read(es).turn)
  {
    assert es == es[..k] + es[k..];
    ShapesInParts(es[..k], es[k..]);
    ShapesInParts([head], es[k..]);
    assert Shapes([head]) == [ShapeOf(head)];
    CutShapes(Shapes(es[..k]), Shapes(es[k..]), head);
  }

  lemma ShapesInParts(es: seq<Entry>, fs: seq<Entry>)
    ensures Shapes(es + fs) == Shapes(es) + Shapes(fs)
  {
  }

  lemma {:induction false} CutShapes(xs: seq<Shape>, ys: seq<Shape>, head: Entry)
    requires ScanAll(START, xs + ys).Scan?
    requires if |ys| > 0 then ys[0].answers.None? else ScanAll(START, xs + ys).pending == {}
    requires head.message.ChatMessage? && head.message.calls == []
    ensures var s := ScanAll(START, [ShapeOf(head)] + ys);
            && s.Scan? && s.pending == ScanAll(START, xs + ys).pending
            && (|ys| > 0 ==> s.turn == ScanAll(START, xs + ys).turn)
  {
    ReadHead(head);
    ScanInParts(START, [ShapeOf(head)], ys);
    if |ys| > 0 {
      CutClean(xs, ys);
      ScanInParts(START, xs, ys);
      CutScan(Scan(Some(head.turn), {}, {}), ScanAll(START, xs), ys);
    }
  }

  lemma {:induction false} ReadHead(head: Entry)
    requires head.message.ChatMessage? && head.message.calls == []
    ensures ScanAll(START, [ShapeOf(head)]) == Scan(Some(head.turn), {}, {})
  {
    var h := [ShapeOf(head)];
    assert ScanAll(START, h[..0]) == START;
    assert CallIds([]) == [] && IdSet([]) == {};
  }

  /** Before an entry that is not a result, nothing is pending. */
  lemma {:induction false} CutClean(xs: seq<Shape>, ys: seq<Shape>)
    requires ScanAll(START, xs + ys).Scan? && |ys| > 0 && ys[0].answers.None?
    ensures ScanAll(START, xs).Scan? && ScanAll(START, xs).pending == {}
  {
    var all := xs + ys;
    PrefixReads(START, all, |xs| + 1);
    ScanStep(all, |xs|);
    assert all[..|xs|] == xs && all[|xs|] == ys[0];
  }

  lemma {:induction false} CutScan(w: Scan, v: Scan, ys: seq<Shape>)
    requires w.Scan? && v.Scan? && w.pending == {} && w.seen == {} && v.pending == {}
    requires |ys| > 0 && ScanAll(v, ys).Scan?
    ensures ScanAll(w, ys).Scan? && ScanAll(w, ys).pending == ScanAll(v, ys).pending && ScanAll(w, ys).turn == ScanAll(v, ys).turn
  {
    LighterScan(w, v, ys);
  }

  // ---- Interrupting: unanswered calls are dropped ----

  function Answers(xs: seq<Shape>, turn: TurnId): set<string> {
    set i | 0 <= i < |xs| && xs[i].turn == turn && xs[i].answers.Some? :: xs[i].answers.value
  }

  function KeepIds(ids: seq<string>, keep: set<string>): (r: seq<string>)
    ensures forall x :: x in r <==> x in ids && x in keep
    ensures Distinct(ids) ==> Distinct(r)
  {
    if |ids| == 0 then []
    else
      var rest := KeepIds(ids[1..], keep);
      assert ids == [ids[0]] + ids[1..];
      if ids[0] in keep then [ids[0]] + rest else rest
  }

  /** Requests of one turn cut down to those in `keep`. */
  function Trim(x: Shape, turn: TurnId, keep: set<string>): Shape {
    if x.turn == turn then x.(requests := KeepIds(x.requests, keep)) else x
  }

  function TrimAll(xs: seq<Shape>, turn: TurnId, keep: set<string>): (r: seq<Shape>)
    ensures |r| == |xs| && forall i :: 0 <= i < |r| ==> r[i] == Trim(xs[i], turn, keep)
  {
    seq(|xs|, i requires 0 <= i < |xs| => Trim(xs[i], turn, keep))
  }

  /** The trimmed reading beside the full one. */
  predicate TrimmedScan(w: Scan, v: Scan, turn: TurnId, keep: set<string>) {
    && w.Scan? && v.Scan? && w.turn == v.turn && w.seen <= v.seen
    && w.pending == if v.turn == Some(turn) then v.pending * keep else v.pending
  }

  lemma {:induction false} TrimmedStep(w: Scan, v: Scan, x: Shape, turn: TurnId, keep: set<string>)
    requires TrimmedScan(w, v, turn, keep) && Step(v, x).Scan?
    requires x.turn == turn && x.answers.Some? ==> x.answers.value in keep
    ensures TrimmedScan(Step(w, Trim(x, turn, keep)), Step(v, x), turn, keep)
  {
    var y := Trim(x, turn, keep);
    if x.turn == turn {
      assert IdSet(y.requests) == IdSet(x.requests) * keep by {
        forall id ensures id in IdSet(y.requests) <==> id in IdSet(x.requests) && id in keep {
          assert id in IdSet(y.requests) <==> id in y.requests;
          assert id in IdSet(x.requests) <==> id in x.requests;
        }
      }
    }
  }

  lemma {:induction false} TrimmedReads(xs: seq<Shape>, turn: TurnId, keep: set<string>)
    requires ScanAll(START, xs).Scan? && Answers(xs, turn) <= keep
    ensures TrimmedScan(ScanAll(START, TrimAll(xs, turn, keep)), ScanAll(START, xs), turn, keep)
    decreases |xs|
  {
    if |xs| > 0 {
      var init, x := xs[..|xs| - 1], xs[|xs| - 1];
      assert TrimAll(xs, turn, keep)[..|xs| - 1] == TrimAll(init, turn, keep);
      PrefixReads(START, xs, |xs| - 1);
      forall id | id in Answers(init, turn) ensures id in keep {
        var i :| 0 <= i < |init| && init[i].turn == turn && init[i].answers.Some? && init[i].answers.value == id;
        assert xs[i] == init[i];
        assert id in Answers(xs, turn);
      }
      TrimmedReads(init, turn, keep);
      assert x.turn == turn && x.answers.Some? ==> x.answers.value in Answers(xs, turn);
      TrimmedStep(ScanAll(START, TrimAll(init, turn, keep)), ScanAll(START, init), x, turn, keep);
    }
  }

  predicate JoinedShapes(xs: seq<Shape>, k: nat) {
    k < |xs| && forall i :: 0 <= i < k && xs[i].turn == xs[k].turn ==> xs[k - 1].turn == xs[k].turn
  }

  /** In a turn that stands together and is last, nothing already answered is pending. */
  lemma {:induction false} AnsweredIsSettled(xs: seq<Shape>, turn: TurnId)
    requires ScanAll(START, xs).Scan? && ScanAll(START, xs).turn == Some(turn)
    requires forall k: nat :: k < |xs| ==> JoinedShapes(xs, k)
    ensures var s := ScanAll(START, xs); Answers(xs, turn) <= s.seen - s.pending && s.pending <= s.seen
    decreases |xs|
  {
    if |xs| > 0 {
      var n := |xs| - 1;
      var init, x := xs[..n], xs[n];
      PrefixReads(START, xs, n);
      var before := ScanAll(START, init);
      assert x.turn == turn;
      if before.turn == Some(turn) {
        forall k: nat | k < |init| ensures JoinedShapes(init, k) {
          assert JoinedShapes(xs, k);
        }
        AnsweredIsSettled(init, turn);
        forall id | id in Answers(xs, turn) ensures id in Answers(init, turn) || x.answers == Some(id) {
          var i :| 0 <= i < |xs| && xs[i].turn == turn && xs[i].answers.Some? && xs[i].answers.value == id;
          if i < n { assert init[i] == xs[i]; }
        }
      } else {
        NotBefore(xs, n);
      }
    }
  }

  lemma {:induction false} NotBefore(xs: seq<Shape>, n: nat)
    requires n < |xs| && ScanAll(START, xs[..n]).Scan? && ScanAll(START, xs[..n]).turn != Some(xs[n].turn)
    requires JoinedShapes(xs, n)
    ensures forall i :: 0 <= i < n ==> xs[i].turn != xs[n].turn
  {
    if n > 0 {
      LastTurnRead(xs[..n]);
    }
  }

  lemma LastTurnRead(xs: seq<Shape>)
    requires ScanAll(START, xs).Scan? && |xs| > 0
    ensures ScanAll(START, xs).turn == Some(xs[|xs| - 1].turn)
  {
  }

  lemma KeptStep(call: Call, rest: seq<Call>)
    ensures CallIds([call] + rest) == [call.id] + CallIds(rest)
  {
  }

  lemma {:induction false} KeptCallIds(calls: seq<Call>, keep: set<string>)
    ensures CallIds(KeepAnswered(calls, keep)) == KeepIds(CallIds(calls), keep)
  {
    if |calls| > 0 {
      assert CallIds(calls)[1..] == CallIds(calls[1..]);
      KeptCallIds(calls[1..], keep);
      KeptStep(calls[0], KeepAnswered(calls[1..], keep));
    }
  }

  lemma {:induction false} DroppedShapes(es: seq<Entry>, turn: TurnId, factor: real)
    requires forall i :: 0 <= i < |es| && es[i].message.ChatMessage? && !es[i].message.role.Assistant? ==> es[i].message.calls == []
    ensures AnsweredIn(es, turn) == Answers(Shapes(es), turn)
    ensures Shapes(DropAllUnanswered(es, turn, factor)) == TrimAll(Shapes(es), turn, AnsweredIn(es, turn))
  {
    var xs, ids := Shapes(es), AnsweredIn(es, turn);
    forall id ensures id in ids <==> id in Answers(xs, turn) {
      if id in ids {
        var i :| 0 <= i < |es| && es[i].turn == turn && es[i].message.ToolMessage? && es[i].message.callId == id;
        assert xs[i].answers == Some(id);
      }
      if id in Answers(xs, turn) {
        var i :| 0 <= i < |xs| && xs[i].turn == turn && xs[i].answers.Some? && xs[i].answers.value == id;
        assert es[i].message.ToolMessage?;
      }
    }
    forall i | 0 <= i < |es| ensures ShapeOf(DropUnanswered(es[i], turn, ids, factor)) == Trim(xs[i], turn, ids) {
      if es[i].message.ChatMessage? { KeptCallIds(es[i].message.calls, ids); }
    }
  }

  /** Dropping unanswered calls of the last turn leaves nothing pending. */
  lemma {:induction false} DroppingSettles(es: seq<Entry>, turn: TurnId, factor: real)
    requires Read(es).Scan? && Read(es).turn == Some(turn) && Together(es)
    requires forall i :: 0 <= i < |es| && es[i].message.ChatMessage? && !es[i].message.role.Assistant? ==> es[i].message.calls == []
    ensures var s := Read(DropAllUnanswered(es, turn, factor)); s.Scan? && s.pending == {} && s.turn == Some(turn)
  {
    var xs := Shapes(es);
    DroppedShapes(es, turn, factor);
    TrimmedReads(xs, turn, Answers(xs, turn));
    forall k: nat | k < |xs| ensures JoinedShapes(xs, k) {
      assert Joined(es, k);
    }
    AnsweredIsSettled(xs, turn);
  }
}
