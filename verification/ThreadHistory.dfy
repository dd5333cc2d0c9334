/** Whole histories of a thread: whatever happens to it, results follow their calls and no closed turn is left unanswered. */
module ThreadHistory {
  import opened Governance
  import opened Messages
  import opened ThreadModel
  import opened ThreadProtocol
  import opened ThreadRuns
  import opened ThreadState
  import opened TokenEstimator
  import opened Wrappers

  datatype Move =
    | Begin(content: string, images: nat)
    | Commit
    | Abort(reason: string)
    | Interrupt(reason: string)
    | Say(content: string, calls: seq<Call>)
    | Answer(callId: string, name: string, content: string, toolSummary: Option<string>, iteration: Option<int>)
    | Notify(content: string)
    | Elide(at: nat, content: string)
    | Truncate(at: nat, content: string)
    | Reestimate
    | Compact(count: nat, summary: string)
    | NextIteration(number: int)
    | Reload(preserve: bool)

  /** What the callers of each operation see to. Texts are never restricted. */
  ghost predicate Allowed(t: Thread, m: Move) {
    match m
    case Begin(_, _) => t.open.None?
    case Commit => t.open.Some? && NothingPending(t)
    case Abort(_) => t.open.Some? && NothingPending(t)
    case Interrupt(_) => t.open.Some?
    case Say(_, calls) =>
      t.open.Some? && NothingPending(t) && Distinct(CallIds(calls)) && IdSet(CallIds(calls)) * Read(t.entries).seen == {}
    case Answer(id, _, _, _, _) => t.open.Some? && Read(t.entries).Scan? && id in Read(t.entries).pending
    case Notify(_) => NothingPending(t)
    case Elide(at, _) => at < |t.entries|
    case Truncate(at, _) => at < |t.entries|
    case Reestimate => true
    case Compact(count, _) => SafeCut(t, count)
    case NextIteration(_) => true
    case Reload(_) => Accepts(Export(t))
  }

  ghost function Perform(t: Thread, m: Move, factor: real): Thread
    requires Allowed(t, m)
  {
    match m
    case Begin(content, images) => BeginTurn(t, content, images, factor)
    case Commit => CloseTurn(t, Committed)
    case Abort(reason) => AbortTurn(t, reason, factor)
    case Interrupt(reason) => InterruptTurn(t, reason, factor)
    case Say(content, calls) => AppendAssistant(t, content, calls, factor)
    case Answer(id, name, content, summary, iteration) => AppendToolResult(t, id, name, content, summary, iteration, factor)
    case Notify(content) => AddNotice(t, content, factor)
    case Elide(at, content) => t.(entries := t.entries[at := ElideEntry(t.entries[at], content, factor)])
    case Truncate(at, content) => t.(entries := t.entries[at := TruncateEntry(t.entries[at], content, factor)])
    case Reestimate => t.(entries := ReestimateAll(t.entries, factor))
    case Compact(count, summary) => ReplacePrefix(t, count, summary, factor)
    case NextIteration(number) => t.(iteration := number)
    case Reload(preserve) => Restore(t, Export(t), preserve, factor)
  }

  lemma {:induction false} RewritingKeepsOutline(t: Thread, m: Move, factor: real)
    requires Sound(t) && Allowed(t, m) && (m.Elide? || m.Truncate? || m.Reestimate?)
    ensures SameOutline(t, Perform(t, m, factor))
  {
    if m.Truncate? { assert EntryOk(t, t.entries[m.at]); }
  }

  lemma {:induction false} MoveKeepsSound(t: Thread, m: Move, factor: real)
    requires Sound(t) && Allowed(t, m)
    ensures Sound(Perform(t, m, factor))
  {
    match m
    case Begin(content, images) => BeginKeepsSound(t, content, images, factor);
    case Commit => CommitKeepsSoundExactly(t);
    case Abort(reason) => AbortKeepsSoundExactly(t, reason, factor);
    case Interrupt(reason) => InterruptKeepsSound(t, reason, factor);
    case Say(content, calls) => AssistantKeepsSoundExactly(t, content, calls, factor);
    case Answer(id, name, content, summary, iteration) => ResultKeepsSoundExactly(t, id, name, content, summary, iteration, factor);
    case Notify(content) => NoticeKeepsSoundExactly(t, content, factor);
    case Compact(count, summary) => CutKeepsSound(t, count, summary, factor);
    case NextIteration(number) => IterationDoesNotMatter(t, number);
    case Reload(preserve) => if preserve { RestoringContinuesTheTurn(t, t, factor); } else { RestoringSettlesTheTurn(t, t, factor); }
    case _ => RewritingKeepsOutline(t, m, factor); OutlineKeepsSound(t, Perform(t, m, factor));
  }

  // ---- One summary, at the front ----

  ghost predicate Tidy(t: Thread) {
    CompactionFirst(t.entries) && SummaryClosed(t) && TokensCount(t.entries)
  }

  lemma {:induction false} OpenPushKeepsTidy(t: Thread, e: Entry)
    requires Tidy(t) && t.open == Some(e.turn) && !e.kind.CompactionKind? && e.tokens > 0
    ensures Tidy(t.(entries := t.entries + [e], lastEntry := t.lastEntry + 1))
  {
    AppendingKeepsSummary(t.entries, e);
  }

  lemma SameKindsKeepTidy(es: seq<Entry>, fs: seq<Entry>)
    requires CompactionFirst(es) && |fs| == |es|
    requires forall i :: 0 <= i < |es| ==> fs[i].kind == es[i].kind && fs[i].turn == es[i].turn
    ensures CompactionFirst(fs)
  {
  }

  lemma {:induction false} BeginKeepsTidy(t: Thread, content: string, images: nat, factor: real)
    requires Sound(t) && Tidy(t) && t.open.None? && factor >= 0.5
    ensures Tidy(BeginTurn(t, content, images, factor))
  {
    var u := BeginTurn(t, content, images, factor);
    var e := u.entries[|t.entries|];
    UsedTurnsAreOld(t, e.turn);
    MessagesCost(e.message, factor);
    AppendingKeepsSummary(t.entries, e);
  }

  lemma {:induction false} NotifyKeepsTidy(t: Thread, content: string, factor: real)
    requires TurnsOk(t) && EntriesOk(t) && Tidy(t) && factor >= 0.5
    ensures Tidy(AddNotice(t, content, factor))
  {
    var e := AddNotice(t, content, factor).entries[|t.entries|];
    MessagesCost(e.message, factor);
    if t.open.None? { UsedTurnsAreOld(t, e.turn); }
    AppendingKeepsSummary(t.entries, e);
  }

  lemma {:induction false} DroppingKeepsTidy(t: Thread, id: TurnId, factor: real)
    requires Tidy(t) && factor >= 0.5
    ensures Tidy(t.(entries := DropAllUnanswered(t.entries, id, factor)))
  {
    var fs := DropAllUnanswered(t.entries, id, factor);
    forall i | 0 <= i < |fs| ensures fs[i].tokens > 0 {
      MessagesCost(fs[i].message, factor);
    }
    SameKindsKeepTidy(t.entries, fs);
  }

  lemma {:induction false} AbortKeepsTidy(t: Thread, reason: string, factor: real)
    requires Tidy(t) && t.open.Some? && factor >= 0.5
    ensures Tidy(AbortTurn(t, reason, factor))
  {
    var e := AbortTurn(t, reason, factor).entries[|t.entries|];
    MessagesCost(e.message, factor);
    OpenPushKeepsTidy(t, e);
  }

  lemma SamePatternKeepsTidy(es: seq<Entry>, fs: seq<Entry>)
    requires CompactionFirst(es) && |fs| == |es| && forall i :: 0 <= i < |es| ==> fs[i].kind == es[i].kind
    requires forall i, j :: 0 <= i < |es| && 0 <= j < |es| ==> (es[i].turn == es[j].turn <==> fs[i].turn == fs[j].turn)
    ensures CompactionFirst(fs)
  {
  }

  lemma {:induction false} ReloadKeepsTidy(t: Thread, preserve: bool, factor: real)
    requires Sound(t) && Tidy(t) && Accepts(Export(t)) && factor >= 0.5
    ensures Tidy(Restore(t, Export(t), preserve, factor))
  {
    hide Accepts, Reopened, NewOpen, Export;
    var u := Renamed(t, Export(t), preserve, factor);
    RenamedIsCopy(t, t, preserve, factor);
    CopyHasSamePattern(t, u, t.lastTurn, preserve);
    forall i: nat | i < |t.entries| ensures u.entries[i].kind == t.entries[i].kind && u.entries[i].tokens > 0 {
      assert CopiedEntry(t.entries, t.turns, u.entries, u.turns, i);
      MessagesCost(u.entries[i].message, factor);
    }
    SamePatternKeepsTidy(t.entries, u.entries);
    ReopenKeepsTidy(t, u, preserve, factor);
  }

  lemma {:induction false} ReopenKeepsTidy(t: Thread, u: Thread, preserve: bool, factor: real)
    requires Sound(t) && Tidy(t) && Accepts(Export(t)) && factor >= 0.5
    requires u == Renamed(t, Export(t), preserve, factor) && IsCopy(t, u, t.lastTurn, preserve) && Tidy(u)
    ensures Tidy(Reopened(u, NewOpen(t, Export(t)), preserve, factor))
  {
    if t.open.None? {
      OpenTurnsAre(t);
    } else if preserve {
      SummaryStaysClosed(t, u);
    } else {
      var j := LastCopied(t, t, u);
      CopyTurns(t, u, t.lastTurn, false);
      CopyEntries(t, u, t.lastTurn, false, t.lastEntry);
      CancellingKeepsTidy(u, u.turns[j].id, factor);
    }
  }

  lemma {:induction false} CancellingKeepsTidy(u: Thread, id: TurnId, factor: real)
    requires Tidy(u) && TurnsOk(u) && EntriesOk(u) && Together(u.entries) && u.open.None? && factor >= 0.5
    ensures Tidy(AddNotice(u.(entries := DropAllUnanswered(u.entries, id, factor)), CANCELLED_NOTICE, factor))
  {
    DroppingKeepsEntries(u, id, factor);
    DroppingKeepsTidy(u, id, factor);
    NotifyKeepsTidy(u.(entries := DropAllUnanswered(u.entries, id, factor)), CANCELLED_NOTICE, factor);
  }

  lemma {:induction false} SummaryStaysClosed(t: Thread, u: Thread)
    requires TurnsOk(t) && Tidy(t) && Accepts(Export(t)) && t.open.Some? && IsCopy(t, u, t.lastTurn, true)
    ensures StartsWithCompaction(u.entries) ==> NewOpen(t, Export(t)) != Some(u.entries[0].turn)
  {
    var j := NewOpenIs(t, t);
    if |t.entries| > 0 {
      assert CopiedEntry(t.entries, t.turns, u.entries, u.turns, 0);
      var k: nat :| SameTurnAt(t.entries, t.turns, u.entries, u.turns, 0, k);
    }
  }

  lemma {:induction false} RewritingKeepsTidy(t: Thread, m: Move, factor: real)
    requires Sound(t) && Tidy(t) && Allowed(t, m) && factor >= 0.5 && (m.Elide? || m.Truncate? || m.Reestimate?)
    ensures Tidy(Perform(t, m, factor))
  {
    RewritingKeepsOutline(t, m, factor);
    var u := Perform(t, m, factor);
    forall i | 0 <= i < |u.entries| ensures u.entries[i].tokens > 0 {
      MessagesCost(u.entries[i].message, factor);
    }
    SameKindsKeepTidy(t.entries, u.entries);
  }

  lemma {:induction false} CutKeepsTidy(t: Thread, k: nat, summary: string, factor: real)
    requires Sound(t) && Tidy(t) && SafeCut(t, k) && factor >= 0.5
    ensures Tidy(ReplacePrefix(t, k, summary, factor))
  {
    if k > 0 {
      var head := ReplacePrefix(t, k, summary, factor).entries[0];
      UsedTurnsAreOld(t, head.turn);
      MessagesCost(head.message, factor);
      CutSummary(t.entries, k, head);
    }
  }

  lemma {:induction false} MoveKeepsTidy(t: Thread, m: Move, factor: real)
    requires Sound(t) && Tidy(t) && Allowed(t, m) && factor >= 0.5
    ensures Tidy(Perform(t, m, factor))
  {
    match m
    case Begin(content, images) => BeginKeepsTidy(t, content, images, factor);
    case Commit =>
    case Abort(reason) => AbortKeepsTidy(t, reason, factor);
    case Interrupt(reason) =>
      DroppingKeepsTidy(t, t.open.value, factor);
      AbortKeepsTidy(t.(entries := DropAllUnanswered(t.entries, t.open.value, factor)), reason, factor);
    case Say(_, _) =>
      MessagesCost(Perform(t, m, factor).entries[|t.entries|].message, factor);
      OpenPushKeepsTidy(t, Perform(t, m, factor).entries[|t.entries|]);
    case Answer(_, _, _, _, _) =>
      MessagesCost(Perform(t, m, factor).entries[|t.entries|].message, factor);
      OpenPushKeepsTidy(t, Perform(t, m, factor).entries[|t.entries|]);
    case Notify(content) => NotifyKeepsTidy(t, content, factor);
    case Compact(count, summary) => CutKeepsTidy(t, count, summary, factor);
    case NextIteration(_) =>
    case Reload(preserve) => ReloadKeepsTidy(t, preserve, factor);
    case _ => RewritingKeepsTidy(t, m, factor);
  }

  // ---- Runs ----

  datatype Event = Event(move: Move, factor: real)

  /** The thread after a run of allowed moves from the empty one; None when some move is not allowed. */
  ghost function After(run: seq<Event>): Option<Thread> {
    if |run| == 0 then Some(EMPTY)
    else
      match After(run[..|run| - 1])
      case None => None
      case Some(t) =>
        var e := run[|run| - 1];
        if Allowed(t, e.move) then Some(Perform(t, e.move, e.factor)) else None
  }

  lemma {:induction false} EveryRunIsSound(run: seq<Event>)
    requires After(run).Some?
    ensures Sound(After(run).value)
    decreases |run|
  {
    if |run| == 0 {
      assert Shapes([]) == [];
    } else {
      EveryRunIsSound(run[..|run| - 1]);
      MoveKeepsSound(After(run[..|run| - 1]).value, run[|run| - 1].move, run[|run| - 1].factor);
    }
  }

  /** Between requests the governor finds what it needs, whatever happened before. */
  lemma {:induction false} EveryRunIsSettled(run: seq<Event>)
    requires After(run).Some? && forall i :: 0 <= i < |run| ==> run[i].factor >= 0.5
    ensures Sound(After(run).value) && Tidy(After(run).value)
    ensures NothingPending(After(run).value) ==> Settled(After(run).value)
    decreases |run|
  {
    EveryRunIsSound(run);
    if |run| > 0 {
      var n := |run| - 1;
      EveryRunIsSettled(run[..n]);
      MoveKeepsTidy(After(run[..n]).value, run[n].move, run[n].factor);
    }
  }

  // ---- In terms of entries ----

  /** Entry `k` is the result of a call made by entry `a`, with only other results of the same turn between. */
  predicate Resolves(es: seq<Entry>, a: nat, k: nat) {
    && a < k < |es| && es[k].message.ToolMessage? && es[a].turn == es[k].turn
    && es[a].message.ChatMessage? && es[a].message.role.Assistant? && es[k].message.callId in CallIds(es[a].message.calls)
    && forall m :: a < m < k ==> es[m].turn == es[k].turn && es[m].message.ToolMessage?
                                 && es[m].message.callId != es[k].message.callId
  }

  ghost predicate EveryResultHasItsCall(es: seq<Entry>) {
    forall k: nat :: k < |es| && es[k].message.ToolMessage? ==> exists a: nat :: Resolves(es, a, k)
  }

  predicate IsResultOf(es: seq<Entry>, a: nat, k: nat, id: string) {
    Resolves(es, a, k) && es[k].message.callId == id
  }

  predicate IsClosedCall(t: Thread, a: nat, id: string) {
    && a < |t.entries| && t.entries[a].message.ChatMessage? && id in CallIds(t.entries[a].message.calls)
    && t.open != Some(t.entries[a].turn)
  }

  ghost predicate EveryClosedCallIsAnswered(t: Thread) {
    forall a: nat, id :: IsClosedCall(t, a, id) ==> exists k: nat :: IsResultOf(t.entries, a, k, id)
  }

  lemma {:induction false} SoundMeansPaired(t: Thread)
    requires Sound(t)
    ensures EveryResultHasItsCall(t.entries) && EveryClosedCallIsAnswered(t)
  {
    forall k: nat | k < |t.entries| && t.entries[k].message.ToolMessage? ensures exists a: nat :: Resolves(t.entries, a, k) {
      var a := CallOfResult(t, k);
    }
    forall a: nat, id | IsClosedCall(t, a, id) ensures exists k: nat :: IsResultOf(t.entries, a, k, id) {
      var k := ResultOfCall(t, a, id);
    }
  }

  lemma {:induction false} CallOfResult(t: Thread, k: nat) returns (a: nat)
    requires Sound(t) && k < |t.entries| && t.entries[k].message.ToolMessage?
    ensures Resolves(t.entries, a, k)
  {
    var es, xs := t.entries, Shapes(t.entries);
    a := ResultsFollowTheirCall(xs, k);
    RequestsAreChats(t, a);
    assert forall m :: a < m < k ==> xs[m] == ShapeOf(es[m]);
  }

  lemma {:induction false} ResultOfCall(t: Thread, a: nat, id: string) returns (k: nat)
    requires Sound(t) && IsClosedCall(t, a, id)
    ensures IsResultOf(t.entries, a, k, id)
  {
    var es, xs := t.entries, Shapes(t.entries);
    k := CallsAreAnswered(xs, a, id);
    RequestsAreChats(t, a);
    assert forall m :: a < m < k ==> xs[m] == ShapeOf(es[m]);
  }

  lemma {:induction false} RequestsAreChats(t: Thread, a: nat)
    requires Sound(t) && a < |t.entries| && ShapeOf(t.entries[a]).requests != []
    ensures t.entries[a].message.ChatMessage? && t.entries[a].message.role.Assistant?
  {
    assert EntryOk(t, t.entries[a]);
    assert CallIds([]) == [];
  }

  /** The rule over whole histories. */
  lemma {:induction false} PairingSurvivesEverything(run: seq<Event>)
    requires After(run).Some?
    ensures EveryResultHasItsCall(After(run).value.entries) && EveryClosedCallIsAnswered(After(run).value)
  {
    EveryRunIsSound(run);
    SoundMeansPaired(After(run).value);
  }
}
