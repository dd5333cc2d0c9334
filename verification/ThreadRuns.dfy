/** Every operation of a thread keeps the provider's rule, exactly when its caller keeps to the protocol. */
module ThreadRuns {
  import opened Messages
  import opened ThreadModel
  import opened ThreadProtocol
  import opened Wrappers

  // ---- Appending one entry ----

  ghost predicate Fresh(t: Thread, e: Entry) {
    && e.id == t.lastEntry + 1 && HasTurn(t.turns, e.turn) && RoleMatches(e.kind, e.message)
    && (e.message.ChatMessage? && !e.message.role.Assistant? ==> e.message.calls == [])
  }

  function Pushed(t: Thread, e: Entry): Thread {
    t.(entries := t.entries + [e], lastEntry := t.lastEntry + 1)
  }

  lemma {:induction false} PushKeepsEntries(t: Thread, e: Entry)
    requires EntriesOk(t) && Fresh(t, e)
    ensures EntriesOk(Pushed(t, e))
  {
    var u := Pushed(t, e);
    forall i | 0 <= i < |u.entries| ensures EntryOk(u, u.entries[i]) && (i < |t.entries| ==> u.entries[i].id < e.id) {
      if i < |t.entries| { assert EntryOk(t, t.entries[i]); }
    }
  }

  /** An entry of the last turn, or of a new one, leaves the turns together. */
  lemma {:induction false} PushKeepsTogether(es: seq<Entry>, e: Entry)
    requires Together(es) && (!Uses(es, e.turn) || es[|es| - 1].turn == e.turn)
    ensures Together(es + [e])
  {
    forall k: nat | k < |es| + 1 ensures Joined(es + [e], k) {
      if k < |es| { assert Joined(es, k); }
    }
  }

  /** What the open turn's next entry does to the rule. */
  lemma {:induction false} PushIntoOpenTurn(t: Thread, e: Entry)
    requires Sound(t) && t.open == Some(e.turn) && Fresh(t, e)
    ensures Read(Pushed(t, e).entries) == Step(Read(t.entries), ShapeOf(e))
    ensures Sound(Pushed(t, e)) <==> Step(Read(t.entries), ShapeOf(e)).Scan?
  {
    PushKeepsEntries(t, e);
    PushKeepsTogether(t.entries, e);
    ReadSnoc(t.entries, e);
  }

  /** A text without calls may follow exactly when nothing is pending. */
  lemma {:induction false} TextStep(s: Scan, e: Entry)
    requires e.message.ChatMessage? && e.message.calls == []
    ensures Step(s, ShapeOf(e)) == if s.Broken? || s.pending != {} then Broken
                                   else Scan(Some(e.turn), {}, if s.turn == Some(e.turn) then s.seen else {})
  {
    assert CallIds([]) == [] && IdSet([]) == {};
  }

  /** The last entry's turn is the one being read. */
  lemma {:induction false} ReadingLast(es: seq<Entry>)
    requires Read(es).Scan? && |es| > 0
    ensures Read(es).turn == Some(es[|es| - 1].turn)
  {
    LastTurnRead(Shapes(es));
  }

  lemma {:induction false} UsedTurnsAreOld(t: Thread, id: TurnId)
    requires TurnsOk(t) && EntriesOk(t) && id.n > t.lastTurn
    ensures !HasTurn(t.turns, id) && !Uses(t.entries, id)
  {
    forall i | 0 <= i < |t.entries| ensures t.entries[i].turn != id {
      assert EntryOk(t, t.entries[i]);
    }
  }

  function Opened(t: Thread, id: TurnId, status: Status): Thread {
    t.(turns := t.turns + [Turn(id, status)], lastTurn := t.lastTurn + 1, open := if status.Open? then Some(id) else t.open)
  }

  lemma {:induction false} NewTurn(t: Thread, id: TurnId, status: Status)
    requires TurnsOk(t) && EntriesOk(t) && t.open.None? && id.n == t.lastTurn + 1
    ensures var u := Opened(t, id, status); TurnsOk(u) && EntriesOk(u) && HasTurn(u.turns, id) && !Uses(u.entries, id)
  {
    UsedTurnsAreOld(t, id);
    var u := Opened(t, id, status);
    assert u.turns[|t.turns|].id == id;
    assert forall i :: 0 <= i < |t.turns| ==> u.turns[i] == t.turns[i] && t.turns[i].id != id;
    forall i | 0 <= i < |u.entries| ensures EntryOk(u, u.entries[i]) {
      assert EntryOk(t, t.entries[i]);
      var j :| 0 <= j < |t.turns| && t.turns[j].id == t.entries[i].turn;
      assert u.turns[j] == t.turns[j];
    }
  }

  // ---- Operations ----

  lemma {:induction false} BeginKeepsSound(t: Thread, content: string, images: nat, factor: real)
    requires Sound(t) && t.open.None?
    ensures Sound(BeginTurn(t, content, images, factor)) && NothingPending(BeginTurn(t, content, images, factor))
  {
    var id := Plain(t.lastTurn + 1);
    var u := Opened(t, id, Open);
    NewTurn(t, id, Open);
    var v := BeginTurn(t, content, images, factor);
    var e := v.entries[|t.entries|];
    assert v == Pushed(u, e);
    PushKeepsEntries(u, e);
    PushKeepsTogether(t.entries, e);
    ReadSnoc(t.entries, e);
    TextStep(Read(t.entries), e);
  }

  /** A request may follow only when nothing is pending, with ids that are new in the turn. */
  lemma {:induction false} AssistantKeepsSoundExactly(t: Thread, content: string, calls: seq<Call>, factor: real)
    requires Sound(t) && t.open.Some?
    ensures var u := AppendAssistant(t, content, calls, factor); var ids := CallIds(calls);
            && (Sound(u) <==> NothingPending(t) && Distinct(ids) && IdSet(ids) * Read(t.entries).seen == {})
            && (Sound(u) ==> Read(u.entries).pending == IdSet(ids))
            && (Sound(u) ==> Read(u.entries).seen == Read(t.entries).seen + IdSet(ids))
  {
    var u := AppendAssistant(t, content, calls, factor);
    ReadingLast(t.entries);
    PushIntoOpenTurn(t, u.entries[|t.entries|]);
  }

  /** A result fits exactly when its call is pending, and it settles that call only. */
  lemma {:induction false} ResultKeepsSoundExactly(t: Thread, callId: string, name: string, content: string, summary: Option<string>,
                                iteration: Option<int>, factor: real)
    requires Sound(t) && t.open.Some?
    ensures var u := AppendToolResult(t, callId, name, content, summary, iteration, factor);
            && (Sound(u) <==> callId in Read(t.entries).pending)
            && (Sound(u) ==> Read(u.entries).pending == Read(t.entries).pending - {callId})
            && (Sound(u) ==> Read(u.entries).seen == Read(t.entries).seen)
  {
    var u := AppendToolResult(t, callId, name, content, summary, iteration, factor);
    ReadingLast(t.entries);
    PushIntoOpenTurn(t, u.entries[|t.entries|]);
  }

  lemma {:induction false} ClosingKeepsTurns(t: Thread, status: Status)
    requires TurnsOk(t) && EntriesOk(t) && t.open.Some? && !status.Open?
    ensures var u := CloseTurn(t, status); TurnsOk(u) && EntriesOk(u)
  {
    var u := CloseTurn(t, status);
    forall i | 0 <= i < |u.entries| ensures EntryOk(u, u.entries[i]) {
      assert EntryOk(t, t.entries[i]);
      var j :| 0 <= j < |t.turns| && t.turns[j].id == t.entries[i].turn;
      assert u.turns[j].id == t.turns[j].id;
    }
  }

  /** A turn may be committed exactly when its calls are answered. */
  lemma {:induction false} CommitKeepsSoundExactly(t: Thread)
    requires Sound(t) && t.open.Some?
    ensures Sound(CloseTurn(t, Committed)) <==> NothingPending(t)
  {
    ClosingKeepsTurns(t, Committed);
  }

  /** Aborting does not cancel calls: with one unanswered the rule is broken. */
  lemma {:induction false} AbortKeepsSoundExactly(t: Thread, reason: string, factor: real)
    requires Sound(t) && t.open.Some?
    ensures Sound(AbortTurn(t, reason, factor)) <==> NothingPending(t)
    ensures NothingPending(t) ==> NothingPending(AbortTurn(t, reason, factor))
  {
    var m := UserText(NOTICE_PREFIX + reason);
    var u := Append(t, t.open.value, NoticeKind, m, None, None, factor);
    ReadingLast(t.entries);
    TextStep(Read(t.entries), u.entries[|t.entries|]);
    PushIntoOpenTurn(t, u.entries[|t.entries|]);
    PushKeepsEntries(t, u.entries[|t.entries|]);
    ClosingKeepsTurns(u, Aborted);
  }

  lemma {:induction false} DroppingKeepsShape(t: Thread, factor: real)
    requires Sound(t) && t.open.Some?
    ensures var u := t.(entries := DropAllUnanswered(t.entries, t.open.value, factor)); Sound(u) && NothingPending(u)
  {
    var id := t.open.value;
    var u := t.(entries := DropAllUnanswered(t.entries, id, factor));
    ReadingLast(t.entries);
    DroppingKeepsEntries(t, id, factor);
    DroppingSettles(t.entries, id, factor);
  }

  /** Only assistants have calls. */
  predicate OnlyAssistantsCall(es: seq<Entry>) {
    forall i :: 0 <= i < |es| && es[i].message.ChatMessage? && !es[i].message.role.Assistant? ==> es[i].message.calls == []
  }

  lemma {:induction false} CallsAreAssistants(t: Thread)
    requires EntriesOk(t)
    ensures OnlyAssistantsCall(t.entries)
  {
    forall i | 0 <= i < |t.entries| && t.entries[i].message.ChatMessage? && !t.entries[i].message.role.Assistant?
      ensures t.entries[i].message.calls == []
    {
      assert EntryOk(t, t.entries[i]);
    }
  }

  lemma {:induction false} DroppingKeepsEntries(t: Thread, id: TurnId, factor: real)
    requires EntriesOk(t) && Together(t.entries)
    ensures OnlyAssistantsCall(t.entries)
    ensures var u := t.(entries := DropAllUnanswered(t.entries, id, factor)); EntriesOk(u) && Together(u.entries)
  {
    var u := t.(entries := DropAllUnanswered(t.entries, id, factor));
    forall i | 0 <= i < |t.entries|
      ensures EntryOk(t, t.entries[i]) && EntryOk(u, u.entries[i])
      ensures u.entries[i].turn == t.entries[i].turn && u.entries[i].id == t.entries[i].id
    {
      assert EntryOk(t, t.entries[i]);
    }
    SameTurnsTogether(t.entries, u.entries);
  }

  lemma {:induction false} SameTurnsTogether(es: seq<Entry>, fs: seq<Entry>)
    requires Together(es) && |fs| == |es| && forall i :: 0 <= i < |es| ==> fs[i].turn == es[i].turn
    ensures Together(fs)
  {
    forall k: nat | k < |fs| ensures Joined(fs, k) {
      assert Joined(es, k);
    }
  }

  /** An interrupt cancels what is unanswered first, so it is always allowed. */
  lemma {:induction false} InterruptKeepsSound(t: Thread, reason: string, factor: real)
    requires Sound(t) && t.open.Some?
    ensures Sound(InterruptTurn(t, reason, factor)) && NothingPending(InterruptTurn(t, reason, factor))
  {
    DroppingKeepsShape(t, factor);
    AbortKeepsSoundExactly(t.(entries := DropAllUnanswered(t.entries, t.open.value, factor)), reason, factor);
  }

  lemma {:induction false} NoticeKeepsSoundExactly(t: Thread, content: string, factor: real)
    requires Sound(t)
    ensures Sound(AddNotice(t, content, factor)) <==> NothingPending(t)
    ensures NothingPending(t) ==> NothingPending(AddNotice(t, content, factor))
  {
    var u := AddNotice(t, content, factor);
    var e := u.entries[|t.entries|];
    TextStep(Read(t.entries), e);
    if t.open.Some? {
      ReadingLast(t.entries);
      PushIntoOpenTurn(t, e);
    } else {
      NewTurn(t, e.turn, Committed);
      PushKeepsEntries(Opened(t, e.turn, Committed), e);
      PushKeepsTogether(t.entries, e);
      ReadSnoc(t.entries, e);
    }
  }

  // ---- Rewriting in place ----

  /** The same entry with another text. */
  predicate SameOutlineEntry(e: Entry, f: Entry) {
    && f.id == e.id && f.turn == e.turn && f.kind == e.kind && f.iteration == e.iteration
    && SameOutlineMessage(e.message, f.message)
  }

  /** Same entries with other texts. */
  ghost predicate SameOutline(t: Thread, u: Thread) {
    && u == t.(entries := u.entries) && |u.entries| == |t.entries|
    && forall i :: 0 <= i < |t.entries| ==> SameOutlineEntry(t.entries[i], u.entries[i])
  }

  predicate SameOutlineMessage(m: Message, w: Message) {
    || (m.ToolMessage? && w.ToolMessage? && w.callId == m.callId && w.name == m.name)
    || (m.ChatMessage? && w.ChatMessage? && w.role == m.role && w.calls == m.calls)
  }

  lemma {:induction false} OutlineKeepsSound(t: Thread, u: Thread)
    requires SameOutline(t, u)
    ensures Sound(t) ==> Sound(u)
    ensures Read(u.entries) == Read(t.entries)
  {
    SameShapesReadAlike(t.entries, u.entries);
    if Sound(t) {
      forall i | 0 <= i < |t.entries| ensures EntryOk(u, u.entries[i]) {
        assert EntryOk(t, t.entries[i]);
      }
      SameTurnsTogether(t.entries, u.entries);
    }
  }

  lemma OutlineIsTransitive(t: Thread, u: Thread, v: Thread)
    requires SameOutline(t, u) && SameOutline(u, v)
    ensures SameOutline(t, v)
  {
  }

  // ---- Compaction ----

  /** Nothing of the open turn is cut off and the rest does not start with a result. */
  predicate SafeCut(t: Thread, k: nat) {
    && k <= |t.entries|
    && (k < |t.entries| ==> t.entries[k].message.ChatMessage?)
    && forall i :: 0 <= i < k ==> t.open != Some(t.entries[i].turn)
  }

  lemma DistinctSnoc(turns: seq<Turn>, x: Turn)
    requires DistinctTurns(turns) && !HasTurn(turns, x.id)
    ensures DistinctTurns(turns + [x])
  {
  }

  lemma {:induction false} TurnsInUseDistinct(turns: seq<Turn>, entries: seq<Entry>, dropped: seq<Entry>)
    requires DistinctTurns(turns)
    ensures DistinctTurns(TurnsInUse(turns, entries, dropped))
    decreases |turns|
  {
    if |turns| > 0 {
      var n := |turns| - 1;
      TurnsInUseDistinct(turns[..n], entries, dropped);
      var rest := TurnsInUse(turns[..n], entries, dropped);
      forall i | 0 <= i < |rest| ensures rest[i].id != turns[n].id {
        assert rest[i] in turns[..n];
      }
      DistinctSnoc(rest, turns[n]);
      assert rest + [] == rest;
    }
  }

  lemma {:induction false} CutKeepsTurns(t: Thread, k: nat, summary: string, factor: real)
    requires TurnsOk(t) && EntriesOk(t) && OpenIsLast(t) && 0 < k && SafeCut(t, k)
    ensures TurnsOk(ReplacePrefix(t, k, summary, factor))
    ensures forall i :: k <= i < |t.entries| ==> HasTurn(ReplacePrefix(t, k, summary, factor).turns, t.entries[i].turn)
  {
    var u := ReplacePrefix(t, k, summary, factor);
    var kept, dropped := t.entries[k..], t.entries[..k];
    var rest := TurnsInUse(t.turns, kept, dropped);
    TurnsInUseDistinct(t.turns, kept, dropped);
    var x := Turn(CompactionTurn(t.lastTurn + 1), Committed);
    assert u.turns == rest + [x];
    forall i | 0 <= i < |rest| ensures rest[i].id.n <= t.lastTurn && (rest[i].status.Open? <==> t.open == Some(rest[i].id)) {
      assert rest[i] in t.turns;
    }
    forall i | k <= i < |t.entries| ensures HasTurn(u.turns, t.entries[i].turn) {
      TurnSurvives(t, k, i);
      var y :| y in rest && y.id == t.entries[i].turn;
      KnownTurn(u.turns, y);
    }
    DistinctSnoc(rest, x);
    if t.open.Some? {
      assert t.entries[|t.entries| - 1].turn == t.open.value;
    }
  }

  lemma {:induction false} TurnSurvives(t: Thread, k: nat, i: nat)
    requires EntriesOk(t) && k <= i < |t.entries|
    ensures exists x :: x in TurnsInUse(t.turns, t.entries[k..], t.entries[..k]) && x.id == t.entries[i].turn
  {
    var kept := t.entries[k..];
    assert EntryOk(t, t.entries[i]);
    assert t.entries[i] == kept[i - k];
    var j :| 0 <= j < |t.turns| && t.turns[j].id == t.entries[i].turn;
    assert Uses(kept, t.turns[j].id);
    assert t.turns[j] in TurnsInUse(t.turns, kept, t.entries[..k]);
  }

  lemma KnownTurn(turns: seq<Turn>, x: Turn)
    requires x in turns
    ensures HasTurn(turns, x.id)
  {
  }

  lemma {:induction false} CutKeepsEntries(t: Thread, k: nat, summary: string, factor: real)
    requires TurnsOk(t) && EntriesOk(t) && OpenIsLast(t) && 0 < k && SafeCut(t, k)
    ensures EntriesOk(ReplacePrefix(t, k, summary, factor))
  {
    var u := ReplacePrefix(t, k, summary, factor);
    CutKeepsTurns(t, k, summary, factor);
    KnownTurn(u.turns, u.turns[|u.turns| - 1]);
    var head, kept := u.entries[0], t.entries[k..];
    forall i | 0 <= i < |kept| ensures EntryOk(u, kept[i]) && kept[i].id < head.id {
      assert EntryOk(t, t.entries[i + k]);
    }
    DistinctSuffix(t.entries, k);
    DistinctCons(head, kept);
  }

  lemma {:induction false} DistinctSuffix(es: seq<Entry>, k: nat)
    requires DistinctEntries(es) && k <= |es|
    ensures DistinctEntries(es[k..])
  {
    assert forall i :: 0 <= i < |es| - k ==> es[k..][i] == es[i + k];
  }

  lemma DistinctCons(head: Entry, es: seq<Entry>)
    requires DistinctEntries(es) && forall i :: 0 <= i < |es| ==> es[i].id < head.id
    ensures DistinctEntries([head] + es)
  {
  }

  lemma {:induction false} TogetherSuffix(es: seq<Entry>, k: nat)
    requires Together(es) && k <= |es|
    ensures Together(es[k..])
  {
    forall i: nat | i < |es| - k ensures Joined(es[k..], i) {
      assert Joined(es, i + k);
    }
  }

  lemma {:induction false} TogetherCons(head: Entry, es: seq<Entry>)
    requires Together(es) && !Uses(es, head.turn)
    ensures Together([head] + es)
  {
    var all := [head] + es;
    forall k: nat | k < |all| ensures Joined(all, k) {
      if k > 0 { assert Joined(es, k - 1); }
    }
  }

  lemma {:induction false} CutOrder(es: seq<Entry>, k: nat, head: Entry)
    requires Together(es) && k <= |es| && !Uses(es, head.turn)
    ensures Together([head] + es[k..])
  {
    TogetherSuffix(es, k);
    TogetherCons(head, es[k..]);
  }

  lemma {:induction false} CutKeepsOrder(t: Thread, k: nat, summary: string, factor: real)
    requires TurnsOk(t) && EntriesOk(t) && Together(t.entries) && OpenIsLast(t) && 0 < k && SafeCut(t, k)
    ensures Together(ReplacePrefix(t, k, summary, factor).entries) && OpenIsLast(ReplacePrefix(t, k, summary, factor))
  {
    var head := ReplacePrefix(t, k, summary, factor).entries[0];
    UsedTurnsAreOld(t, head.turn);
    CutOrder(t.entries, k, head);
    LastStays(head, t.entries, k);
  }

  lemma LastStays(head: Entry, es: seq<Entry>, k: nat)
    requires k <= |es|
    ensures var all := [head] + es[k..]; k < |es| ==> all[|all| - 1] == es[|es| - 1]
  {
  }

  /** A safe cut keeps the rule, and what was pending stays pending. */
  lemma {:induction false} CutKeepsSound(t: Thread, k: nat, summary: string, factor: real)
    requires Sound(t) && SafeCut(t, k)
    ensures Sound(ReplacePrefix(t, k, summary, factor))
    ensures Read(ReplacePrefix(t, k, summary, factor).entries).pending == Read(t.entries).pending
  {
    if k > 0 {
      var u := ReplacePrefix(t, k, summary, factor);
      CutKeepsTurns(t, k, summary, factor);
      CutKeepsEntries(t, k, summary, factor);
      CutKeepsOrder(t, k, summary, factor);
      CutReads(t.entries, k, u.entries[0]);
    }
  }
}
