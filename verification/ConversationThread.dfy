/** The conversation thread: entries, turns and the open turn are changed in place by every operation. */
module ConversationThread {
  import opened Messages
  import opened ThreadModel
  import opened ThreadState
  import opened TokenEstimator
  import opened Wrappers

  /** Position of the entry with the given id. */
  function IndexOf(es: seq<Entry>, id: nat): (r: Option<nat>)
    ensures r.Some? ==> r.value < |es| && es[r.value].id == id
    ensures r.None? ==> forall i :: 0 <= i < |es| ==> es[i].id != id
    decreases |es|
  {
    if |es| == 0 then None
    else
      match IndexOf(es[..|es| - 1], id)
      case Some(i) => Some(i)
      case None => if es[|es| - 1].id == id then Some(|es| - 1) else None
  }

  function ElideById(t: Thread, id: nat, content: string, factor: real): Thread {
    match IndexOf(t.entries, id)
    case None => t
    case Some(i) => t.(entries := t.entries[i := ElideEntry(t.entries[i], content, factor)])
  }

  function TruncateById(t: Thread, id: nat, content: string, factor: real): Thread {
    match IndexOf(t.entries, id)
    case None => t
    case Some(i) => t.(entries := t.entries[i := TruncateEntry(t.entries[i], content, factor)])
  }

  method Find(es: seq<Entry>, id: nat) returns (r: Option<nat>)
    ensures r == IndexOf(es, id)
  {
    for i := 0 to |es|
      invariant IndexOf(es[..i], id) == None
    {
      assert es[..i + 1][..i] == es[..i];
      if es[i].id == id {
        IndexStays(es, id, i + 1);
        return Some(i);
      }
    }
    assert es[..|es|] == es;
    r := None;
  }

  lemma {:induction false} IndexStays(es: seq<Entry>, id: nat, n: nat)
    requires n <= |es| && IndexOf(es[..n], id).Some?
    ensures IndexOf(es, id) == IndexOf(es[..n], id)
    decreases |es|
  {
    if n == |es| {
      assert es[..n] == es;
    } else {
      assert es[..|es| - 1][..n] == es[..n];
      IndexStays(es[..|es| - 1], id, n);
    }
  }

  function Without(turns: seq<Turn>, id: TurnId): (r: seq<Turn>) {
    if |turns| == 0 then []
    else Without(turns[..|turns| - 1], id) + if turns[|turns| - 1].id == id then [] else [turns[|turns| - 1]]
  }

  /** Deleting the turns of the dropped entries one by one keeps those still in use. */
  lemma {:induction false} WithoutOneMore(turns: seq<Turn>, kept: seq<Entry>, dropped: seq<Entry>, e: Entry)
    ensures var before := TurnsInUse(turns, kept, dropped);
            TurnsInUse(turns, kept, dropped + [e]) == if Uses(kept, e.turn) then before else Without(before, e.turn)
    decreases |turns|
  {
    if |turns| > 0 {
      var init, x := turns[..|turns| - 1], turns[|turns| - 1];
      WithoutOneMore(init, kept, dropped, e);
      UsesSnoc(dropped, e, x.id);
      var rest := TurnsInUse(init, kept, dropped);
      assert (rest + [x])[..|rest|] == rest;
      assert rest + [] == rest;
    }
  }

  lemma {:induction false} UsesSnoc(es: seq<Entry>, e: Entry, id: TurnId)
    ensures Uses(es + [e], id) <==> Uses(es, id) || e.turn == id
  {
    assert (es + [e])[|es|] == e;
    assert forall i :: 0 <= i < |es| ==> (es + [e])[i] == es[i];
  }

  lemma {:induction false} NothingDropped(turns: seq<Turn>, kept: seq<Entry>)
    ensures TurnsInUse(turns, kept, []) == turns
    decreases |turns|
  {
    if |turns| > 0 {
      assert turns == turns[..|turns| - 1] + [turns[|turns| - 1]];
      assert !Uses([], turns[|turns| - 1].id);
      NothingDropped(turns[..|turns| - 1], kept);
    }
  }

  class ConversationThread {
    var entries: seq<Entry>
    var turns: seq<Turn>
    var openTurnId: Option<TurnId>
    var currentIteration: int
    var entryCounter: nat
    var turnCounter: nat
    const estimator: Estimator

    function View(): Thread
      reads this
    {
      Thread(entries, turns, openTurnId, currentIteration, entryCounter, turnCounter)
    }

    constructor (est: Estimator)
      ensures View() == EMPTY && estimator == est
    {
      entries, turns, openTurnId, currentIteration, entryCounter, turnCounter := [], [], None, 0, 0, 0;
      estimator := est;
    }

    method AppendEntry(turn: TurnId, kind: Kind, message: Message, iteration: Option<int>, summary: Option<string>)
      modifies this`entries, this`entryCounter
      ensures View() == Append(old(View()), turn, kind, message, iteration, summary, estimator.factor)
    {
      entryCounter := entryCounter + 1;
      entries := entries + [Entry(entryCounter, turn, kind, message, estimator.Estimate(message), false, iteration, summary, None)];
    }

    method Begin(userInput: string, images: nat) returns (ok: bool)
      modifies this
      ensures ok <==> old(openTurnId).None?
      ensures View() == if ok then BeginTurn(old(View()), userInput, images, estimator.factor) else old(View())
    {
      if openTurnId.Some? {
        return false;
      }
      turnCounter := turnCounter + 1;
      var id := Plain(turnCounter);
      turns := turns + [Turn(id, Open)];
      openTurnId := Some(id);
      AppendEntry(id, UserKind, ChatMessage(User, userInput, images, []), None, None);
      return true;
    }

    method Commit() returns (ok: bool)
      modifies this
      ensures ok <==> old(openTurnId).Some?
      ensures View() == if ok then CloseTurn(old(View()), Committed) else old(View())
    {
      if openTurnId.None? {
        return false;
      }
      turns := WithStatus(turns, openTurnId.value, Committed);
      openTurnId := None;
      return true;
    }

    method Abort(reason: string) returns (ok: bool)
      modifies this
      ensures ok <==> old(openTurnId).Some?
      ensures View() == if ok then AbortTurn(old(View()), reason, estimator.factor) else old(View())
    {
      if openTurnId.None? {
        return false;
      }
      var id := openTurnId.value;
      AppendEntry(id, NoticeKind, UserText(NOTICE_PREFIX + reason), None, None);
      turns := WithStatus(turns, id, Aborted);
      openTurnId := None;
      return true;
    }

    method ResultIds(turn: TurnId) returns (ids: set<string>)
      ensures ids == AnsweredIn(entries, turn)
    {
      ids := {};
      for i := 0 to |entries|
        invariant ids == AnsweredIn(entries[..i], turn)
      {
        var e := entries[i];
        assert entries[..i + 1] == entries[..i] + [e];
        AnsweredSnoc(entries[..i], e, turn);
        if e.turn == turn && e.message.ToolMessage? {
          ids := ids + {e.message.callId};
        }
      }
      assert entries[..|entries|] == entries;
    }

    method RemoveUnmatchedToolCalls(turn: TurnId)
      modifies this`entries
      ensures entries == DropAllUnanswered(old(entries), turn, estimator.factor)
    {
      var ids := ResultIds(turn);
      for i := 0 to |entries|
        invariant |entries| == |old(entries)|
        invariant forall k :: 0 <= k < i ==> entries[k] == DropUnanswered(old(entries)[k], turn, ids, estimator.factor)
        invariant forall k :: i <= k < |entries| ==> entries[k] == old(entries)[k]
      {
        var e := entries[i];
        if e.turn == turn && Asks(e) {
          var m := ChatMessage(Assistant, e.message.content, 0, KeepAnswered(e.message.calls, ids));
          entries := entries[i := e.(message := m, tokens := estimator.Estimate(m))];
        }
      }
    }

    method Interrupt(reason: string) returns (ok: bool)
      modifies this
      ensures ok <==> old(openTurnId).Some?
      ensures View() == if ok then InterruptTurn(old(View()), reason, estimator.factor) else old(View())
    {
      if openTurnId.None? {
        return false;
      }
      RemoveUnmatchedToolCalls(openTurnId.value);
      ok := Abort(reason);
    }

    method Say(content: string, calls: seq<Call>) returns (ok: bool)
      modifies this
      ensures ok <==> old(openTurnId).Some?
      ensures View() == if ok then AppendAssistant(old(View()), content, calls, estimator.factor) else old(View())
    {
      if openTurnId.None? {
        return false;
      }
      AppendEntry(openTurnId.value, AssistantKind, ChatMessage(Assistant, content, 0, calls), None, None);
      return true;
    }

    method AddToolResult(callId: string, name: string, content: string, summary: Option<string>, iteration: Option<int>)
      returns (ok: bool)
      modifies this
      ensures ok <==> old(openTurnId).Some?
      ensures View() == if ok then AppendToolResult(old(View()), callId, name, content, summary, iteration, estimator.factor)
                        else old(View())
    {
      if openTurnId.None? {
        return false;
      }
      var at := if iteration.Some? then iteration else Some(currentIteration);
      AppendEntry(openTurnId.value, ToolResultKind, ToolMessage(callId, name, content), at, summary);
      var n := |entries| - 1;
      entries := entries[n := entries[n].(originalTokens := Some(entries[n].tokens))];
      return true;
    }

    method Notify(content: string)
      modifies this
      ensures View() == AddNotice(old(View()), content, estimator.factor)
    {
      if openTurnId.Some? {
        AppendEntry(openTurnId.value, NoticeKind, UserText(NOTICE_PREFIX + content), None, None);
      } else {
        turnCounter := turnCounter + 1;
        var id := NoticeTurn(turnCounter);
        turns := turns + [Turn(id, Committed)];
        AppendEntry(id, NoticeKind, UserText(NOTICE_PREFIX + content), None, None);
      }
    }

    method DropUnusedTurns(removed: seq<Entry>)
      modifies this`turns
      ensures turns == TurnsInUse(old(turns), entries, removed)
    {
      NothingDropped(turns, entries);
      for i := 0 to |removed|
        invariant turns == TurnsInUse(old(turns), entries, removed[..i])
      {
        assert removed[..i + 1] == removed[..i] + [removed[i]];
        WithoutOneMore(old(turns), entries, removed[..i], removed[i]);
        if !Uses(entries, removed[i].turn) {
          turns := Without(turns, removed[i].turn);
        }
      }
      assert removed[..|removed|] == removed;
    }

    method ReplacePrefixWithCompaction(entryCount: int, summary: string)
      modifies this
      ensures View() == ReplacePrefix(old(View()), entryCount, summary, estimator.factor)
    {
      var count := if entryCount < 0 then 0 else if entryCount > |entries| then |entries| else entryCount;
      if count == 0 {
        return;
      }
      var removed := entries[..count];
      entries := entries[count..];
      DropUnusedTurns(removed);
      turnCounter := turnCounter + 1;
      var id := CompactionTurn(turnCounter);
      turns := turns + [Turn(id, Committed)];
      entryCounter := entryCounter + 1;
      var m := UserText(COMPACTION_HEAD + summary + COMPACTION_TAIL);
      entries := [Entry(entryCounter, id, CompactionKind, m, estimator.Estimate(m), false, None, None, None)] + entries;
    }

    method ElideToolResult(id: nat, content: string)
      modifies this
      ensures View() == ElideById(old(View()), id, content, estimator.factor)
    {
      var at := Find(entries, id);
      if at.None? || !entries[at.value].kind.ToolResultKind? || !entries[at.value].message.ToolMessage? {
        assert at.Some? ==> entries[at.value := entries[at.value]] == entries;
        return;
      }
      var e := entries[at.value];
      var m := ToolMessage(e.message.callId, e.message.name, content);
      var original := if e.originalTokens.None? then Some(e.tokens) else e.originalTokens;
      entries := entries[at.value := e.(elided := true, originalTokens := original, message := m, tokens := estimator.Estimate(m))];
    }

    method TruncateEntryText(id: nat, content: string)
      modifies this
      ensures View() == TruncateById(old(View()), id, content, estimator.factor)
    {
      var at := Find(entries, id);
      if at.Some? {
        var e := entries[at.value];
        var m := WithText(e.message, content);
        entries := entries[at.value := e.(message := m, tokens := estimator.Estimate(m))];
      }
    }

    method ReestimateTokens()
      modifies this
      ensures View() == old(View()).(entries := ReestimateAll(old(entries), estimator.factor))
    {
      for i := 0 to |entries|
        invariant View() == old(View()).(entries := entries) && |entries| == |old(entries)|
        invariant forall k :: 0 <= k < i ==> entries[k] == ReestimateEntry(old(entries)[k], estimator.factor)
        invariant forall k :: i <= k < |entries| ==> entries[k] == old(entries)[k]
      {
        var e := entries[i];
        var n := estimator.Estimate(e.message);
        entries := entries[i := e.(tokens := n)];
        if e.kind.ToolResultKind? && !e.elided {
          entries := entries[i := entries[i].(originalTokens := Some(n))];
        }
      }
    }

    method RestoreTurnTable(saved: seq<Turn>, preserve: bool) returns (names: map<TurnId, TurnId>)
      requires turns == []
      modifies this`turns, this`turnCounter
      ensures names == Names(saved, old(turnCounter)) && turns == RestoreTurns(saved, old(turnCounter), preserve)
      ensures turnCounter == old(turnCounter) + |saved|
    {
      names := map[];
      for i := 0 to |saved|
        invariant turnCounter == old(turnCounter) + i && names == Names(saved[..i], old(turnCounter))
        invariant turns == RestoreTurns(saved[..i], old(turnCounter), preserve)
      {
        turnCounter := turnCounter + 1;
        var id := Plain(turnCounter);
        assert saved[..i + 1][..i] == saved[..i];
        names := names[saved[i].id := id];
        turns := turns + [Turn(id, RestoredStatus(saved[i].status, preserve))];
      }
      assert saved[..|saved|] == saved;
    }

    method RestoreEntryList(saved: seq<SavedEntry>, names: map<TurnId, TurnId>)
      requires entries == [] && forall i :: 0 <= i < |saved| ==> saved[i].turn in names
      modifies this`entries, this`entryCounter
      ensures entries == RestoreEntries(saved, names, old(entryCounter), estimator.factor)
      ensures entryCounter == old(entryCounter) + |saved|
    {
      for i := 0 to |saved|
        invariant entryCounter == old(entryCounter) + i && |entries| == i
        invariant forall k :: 0 <= k < i ==>
                    entries[k] == RestoreEntry(saved[k], names[saved[k].turn], old(entryCounter) + 1 + k, estimator.factor)
      {
        var s := saved[i];
        AppendEntry(names[s.turn], s.kind, s.message, s.iteration, s.summary);
        entries := entries[i := entries[i].(elided := s.elided, originalTokens := s.originalTokens)];
      }
    }

    /** The restored open turn goes on, or its unanswered calls are cancelled with a notice. */
    method Reopen(id: TurnId, preserve: bool)
      modifies this
      ensures View() == Reopened(old(View()), Some(id), preserve, estimator.factor)
    {
      if preserve {
        openTurnId := Some(id);
      } else {
        RemoveUnmatchedToolCalls(id);
        Notify(CANCELLED_NOTICE);
      }
    }

    method RebuildEntries(state: Saved, preserve: bool) returns (names: map<TurnId, TurnId>)
      requires Accepts(state)
      modifies this
      ensures View() == Renamed(old(View()), state, preserve, estimator.factor)
      ensures names == Names(state.turns, old(turnCounter))
    {
      entries, turns, openTurnId, currentIteration := [], [], None, 0;
      forall i | 0 <= i < |state.entries| ensures HasTurn(state.turns, state.entries[i].turn) {
        assert SavedEntryOk(state.turns, state.entries[i]);
      }
      names := RestoreTurnTable(state.turns, preserve);
      RestoreEntryList(state.entries, names);
    }

    /** Everything under new names, with no turn open yet. */
    method Rebuild(state: Saved, preserve: bool) returns (open: Option<TurnId>)
      requires Accepts(state)
      modifies this
      ensures View() == Renamed(old(View()), state, preserve, estimator.factor)
      ensures open == NewOpen(old(View()), state)
    {
      hide RestoreEntries, RestoreTurns;
      var names := RebuildEntries(state, preserve);
      var ids := OpenTurns(state.turns);
      if |ids| == 0 {
        return None;
      }
      assert ids[0] in ids;
      return Some(names[ids[0]]);
    }

    method RestoreState(state: Saved, preserveOpenTurn: bool) returns (ok: bool)
      modifies this
      ensures ok <==> Accepts(state)
      ensures View() == if ok then Restore(old(View()), state, preserveOpenTurn, estimator.factor) else old(View())
    {
      ok := IsConversationThreadState(state);
      if !ok {
        return;
      }
      var open := Rebuild(state, preserveOpenTurn);
      if open.Some? {
        Reopen(open.value, preserveOpenTurn);
      }
      currentIteration := if state.iteration < 0 then 0 else state.iteration;
    }
  }

  lemma {:induction false} AnsweredSnoc(es: seq<Entry>, e: Entry, turn: TurnId)
    ensures AnsweredIn(es + [e], turn) ==
            AnsweredIn(es, turn) + if e.turn == turn && e.message.ToolMessage? then {e.message.callId} else {}
  {
    var all := es + [e];
    forall id | id in AnsweredIn(es, turn) ensures id in AnsweredIn(all, turn) {
      var i :| 0 <= i < |es| && es[i].turn == turn && es[i].message.ToolMessage? && es[i].message.callId == id;
      assert all[i] == es[i];
    }
    if e.turn == turn && e.message.ToolMessage? {
      assert all[|es|] == e && e.message.callId in AnsweredIn(all, turn);
    }
    forall id | id in AnsweredIn(all, turn)
      ensures id in AnsweredIn(es, turn) || (e.turn == turn && e.message.ToolMessage? && id == e.message.callId)
    {
      var i :| 0 <= i < |all| && all[i].turn == turn && all[i].message.ToolMessage? && all[i].message.callId == id;
      if i < |es| { assert es[i] == all[i]; }
    }
  }

  method IsConversationThreadState(state: Saved) returns (ok: bool)
    ensures ok <==> Accepts(state)
  {
    if state.open.Some? && !HasTurn(state.turns, state.open.value) {
      return false;
    }
    var open := OpenTurns(state.turns);
    if |open| > 1 || (|open| == 1 && state.open != Some(open[0])) || (|open| == 0 && state.open.Some?) {
      return false;
    }
    for i := 0 to |state.entries|
      invariant forall k :: 0 <= k < i ==> SavedEntryOk(state.turns, state.entries[k])
    {
      if !SavedEntryOk(state.turns, state.entries[i]) {
        return false;
      }
    }
    return true;
  }
}
