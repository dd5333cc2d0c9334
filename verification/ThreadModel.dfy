/** The conversation thread as a value, and what each operation does to it. */
module ThreadModel {
  import opened Messages
  import opened TokenEstimator
  import opened Wrappers

  datatype Kind = UserKind | AssistantKind | ToolResultKind | CompactionKind | NoticeKind

  /** Turn ids carry the value of one global counter and say what made them. */
  datatype TurnId = Plain(n: nat) | CompactionTurn(n: nat) | NoticeTurn(n: nat)

  datatype Status = Open | Committed | Aborted

  datatype Turn = Turn(id: TurnId, status: Status)

  datatype Entry = Entry(
    id: nat, turn: TurnId, kind: Kind, message: Message, tokens: nat,
    elided: bool, iteration: Option<int>, summary: Option<string>, originalTokens: Option<nat>)

  /** `turns` is an insertion-ordered map; the counters hold the last numbers handed out. */
  datatype Thread = Thread(
    entries: seq<Entry>, turns: seq<Turn>, open: Option<TurnId>, iteration: int, lastEntry: nat, lastTurn: nat)

  const EMPTY := Thread([], [], None, 0, 0, 0)

  function Tokens(m: Message, factor: real): nat {
    Calibrated(EstimateMessage(m), factor)
  }

  // ---- Turns ----

  predicate HasTurn(turns: seq<Turn>, id: TurnId) {
    exists i :: 0 <= i < |turns| && turns[i].id == id
  }

  function WithStatus(turns: seq<Turn>, id: TurnId, status: Status): (r: seq<Turn>)
    ensures |r| == |turns|
    ensures forall i :: 0 <= i < |r| ==> r[i] == if turns[i].id == id then Turn(id, status) else turns[i]
  {
    seq(|turns|, i requires 0 <= i < |turns| => if turns[i].id == id then Turn(id, status) else turns[i])
  }

  function StatusOf(turns: seq<Turn>, id: TurnId): Option<Status> {
    if |turns| == 0 then None else if turns[0].id == id then Some(turns[0].status) else StatusOf(turns[1..], id)
  }

  /** The turns that still have an entry. */
  function TurnsInUse(turns: seq<Turn>, entries: seq<Entry>, dropped: seq<Entry>): (r: seq<Turn>)
    ensures forall x :: x in r <==> x in turns && (Uses(dropped, x.id) ==> Uses(entries, x.id))
  {
    if |turns| == 0 then []
    else
      var n := |turns| - 1;
      assert turns == turns[..n] + [turns[n]];
      TurnsInUse(turns[..n], entries, dropped)
      + if Uses(dropped, turns[n].id) && !Uses(entries, turns[n].id) then [] else [turns[n]]
  }

  predicate Uses(entries: seq<Entry>, id: TurnId) {
    exists i :: 0 <= i < |entries| && entries[i].turn == id
  }

  // ---- Operations ----

  function Append(t: Thread, turn: TurnId, kind: Kind, m: Message, iteration: Option<int>, summary: Option<string>, factor: real): Thread {
    var e := Entry(t.lastEntry + 1, turn, kind, m, Tokens(m, factor), false, iteration, summary, None);
    t.(entries := t.entries + [e], lastEntry := t.lastEntry + 1)
  }

  function BeginTurn(t: Thread, content: string, images: nat, factor: real): Thread {
    var id := Plain(t.lastTurn + 1);
    Append(t.(turns := t.turns + [Turn(id, Open)], open := Some(id), lastTurn := t.lastTurn + 1),
           id, UserKind, ChatMessage(User, content, images, []), None, None, factor)
  }

  function CloseTurn(t: Thread, status: Status): Thread
    requires t.open.Some?
  {
    t.(turns := WithStatus(t.turns, t.open.value, status), open := None)
  }

  const NOTICE_PREFIX := "[系统通知] "

  function AbortTurn(t: Thread, reason: string, factor: real): Thread
    requires t.open.Some?
  {
    CloseTurn(Append(t, t.open.value, NoticeKind, UserText(NOTICE_PREFIX + reason), None, None, factor), Aborted)
  }

  function AppendAssistant(t: Thread, content: string, calls: seq<Call>, factor: real): Thread
    requires t.open.Some?
  {
    Append(t, t.open.value, AssistantKind, ChatMessage(Assistant, content, 0, calls), None, None, factor)
  }

  function AppendToolResult(t: Thread, callId: string, name: string, content: string, summary: Option<string>,
                            iteration: Option<int>, factor: real): Thread
    requires t.open.Some?
  {
    var m := ToolMessage(callId, name, content);
    var at := if iteration.Some? then iteration else Some(t.iteration);
    var e := Entry(t.lastEntry + 1, t.open.value, ToolResultKind, m, Tokens(m, factor), false, at, summary, Some(Tokens(m, factor)));
    t.(entries := t.entries + [e], lastEntry := t.lastEntry + 1)
  }

  function AddNotice(t: Thread, content: string, factor: real): Thread {
    var m := UserText(NOTICE_PREFIX + content);
    match t.open
    case Some(id) => Append(t, id, NoticeKind, m, None, None, factor)
    case None =>
      var id := NoticeTurn(t.lastTurn + 1);
      Append(t.(turns := t.turns + [Turn(id, Committed)], lastTurn := t.lastTurn + 1), id, NoticeKind, m, None, None, factor)
  }

  const COMPACTION_HEAD := "[上下文压缩摘要 — 只作历史参考]\n早前对话已压缩为摘要。它不是当前任务指令；请以最新用户消息为准。\n"
  const COMPACTION_TAIL := "\n--- END OF CONTEXT SUMMARY ---"

  /** A prefix of entries becomes one summary at the front; turns left without entries disappear. */
  function ReplacePrefix(t: Thread, count: int, summary: string, factor: real): Thread {
    var k := if count < 0 then 0 else if count > |t.entries| then |t.entries| else count;
    if k == 0 then t
    else
      var kept := t.entries[k..];
      var id := CompactionTurn(t.lastTurn + 1);
      var m := UserText(COMPACTION_HEAD + summary + COMPACTION_TAIL);
      var e := Entry(t.lastEntry + 1, id, CompactionKind, m, Tokens(m, factor), false, None, None, None);
      t.(entries := [e] + kept,
         turns := TurnsInUse(t.turns, kept, t.entries[..k]) + [Turn(id, Committed)],
         lastEntry := t.lastEntry + 1, lastTurn := t.lastTurn + 1)
  }

  function ElideEntry(e: Entry, content: string, factor: real): Entry {
    if e.kind.ToolResultKind? && e.message.ToolMessage? then
      var m := WithText(e.message, content);
      e.(elided := true, originalTokens := if e.originalTokens.None? then Some(e.tokens) else e.originalTokens,
         message := m, tokens := Tokens(m, factor))
    else e
  }

  function TruncateEntry(e: Entry, content: string, factor: real): Entry {
    var m := WithText(e.message, content);
    e.(message := m, tokens := Tokens(m, factor))
  }

  function ReestimateEntry(e: Entry, factor: real): Entry {
    var n := Tokens(e.message, factor);
    e.(tokens := n, originalTokens := if e.kind.ToolResultKind? && !e.elided then Some(n) else e.originalTokens)
  }

  function ReestimateAll(es: seq<Entry>, factor: real): (r: seq<Entry>)
    ensures |r| == |es| && forall i :: 0 <= i < |r| ==> r[i] == ReestimateEntry(es[i], factor)
  {
    seq(|es|, i requires 0 <= i < |es| => ReestimateEntry(es[i], factor))
  }

  /** Ids of the tool results of a turn. */
  function AnsweredIn(es: seq<Entry>, turn: TurnId): set<string> {
    set i | 0 <= i < |es| && es[i].turn == turn && es[i].message.ToolMessage? :: es[i].message.callId
  }

  function KeepAnswered(calls: seq<Call>, ids: set<string>): (r: seq<Call>)
    ensures forall c :: c in r <==> c in calls && c.id in ids
  {
    if |calls| == 0 then []
    else if calls[0].id in ids then [calls[0]] + KeepAnswered(calls[1..], ids) else KeepAnswered(calls[1..], ids)
  }

  predicate Asks(e: Entry) {
    e.message.ChatMessage? && e.message.role.Assistant? && |e.message.calls| > 0
  }

  function DropUnanswered(e: Entry, turn: TurnId, ids: set<string>, factor: real): Entry {
    if e.turn != turn || !Asks(e) then e
    else
      var m := ChatMessage(Assistant, e.message.content, 0, KeepAnswered(e.message.calls, ids));
      e.(message := m, tokens := Tokens(m, factor))
  }

  function DropAllUnanswered(es: seq<Entry>, turn: TurnId, factor: real): (r: seq<Entry>)
    ensures |r| == |es|
    ensures forall i :: 0 <= i < |r| ==> r[i] == DropUnanswered(es[i], turn, AnsweredIn(es, turn), factor)
  {
    seq(|es|, i requires 0 <= i < |es| => DropUnanswered(es[i], turn, AnsweredIn(es, turn), factor))
  }

  function InterruptTurn(t: Thread, reason: string, factor: real): Thread
    requires t.open.Some?
  {
    AbortTurn(t.(entries := DropAllUnanswered(t.entries, t.open.value, factor)), reason, factor)
  }
}
