/** Hard truncation: oversized texts are cut down, each with a notice appended to the very list being walked. */
module HardTruncation {
  import opened Governance
  import opened Messages
  import opened ThreadModel
  import opened ThreadProtocol
  import opened ThreadRuns
  import opened TokenEstimator
  import opened Wrappers

  function KindName(kind: Kind): string {
    match kind
    case UserKind => "user"
    case AssistantKind => "assistant"
    case ToolResultKind => "tool-result"
    case CompactionKind => "compaction"
    case NoticeKind => "notice"
  }

  function TruncationNotice(kind: Kind): string {
    "单条消息已硬截断 (" + KindName(kind) + ")"
  }

  const MIN_MESSAGE_CAP := 256

  /** The notices of hard truncation are themselves below its cap. */
  ghost predicate NoticesFit(factor: real) {
    forall kind :: Tokens(UserText(NOTICE_PREFIX + TruncationNotice(kind)), factor) <= MIN_MESSAGE_CAP
  }

  lemma {:induction false} QuartersBound(text: string)
    ensures Quarters(text) <= 4 * |text|
    decreases |text|
  {
    if |text| > 0 { QuartersBound(text[..|text| - 1]); }
  }

  /** They are for every calibration factor the default limits allow. */
  lemma {:induction false} NoticesFitWithinLimits(factor: real)
    requires 0.0 <= factor <= 2.0
    ensures NoticesFit(factor)
  {
    forall kind ensures Tokens(UserText(NOTICE_PREFIX + TruncationNotice(kind)), factor) <= MIN_MESSAGE_CAP {
      var text := NOTICE_PREFIX + TruncationNotice(kind);
      assert |text| <= 40;
      QuartersBound(text);
      EstimateIsMonotone(EstimateMessage(UserText(text)), 44, factor, 2.0);
      assert Calibrated(44, 2.0) == 88;
    }
  }

  function OriginalTokens(e: Entry): nat {
    if e.originalTokens.Some? then e.originalTokens.value else e.tokens
  }

  /** The share of the budget of one message. */
  function MessageCap(budget: int, count: nat): int {
    var share := budget / (if count < 1 then 1 else count);
    if share < MIN_MESSAGE_CAP then MIN_MESSAGE_CAP else share
  }

  function HardTruncated(e: Entry, cap: int, texts: Texts, factor: real): Entry {
    TruncateEntry(e, texts.capped(e.message.content, cap, OriginalTokens(e)), factor)
  }

  function Cut(e: Entry, cap: int, texts: Texts, factor: real): Entry {
    if e.tokens > cap then HardTruncated(e, cap, texts, factor) else e
  }

  predicate IsTruncationNotice(e: Entry, kind: Kind, factor: real) {
    e.kind.NoticeKind? && e.message == UserText(NOTICE_PREFIX + TruncationNotice(kind)) && e.tokens == Tokens(e.message, factor)
  }

  /** One text cut down and a notice of it appended. */
  predicate OneCut(es: seq<Entry>, now: seq<Entry>, at: nat, cap: int, texts: Texts, factor: real) {
    && at < |es| && |now| == |es| + 1
    && (forall i :: 0 <= i < |es| ==> now[i] == if i == at then HardTruncated(es[at], cap, texts, factor) else es[i])
    && IsTruncationNotice(now[|es|], es[at].kind, factor)
  }

  lemma {:induction false} NoticeCompletesCut(es: seq<Entry>, u: Thread, at: nat, cap: int, texts: Texts, factor: real)
    requires at < |es| && u.entries == es[at := HardTruncated(es[at], cap, texts, factor)]
    ensures var v := AddNotice(u, TruncationNotice(es[at].kind), factor);
            OneCut(es, v.entries, at, cap, texts, factor) && v.open == u.open
  {
    hide HardTruncated;
  }

  /** The first `i` entries have been looked at, with `m` notices appended for those cut down. */
  predicate AllCut(es: seq<Entry>, now: seq<Entry>, i: nat, m: nat, cap: int, texts: Texts, factor: real) {
    && m <= i <= |now| && m <= |es| && |now| == |es| + m
    && (forall k :: 0 <= k < |es| ==> now[k] == if k < i then Cut(es[k], cap, texts, factor) else es[k])
    && (forall k :: |es| <= k < |now| ==> now[k].kind.NoticeKind? && now[k].tokens <= cap)
  }

  /** Only an original entry can be over the cap. */
  lemma CutNext(es: seq<Entry>, now: seq<Entry>, i: nat, m: nat, cap: int, texts: Texts, factor: real)
    requires AllCut(es, now, i, m, cap, texts, factor) && i < |now| && now[i].tokens > cap
    ensures i < |es| && now[i] == es[i]
  {
  }

  lemma CutSkips(es: seq<Entry>, now: seq<Entry>, i: nat, m: nat, cap: int, texts: Texts, factor: real)
    requires AllCut(es, now, i, m, cap, texts, factor) && i < |now| && now[i].tokens <= cap
    ensures AllCut(es, now, i + 1, m, cap, texts, factor)
  {
  }

  lemma CutGoesOn(es: seq<Entry>, before: seq<Entry>, now: seq<Entry>, i: nat, m: nat, cap: int, texts: Texts, factor: real)
    requires AllCut(es, before, i, m, cap, texts, factor) && i < |es| && before[i].tokens > cap
    requires OneCut(before, now, i, cap, texts, factor) && NoticesFit(factor) && cap >= MIN_MESSAGE_CAP
    ensures AllCut(es, now, i + 1, m + 1, cap, texts, factor)
  {
  }

  /** One visit of the walk: what the list is after looking at position `i`. */
  predicate Visit(before: seq<Entry>, now: seq<Entry>, i: nat, cap: int, texts: Texts, factor: real) {
    && i < |before|
    && if before[i].tokens > cap then OneCut(before, now, i, cap, texts, factor) else now == before
  }

  /** If a notice about a notice were over the cap, the walk would never reach the end of its list. */
  lemma {:induction false} OversizedNoticesNeverEnd(lists: seq<seq<Entry>>, i: nat, n: nat, j: nat, cap: int, texts: Texts, factor: real)
    returns (k: nat)
    requires Tokens(UserText(NOTICE_PREFIX + TruncationNotice(NoticeKind)), factor) > cap
    requires n < |lists| && forall v :: 0 <= v < n ==> Visit(lists[v], lists[v + 1], i + v, cap, texts, factor)
    requires i <= j < |lists[0]| && lists[0][j].kind.NoticeKind? && lists[0][j].tokens > cap
    ensures i + n <= k < |lists[n]| && lists[n][k].kind.NoticeKind? && lists[n][k].tokens > cap
    decreases n
  {
    k := j;
    if n > 0 {
      k := OversizedNoticesNeverEnd(lists, i, n - 1, j, cap, texts, factor);
      assert Visit(lists[n - 1], lists[n - 1 + 1], i + (n - 1), cap, texts, factor);
      if k == i + n - 1 {
        k := |lists[n - 1]|;
      }
    }
  }

  lemma {:induction false} TruncatingKeepsSettled(t: Thread, at: nat, cap: int, texts: Texts, factor: real)
    requires Settled(t) && at < |t.entries| && factor >= 0.5
    ensures Settled(t.(entries := t.entries[at := HardTruncated(t.entries[at], cap, texts, factor)]))
    ensures SameOutlineEntry(t.entries[at], HardTruncated(t.entries[at], cap, texts, factor))
  {
    var e := HardTruncated(t.entries[at], cap, texts, factor);
    assert EntryOk(t, t.entries[at]);
    MessagesCost(e.message, factor);
    OutlineKeepsSettled(t, t.(entries := t.entries[at := e]));
  }

  lemma CutKeepsOutline(e: Entry, cap: int, texts: Texts, factor: real)
    requires e.message.ChatMessage? && !e.message.role.Assistant? ==> e.message.calls == []
    ensures SameOutlineEntry(e, Cut(e, cap, texts, factor))
  {
  }

  lemma {:induction false} TruncationIsGoverned(t: Thread, v: Thread, w: Thread, k: nat, m: nat, cap: int, texts: Texts, factor: real)
    requires Governed(t, v, k, 0) && OnlyAssistantsCall(v.entries) && w.open == v.open
    requires AllCut(v.entries, w.entries, |w.entries|, m, cap, texts, factor)
    ensures Governed(t, w, k, m)
  {
    var head := if k > 0 then 1 else 0;
    forall i | 0 <= i < |v.entries| ensures SameOutlineEntry(v.entries[i], w.entries[i]) {
      CutKeepsOutline(v.entries[i], cap, texts, factor);
    }
    forall i | k <= i < |t.entries| ensures SameOutlineEntry(t.entries[i], w.entries[i - k + head]) {
      assert SameOutlineEntry(v.entries[i - k + head], w.entries[i - k + head]);
    }
  }
}
