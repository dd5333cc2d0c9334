/** What the governor may do to a thread: the three stages as facts about entries. */
module Governance {
  import opened Messages
  import opened ThreadModel
  import opened ThreadProtocol
  import opened ThreadRuns
  import opened TokenEstimator
  import opened Wrappers

  datatype Policy = Policy(
    preserveToolIterations: int, maxToolResultTokens: int, toolResultQuota: int, preserveRecentTokens: int)

  /** How texts are shortened and summarized; nothing depends on what they say. */
  datatype Texts = Texts(
    elided: Entry -> string, shortened: (string, int) -> string, capped: (string, int, nat) -> string,
    summary: seq<Entry> -> string, summaryBody: string -> string)

  function Sum(es: seq<Entry>): nat {
    if |es| == 0 then 0 else Sum(es[..|es| - 1]) + es[|es| - 1].tokens
  }

  function ToolTokens(es: seq<Entry>): nat {
    if |es| == 0 then 0
    else ToolTokens(es[..|es| - 1]) + if es[|es| - 1].kind.ToolResultKind? then es[|es| - 1].tokens else 0
  }

  lemma {:induction false} SumSplit(es: seq<Entry>, i: nat, j: nat, k: nat)
    requires i <= j <= k <= |es|
    ensures Sum(es[i..k]) == Sum(es[i..j]) + Sum(es[j..k])
    decreases k
  {
    if j == k {
      assert Sum(es[j..k]) == 0;
    } else {
      SumSplit(es, i, j, k - 1);
      assert es[i..k][..k - i - 1] == es[i..k - 1];
      assert es[j..k][..k - j - 1] == es[j..k - 1];
    }
  }

  lemma {:induction false} SumOfTokens(es: seq<Entry>, i: nat, k: nat)
    requires i < k <= |es| && forall m :: 0 <= m < |es| ==> es[m].tokens > 0
    ensures Sum(es[i..k]) > 0
  {
    SumSplit(es, i, k - 1, k);
    assert es[k - 1..k][..0] == [];
    assert es[k - 1..k] == [es[k - 1]];
  }

  // ---- The shape of a settled thread ----

  predicate StartsWithCompaction(es: seq<Entry>) {
    |es| > 0 && es[0].kind.CompactionKind?
  }

  /** A compaction entry can only be the first, and is a turn of its own. */
  ghost predicate CompactionFirst(es: seq<Entry>) {
    && (forall i :: 0 < i < |es| ==> !es[i].kind.CompactionKind?)
    && (StartsWithCompaction(es) ==> forall i :: 0 < i < |es| ==> es[i].turn != es[0].turn)
  }

  /** The summary is never part of the open turn. */
  predicate SummaryClosed(t: Thread) {
    StartsWithCompaction(t.entries) ==> t.open != Some(t.entries[0].turn)
  }

  predicate TokensCount(es: seq<Entry>) {
    forall i :: 0 <= i < |es| ==> es[i].tokens > 0
  }

  /** A thread between two requests to the model. */
  ghost predicate Settled(t: Thread) {
    Sound(t) && NothingPending(t) && CompactionFirst(t.entries) && SummaryClosed(t) && TokensCount(t.entries)
  }

  predicate TurnStart(es: seq<Entry>, b: nat)
    requires b <= |es|
  {
    b == 0 || b == |es| || es[b].turn != es[b - 1].turn
  }

  /** The entries between the summary and the open turn. */
  predicate ClosedRegion(t: Thread, lo: nat, hi: nat) {
    && lo == (if StartsWithCompaction(t.entries) then 1 else 0) && lo <= hi <= |t.entries|
    && (forall i :: 0 <= i < hi ==> t.open != Some(t.entries[i].turn))
    && (forall i :: hi <= i < |t.entries| ==> t.open == Some(t.entries[i].turn))
  }

  predicate IsNewestTurn(es: seq<Entry>, lo: nat, hi: nat, s: nat) {
    && lo <= s < hi <= |es| && TurnStart(es, s) && TurnStart(es, hi)
    && forall i :: s <= i < hi ==> es[i].turn == es[s].turn
  }

  predicate AssistantFits(es: seq<Entry>, hi: nat, budget: nat, a: nat)
    requires hi <= |es|
  {
    a < hi && es[a].kind.AssistantKind? && es[a].message.ChatMessage? && es[a].message.role.Assistant? && Sum(es[a..hi]) <= budget
  }

  predicate TurnFits(es: seq<Entry>, hi: nat, budget: nat, b: nat)
    requires hi <= |es|
  {
    b <= hi && TurnStart(es, b) && Sum(es[b..hi]) <= budget
  }

  /** Where to cut: the longest suffix of whole closed turns that fits; when not even the newest one does,
      its longest suffix from an assistant entry that fits, and failing that the whole of it. */
  ghost predicate IsBestCut(es: seq<Entry>, lo: nat, hi: nat, s: nat, budget: nat, b: nat)
    requires lo <= s < hi <= |es|
  {
    if Sum(es[s..hi]) <= budget then
      lo <= b <= s && TurnFits(es, hi, budget, b) && forall c :: lo <= c < b ==> !TurnFits(es, hi, budget, c)
    else if exists a :: s < a < hi && AssistantFits(es, hi, budget, a) then
      s < b < hi && AssistantFits(es, hi, budget, b) && forall c :: s < c < b ==> !AssistantFits(es, hi, budget, c)
    else b == s
  }

  /** The best cut removes nothing of the open turn and separates no result from its call. */
  lemma {:induction false} BestCutIsSafe(t: Thread, lo: nat, hi: nat, s: nat, budget: nat, b: nat)
    requires Sound(t) && NothingPending(t) && ClosedRegion(t, lo, hi) && IsNewestTurn(t.entries, lo, hi, s)
    requires IsBestCut(t.entries, lo, hi, s, budget, b)
    ensures SafeCut(t, b)
  {
    if TurnStart(t.entries, b) && 0 < b < |t.entries| {
      TurnsStartWithText(t, b);
    }
    if b == 0 && |t.entries| > 0 {
      TurnsStartWithText(t, 0);
    }
  }

  lemma {:induction false} TurnsStartWithText(t: Thread, b: nat)
    requires Sound(t) && b < |t.entries| && TurnStart(t.entries, b)
    ensures t.entries[b].message.ChatMessage?
  {
    var xs := Shapes(t.entries);
    if xs[b].answers.Some? {
      var a := ResultsFollowTheirCall(xs, b);
      assert xs[b - 1].turn == xs[b].turn;
    }
  }

  // ---- What governance keeps ----

  /** `u` is `t` with the first `k` entries summarized, texts rewritten, and `m` notices added at the end. */
  ghost predicate Governed(t: Thread, u: Thread, k: nat, m: nat) {
    var head := if k > 0 then 1 else 0;
    && SafeCut(t, k) && u.open == t.open
    && |u.entries| == head + (|t.entries| - k) + m
    && (k > 0 ==> u.entries[0].kind.CompactionKind?)
    && (forall i :: k <= i < |t.entries| ==> SameOutlineEntry(t.entries[i], u.entries[i - k + head]))
    && (forall i :: |u.entries| - m <= i < |u.entries| ==> u.entries[i].kind.NoticeKind?)
  }

  lemma AppendingKeepsSummary(es: seq<Entry>, e: Entry)
    requires CompactionFirst(es) && TokensCount(es) && e.tokens > 0
    requires |es| > 0 ==> !e.kind.CompactionKind? && (StartsWithCompaction(es) ==> es[0].turn != e.turn)
    ensures CompactionFirst(es + [e]) && TokensCount(es + [e])
  {
  }

  lemma {:induction false} NoticeKeepsSettled(t: Thread, content: string, factor: real)
    requires Settled(t) && factor >= 0.5
    ensures Settled(AddNotice(t, content, factor))
  {
    NoticeKeepsSoundExactly(t, content, factor);
    var u := AddNotice(t, content, factor);
    var e := u.entries[|t.entries|];
    MessagesCost(e.message, factor);
    if StartsWithCompaction(t.entries) && t.open.None? {
      UsedTurnsAreOld(t, e.turn);
    }
    AppendingKeepsSummary(t.entries, e);
  }

  lemma {:induction false} OutlineKeepsSettled(t: Thread, u: Thread)
    requires Settled(t) && SameOutline(t, u) && TokensCount(u.entries)
    ensures Settled(u)
  {
    OutlineKeepsSound(t, u);
  }

  lemma {:induction false} CutSummary(es: seq<Entry>, k: nat, head: Entry)
    requires 0 < k <= |es| && CompactionFirst(es) && TokensCount(es) && head.tokens > 0 && !Uses(es, head.turn)
    ensures CompactionFirst([head] + es[k..]) && TokensCount([head] + es[k..])
  {
    var all := [head] + es[k..];
    forall i | 0 < i < |all| ensures !all[i].kind.CompactionKind? && all[i].turn != head.turn && all[i].tokens > 0 {
      assert all[i] == es[i + k - 1];
    }
  }

  lemma {:induction false} CutKeepsSettled(t: Thread, k: nat, summary: string, factor: real)
    requires Settled(t) && SafeCut(t, k) && factor >= 0.5
    ensures Settled(ReplacePrefix(t, k, summary, factor))
  {
    CutKeepsSound(t, k, summary, factor);
    if k > 0 {
      var head := ReplacePrefix(t, k, summary, factor).entries[0];
      UsedTurnsAreOld(t, head.turn);
      MessagesCost(head.message, factor);
      CutSummary(t.entries, k, head);
    }
  }

  lemma {:induction false} OutlineIsGoverned(t: Thread, u: Thread)
    requires Settled(t) && SameOutline(t, u)
    ensures Governed(t, u, 0, 0)
  {
    if |t.entries| > 0 {
      TurnsStartWithText(t, 0);
    }
  }

  lemma {:induction false} GovernedThroughOutline(t: Thread, u: Thread, v: Thread, k: nat, m: nat)
    requires SameOutline(t, u) && Governed(u, v, k, m)
    ensures Governed(t, v, k, m)
  {
    forall i | k <= i < |t.entries| ensures SameOutlineEntry(t.entries[i], v.entries[i - k + if k > 0 then 1 else 0]) {
      assert SameOutlineEntry(t.entries[i], u.entries[i]);
    }
    forall i | 0 <= i < k ensures t.open != Some(t.entries[i].turn) {
      assert SameOutlineEntry(t.entries[i], u.entries[i]);
    }
    if k < |t.entries| {
      assert SameOutlineEntry(t.entries[k], u.entries[k]);
    }
  }

  lemma {:induction false} CutIsGoverned(t: Thread, u: Thread, k: nat, summary: string, factor: real)
    requires SafeCut(t, k) && k > 0 && u == ReplacePrefix(t, k, summary, factor)
    ensures Governed(t, u, k, 0)
  {
    assert u.entries == [u.entries[0]] + t.entries[k..];
  }
}
