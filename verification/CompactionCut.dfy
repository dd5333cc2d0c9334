/** Choosing where the closed turns are cut. */
module CompactionCut {
  import opened Governance
  import opened ThreadModel
  import opened ThreadProtocol
  import opened ThreadRuns
  import opened Wrappers

  datatype EntryRange = EntryRange(start: nat, end: nat, tokens: nat)

  /** A run of entries of one turn, as long as it can be. */
  predicate RangeOk(es: seq<Entry>, r: EntryRange) {
    && r.start < r.end <= |es| && TurnStart(es, r.start) && TurnStart(es, r.end) && r.tokens == Sum(es[r.start..r.end])
    && forall i :: r.start <= i < r.end ==> es[i].turn == es[r.start].turn
  }

  predicate AllCompaction(es: seq<Entry>, r: EntryRange) {
    forall i :: r.start <= i < r.end && i < |es| ==> es[i].kind.CompactionKind?
  }

  /** The ranges follow each other from `lo` to `hi`. */
  predicate Tiles(es: seq<Entry>, ranges: seq<EntryRange>, lo: nat, hi: nat) {
    && (|ranges| == 0 ==> lo == hi)
    && (|ranges| > 0 ==> ranges[0].start == lo && ranges[|ranges| - 1].end == hi)
    && (forall i :: 0 <= i < |ranges| ==> RangeOk(es, ranges[i]))
    && (forall i :: 0 < i < |ranges| ==> ranges[i - 1].end == ranges[i].start)
  }

  /** The ranges are all the turns between the summary and the open turn, in order. */
  ghost predicate AreClosedTurns(t: Thread, ranges: seq<EntryRange>) {
    exists lo, hi :: ClosedRegion(t, lo, hi) && Tiles(t.entries, ranges, lo, hi)
  }

  /** `hi` ends the closed turns among the first `index` entries. */
  predicate ClosedUpTo(t: Thread, lo: nat, hi: nat, index: nat) {
    && lo == (if StartsWithCompaction(t.entries) then 1 else 0) && lo <= hi <= index <= |t.entries|
    && (forall i :: 0 <= i < hi ==> t.open != Some(t.entries[i].turn))
    && (forall i :: hi <= i < index ==> t.open == Some(t.entries[i].turn))
  }

  lemma {:induction false} KnownStatus(turns: seq<Turn>, id: TurnId)
    requires HasTurn(turns, id)
    ensures StatusOf(turns, id).Some? && Turn(id, StatusOf(turns, id).value) in turns
    decreases |turns|
  {
    if turns[0].id != id {
      var i :| 0 <= i < |turns| && turns[i].id == id;
      assert turns[1..][i - 1] == turns[i];
      KnownStatus(turns[1..], id);
    }
  }

  /** A run of one turn is closed unless it is the open turn's, which nothing follows. */
  lemma {:induction false} RunIsTurn(t: Thread, start: nat, end: nat)
    requires Settled(t) && start < end <= |t.entries| && TurnStart(t.entries, start) && TurnStart(t.entries, end)
    requires forall i :: start <= i < end ==> t.entries[i].turn == t.entries[start].turn
    ensures StatusOf(t.turns, t.entries[start].turn) in {Some(Committed), Some(Aborted)} <==> t.open != Some(t.entries[start].turn)
    ensures t.open == Some(t.entries[start].turn) ==> end == |t.entries|
    ensures AllCompaction(t.entries, EntryRange(start, end, 0)) <==> start == 0 && StartsWithCompaction(t.entries)
    ensures start == 0 && StartsWithCompaction(t.entries) ==> end == 1
  {
    assert EntryOk(t, t.entries[start]);
    KnownStatus(t.turns, t.entries[start].turn);
    var status := StatusOf(t.turns, t.entries[start].turn).value;
    var j :| 0 <= j < |t.turns| && t.turns[j] == Turn(t.entries[start].turn, status);
    if t.open == Some(t.entries[start].turn) && end < |t.entries| {
      NothingAfterOpen(t, start, end);
    }
  }

  predicate IsCompactable(t: Thread, r: EntryRange, compactionOnly: bool) {
    && r.start < |t.entries| && t.open != Some(t.entries[r.start].turn) && !compactionOnly
    && StatusOf(t.turns, t.entries[r.start].turn) in {Some(Committed), Some(Aborted)}
  }

  /** Every run but the summary's and the open turn's is compactable. */
  lemma {:induction false} NextRun(t: Thread, lo: nat, hi: nat, r: EntryRange, compactionOnly: bool)
    requires Settled(t) && RangeOk(t.entries, r) && lo == if StartsWithCompaction(t.entries) then 1 else 0
    requires if r.start == 0 then hi == lo else ClosedUpTo(t, lo, hi, r.start)
    requires compactionOnly <==> AllCompaction(t.entries, r)
    ensures var next := IsCompactable(t, r, compactionOnly);
            (next ==> r.start == hi) && ClosedUpTo(t, lo, if next then r.end else hi, r.end)
  {
    RunIsTurn(t, r.start, r.end);
    if 0 < r.start && hi < r.start {
      NothingAfterOpen(t, r.start - 1, r.start);
    }
  }

  lemma {:induction false} NothingAfterOpen(t: Thread, i: nat, k: nat)
    requires Sound(t) && i <= k < |t.entries| && t.open == Some(t.entries[i].turn)
    ensures t.open == Some(t.entries[k].turn)
  {
    StandTogether(t.entries, i, k, |t.entries| - 1);
  }

  lemma OneMoreTile(es: seq<Entry>, ranges: seq<EntryRange>, lo: nat, hi: nat, r: EntryRange)
    requires Tiles(es, ranges, lo, hi) && RangeOk(es, r) && r.start == hi
    ensures Tiles(es, ranges + [r], lo, r.end)
  {
  }

  lemma {:induction false} SumStep(es: seq<Entry>, i: nat, k: nat)
    requires i <= k < |es|
    ensures Sum(es[i..k + 1]) == Sum(es[i..k]) + es[k].tokens
  {
    assert es[i..k + 1][..k - i] == es[i..k];
  }

  /** The entries of one turn from the given position on. */
  method ReadRun(es: seq<Entry>, start: nat) returns (end: nat, tokens: nat, compactionOnly: bool)
    requires start < |es| && TurnStart(es, start)
    ensures RangeOk(es, EntryRange(start, end, tokens))
    ensures compactionOnly <==> AllCompaction(es, EntryRange(start, end, tokens))
  {
    end, tokens, compactionOnly := start, 0, true;
    while end < |es| && es[end].turn == es[start].turn
      invariant start <= end <= |es| && tokens == Sum(es[start..end])
      invariant forall i :: start <= i < end ==> es[i].turn == es[start].turn
      invariant compactionOnly <==> forall i :: start <= i < end ==> es[i].kind.CompactionKind?
      decreases |es| - end
    {
      SumStep(es, start, end);
      tokens := tokens + es[end].tokens;
      compactionOnly := compactionOnly && es[end].kind.CompactionKind?;
      end := end + 1;
    }
  }

  // ---- The boundary ----

  lemma {:induction false} TilesAscend(es: seq<Entry>, ranges: seq<EntryRange>, lo: nat, hi: nat, i: nat)
    requires Tiles(es, ranges, lo, hi) && i < |ranges|
    ensures lo <= ranges[i].start
    decreases i
  {
    if i > 0 {
      TilesAscend(es, ranges, lo, hi, i - 1);
      assert RangeOk(es, ranges[i - 1]);
    }
  }

  /** The first assistant entry of a turn, but its first entry, from which the rest of the turn fits. */
  method FindSafeSuffixStart(es: seq<Entry>, range: EntryRange, budget: nat) returns (r: Option<nat>)
    requires RangeOk(es, range)
    ensures r.Some? ==> range.start < r.value && AssistantFits(es, range.end, budget, r.value)
                        && forall c: nat :: range.start < c < r.value ==> !AssistantFits(es, range.end, budget, c)
    ensures r.None? ==> forall c: nat :: range.start < c ==> !AssistantFits(es, range.end, budget, c)
  {
    for index := range.start + 1 to range.end
      invariant forall c: nat :: range.start < c < index ==> !AssistantFits(es, range.end, budget, c)
    {
      if AssistantFits(es, range.end, budget, index) {
        return Some(index);
      }
    }
    return None;
  }

  /** No whole turns from before a turn that does not fit. */
  lemma {:induction false} NoEarlierTurnFits(es: seq<Entry>, r: EntryRange, hi: nat, budget: nat, c: nat)
    requires RangeOk(es, r) && r.end <= hi <= |es| && Sum(es[r.start..hi]) > budget && c < r.end
    ensures !TurnFits(es, hi, budget, c)
  {
    if c <= r.start {
      SumSplit(es, c, r.start, hi);
    } else {
      assert es[c].turn == es[r.start].turn && es[c - 1].turn == es[r.start].turn;
    }
  }

  lemma SplitIsBest(es: seq<Entry>, lo: nat, hi: nat, s: nat, budget: nat, split: Option<nat>)
    requires lo <= s < hi <= |es| && Sum(es[s..hi]) > budget
    requires split.Some? ==> s < split.value && AssistantFits(es, hi, budget, split.value)
                             && forall c: nat :: s < c < split.value ==> !AssistantFits(es, hi, budget, c)
    requires split.None? ==> forall c: nat :: s < c ==> !AssistantFits(es, hi, budget, c)
    ensures IsBestCut(es, lo, hi, s, budget, if split.Some? then split.value else s)
  {
  }

  /** Which ranges lie before and after position `index`. */
  lemma {:induction false} TilesBounded(es: seq<Entry>, ranges: seq<EntryRange>, lo: nat, hi: nat, i: nat)
    requires Tiles(es, ranges, lo, hi) && i < |ranges|
    ensures lo <= ranges[i].start < ranges[i].end <= hi <= |es| && ranges[i].start <= ranges[|ranges| - 1].start
    decreases |ranges| - i
  {
    assert RangeOk(es, ranges[i]) && RangeOk(es, ranges[|ranges| - 1]);
    TilesAscend(es, ranges, lo, hi, i);
    if i < |ranges| - 1 {
      TilesBounded(es, ranges, lo, hi, i + 1);
    }
  }

  method ChooseBoundary(es: seq<Entry>, ranges: seq<EntryRange>, budget: nat, ghost lo: nat, ghost hi: nat) returns (boundary: nat)
    requires |ranges| > 0 && Tiles(es, ranges, lo, hi) && TokensCount(es)
    ensures lo <= ranges[|ranges| - 1].start < hi <= |es|
    ensures IsBestCut(es, lo, hi, ranges[|ranges| - 1].start, budget, boundary)
  {
    var last := |ranges| - 1;
    var retained, index := 0, last;
    boundary := ranges[last].end;
    TilesBounded(es, ranges, lo, hi, last);
    assert es[hi..hi] == [];
    while index >= 0
      invariant -1 <= index <= last && boundary <= hi
      invariant boundary == if index == last then hi else ranges[index + 1].start
      invariant retained == Sum(es[boundary..hi])
      invariant index == last ==> retained == 0
      invariant index < last ==> retained > 0 && lo <= boundary <= ranges[last].start && TurnFits(es, hi, budget, boundary)
      invariant index < last ==> Sum(es[ranges[last].start..hi]) <= budget
      decreases index
    {
      var range := ranges[index];
      TilesBounded(es, ranges, lo, hi, index);
      assert RangeOk(es, range) && range.end == boundary;
      SumSplit(es, range.start, range.end, hi);
      SumOfTokens(es, range.start, range.end);
      if retained + range.tokens <= budget {
        retained := retained + range.tokens;
        boundary := range.start;
        index := index - 1;
      } else {
        if retained == 0 {
          var split := FindSafeSuffixStart(es, range, budget);
          SplitIsBest(es, lo, hi, range.start, budget, split);
          boundary := if split.Some? then split.value else range.start;
        } else {
          boundary := range.end;
          forall c: nat | lo <= c < boundary ensures !TurnFits(es, hi, budget, c) {
            NoEarlierTurnFits(es, range, hi, budget, c);
          }
        }
        return;
      }
    }
  }

  /** `k` is the best cut of the closed turns of `t`, which end at `hi` and whose newest starts at `newest`. */
  ghost predicate IsCompactionCut(t: Thread, lo: nat, hi: nat, newest: nat, budget: nat, k: nat) {
    && ClosedRegion(t, lo, hi) && lo < hi && IsNewestTurn(t.entries, lo, hi, newest)
    && IsBestCut(t.entries, lo, hi, newest, budget, k)
  }

  lemma {:induction false} CompactingKeepsSettled(t: Thread, lo: nat, hi: nat, newest: nat, budget: nat, k: nat, summary: string, factor: real)
    requires Settled(t) && IsCompactionCut(t, lo, hi, newest, budget, k) && factor >= 0.5
    ensures SafeCut(t, k) && Settled(ReplacePrefix(t, k, summary, factor))
  {
    BestCutIsSafe(t, lo, hi, newest, budget, k);
    CutKeepsSettled(t, k, summary, factor);
  }

  ghost predicate IsBestCutOf(t: Thread, budget: nat, k: nat) {
    exists lo, hi, newest :: IsCompactionCut(t, lo, hi, newest, budget, k)
  }

  function Preserved(policy: Policy, budget: int): int {
    var available := if budget < 0 then 0 else budget;
    if policy.preserveRecentTokens < available then policy.preserveRecentTokens else available
  }

  function AtLeastOne(n: int): nat {
    if n < 1 then 1 else n
  }

  /** A prefix is worth summarizing unless it is an empty summary. */
  predicate HasContent(prefix: seq<Entry>, texts: Texts) {
    exists i :: 0 <= i < |prefix| && (prefix[i].kind.CompactionKind? ==> texts.summaryBody(prefix[i].message.content) != "")
  }

  /** The last range is the newest closed turn. */
  lemma {:induction false} NewestTile(t: Thread, ranges: seq<EntryRange>, lo: nat, hi: nat)
    requires ClosedRegion(t, lo, hi) && Tiles(t.entries, ranges, lo, hi)
    ensures lo < hi <==> |ranges| > 0
    ensures |ranges| > 0 ==> IsNewestTurn(t.entries, lo, hi, ranges[|ranges| - 1].start)
  {
    if |ranges| > 0 {
      TilesBounded(t.entries, ranges, lo, hi, |ranges| - 1);
      assert RangeOk(t.entries, ranges[|ranges| - 1]);
    }
  }

  lemma {:induction false} CutIsWithin(t: Thread, lo: nat, hi: nat, newest: nat, budget: nat, k: nat)
    requires IsCompactionCut(t, lo, hi, newest, budget, k)
    ensures k <= |t.entries|
  {
  }
}
