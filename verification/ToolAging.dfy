/** Ageing of tool results: long ones are shortened, old ones elided until they fit their quota. */
module ToolAging {
  import opened Governance
  import opened Messages
  import opened ThreadModel
  import opened ThreadProtocol
  import opened ThreadRuns
  import opened TokenEstimator
  import opened Wrappers

  function CapEntry(e: Entry, cap: int, texts: Texts, factor: real): Entry {
    if e.kind.ToolResultKind? && e.tokens > cap then TruncateEntry(e, texts.shortened(e.message.content, cap), factor) else e
  }

  function CapAll(es: seq<Entry>, cap: int, texts: Texts, factor: real): (r: seq<Entry>)
    ensures |r| == |es| && forall i :: 0 <= i < |r| ==> r[i] == CapEntry(es[i], cap, texts, factor)
  {
    seq(|es|, i requires 0 <= i < |es| => CapEntry(es[i], cap, texts, factor))
  }

  function IterationOf(e: Entry): int {
    if e.iteration.Some? then e.iteration.value else 0
  }

  function Elide(e: Entry, texts: Texts, factor: real): Entry {
    ElideEntry(e, texts.elided(e), factor)
  }

  predicate ShouldAge(e: Entry, tokens: nat, keepFrom: int, quota: int) {
    e.kind.ToolResultKind? && !e.elided && (IterationOf(e) < keepFrom || tokens > quota)
  }

  /** The entries after the pass has gone on from position `i`. */
  function AgeFrom(es: seq<Entry>, i: nat, keepFrom: int, quota: int, texts: Texts, factor: real): (r: seq<Entry>)
    requires i <= |es|
    ensures |r| == |es|
    decreases |es| - i
  {
    if i == |es| then es
    else if !ShouldAge(es[i], ToolTokens(es), keepFrom, quota) then AgeFrom(es, i + 1, keepFrom, quota, texts, factor)
    else
      var next := es[i := Elide(es[i], texts, factor)];
      if ToolTokens(next) <= quota then next else AgeFrom(next, i + 1, keepFrom, quota, texts, factor)
  }

  /** Position `k` is as it was or freshly elided. */
  predicate AgedOrSame(es: seq<Entry>, r: seq<Entry>, k: nat, texts: Texts, factor: real) {
    && k < |es| && k < |r|
    && (r[k] == es[k] || (es[k].kind.ToolResultKind? && !es[k].elided && r[k] == Elide(es[k], texts, factor)))
  }

  /** Ageing changes tool results only, from the given position on, and each at most once. */
  lemma {:induction false} AgeingElides(es: seq<Entry>, i: nat, keepFrom: int, quota: int, texts: Texts, factor: real, r: seq<Entry>)
    requires i <= |es| && r == AgeFrom(es, i, keepFrom, quota, texts, factor)
    ensures (forall k :: 0 <= k < i ==> r[k] == es[k]) && forall k: nat :: k < |es| ==> AgedOrSame(es, r, k, texts, factor)
    decreases |es| - i
  {
    if i < |es| {
      if !ShouldAge(es[i], ToolTokens(es), keepFrom, quota) {
        AgeingElides(es, i + 1, keepFrom, quota, texts, factor, r);
      } else {
        var next := es[i := Elide(es[i], texts, factor)];
        if ToolTokens(next) > quota {
          AgeingElides(next, i + 1, keepFrom, quota, texts, factor, r);
          forall k: nat | k < |es| ensures AgedOrSame(es, r, k, texts, factor) {
            assert AgedOrSame(next, r, k, texts, factor);
          }
        }
      }
    }
  }

  /** Position `k` is no result that is still in full although it should be elided. */
  predicate Settles(r: seq<Entry>, k: nat, keepFrom: int, before: nat, quota: int) {
    k < |r| && (r[k].kind.ToolResultKind? && (IterationOf(r[k]) < keepFrom || before > quota) ==> r[k].elided)
  }

  /** Either the results fit their quota in the end, or every old one is elided, and every one when they did not fit before. */
  lemma {:induction false} AgeingMeetsItsQuota(es: seq<Entry>, i: nat, keepFrom: int, quota: int, texts: Texts, factor: real,
                                               before: nat, r: seq<Entry>)
    requires i <= |es| && r == AgeFrom(es, i, keepFrom, quota, texts, factor) && (before > quota ==> ToolTokens(es) > quota)
    requires forall k :: 0 <= k < |es| && es[k].kind.ToolResultKind? ==> es[k].message.ToolMessage?
    requires forall k: nat :: k < i ==> Settles(es, k, keepFrom, before, quota)
    ensures ToolTokens(r) <= quota || forall k: nat :: k < |r| ==> Settles(r, k, keepFrom, before, quota)
    decreases |es| - i
  {
    if i < |es| {
      if !ShouldAge(es[i], ToolTokens(es), keepFrom, quota) {
        assert Settles(es, i, keepFrom, before, quota);
        AgeingMeetsItsQuota(es, i + 1, keepFrom, quota, texts, factor, before, r);
      } else {
        var next := es[i := Elide(es[i], texts, factor)];
        if ToolTokens(next) > quota {
          forall k: nat | k < i + 1 ensures Settles(next, k, keepFrom, before, quota) {
            if k < i { assert Settles(es, k, keepFrom, before, quota); }
          }
          AgeingMeetsItsQuota(next, i + 1, keepFrom, quota, texts, factor, before, r);
        }
      }
    }
  }

  // ---- A whole stage ----

  /** Capping and ageing keep every entry where it is. */
  lemma {:induction false} CappingKeepsSettled(t: Thread, cap: int, texts: Texts, factor: real)
    requires Settled(t) && factor >= 0.5
    ensures var u := t.(entries := CapAll(t.entries, cap, texts, factor)); SameOutline(t, u) && Settled(u)
  {
    var u := t.(entries := CapAll(t.entries, cap, texts, factor));
    forall i | 0 <= i < |t.entries| ensures SameOutlineEntry(t.entries[i], u.entries[i]) && u.entries[i].tokens > 0 {
      assert EntryOk(t, t.entries[i]);
      MessagesCost(u.entries[i].message, factor);
    }
    OutlineKeepsSettled(t, u);
  }

  lemma {:induction false} AgeingKeepsSettled(t: Thread, keepFrom: int, quota: int, texts: Texts, factor: real, r: seq<Entry>)
    requires Settled(t) && factor >= 0.5 && r == AgeFrom(t.entries, 0, keepFrom, quota, texts, factor)
    ensures SameOutline(t, t.(entries := r)) && Settled(t.(entries := r))
  {
    AgeingElides(t.entries, 0, keepFrom, quota, texts, factor, r);
    forall i: nat | i < |t.entries| ensures SameOutlineEntry(t.entries[i], r[i]) && r[i].tokens > 0 {
      assert AgedOrSame(t.entries, r, i, texts, factor);
      AgedKeepsOutline(t, r, i, texts, factor);
    }
    OutlineKeepsSettled(t, t.(entries := r));
  }

  lemma {:induction false} AgedKeepsOutline(t: Thread, r: seq<Entry>, i: nat, texts: Texts, factor: real)
    requires Settled(t) && factor >= 0.5 && AgedOrSame(t.entries, r, i, texts, factor)
    ensures SameOutlineEntry(t.entries[i], r[i]) && r[i].tokens > 0
  {
    assert EntryOk(t, t.entries[i]);
    MessagesCost(r[i].message, factor);
  }

  /** The largest iteration among the tool results. */
  function MaxIteration(es: seq<Entry>): Option<int> {
    if |es| == 0 then None
    else
      var rest, e := MaxIteration(es[..|es| - 1]), es[|es| - 1];
      if !e.kind.ToolResultKind? then rest
      else if rest.Some? && rest.value >= IterationOf(e) then rest
      else Some(IterationOf(e))
  }

  lemma {:induction false} MaxIterationIsMax(es: seq<Entry>)
    ensures MaxIteration(es).None? ==> forall i :: 0 <= i < |es| ==> !es[i].kind.ToolResultKind?
    ensures MaxIteration(es).Some? ==>
              && (forall i :: 0 <= i < |es| && es[i].kind.ToolResultKind? ==> IterationOf(es[i]) <= MaxIteration(es).value)
              && exists i :: 0 <= i < |es| && es[i].kind.ToolResultKind? && IterationOf(es[i]) == MaxIteration(es).value
    decreases |es|
  {
    if |es| > 0 {
      MaxIterationIsMax(es[..|es| - 1]);
      assert forall i :: 0 <= i < |es| - 1 ==> es[..|es| - 1][i] == es[i];
    }
  }

  /** The first stage as a whole. */
  function AgedEntries(es: seq<Entry>, policy: Policy, texts: Texts, factor: real): seq<Entry> {
    match MaxIteration(es)
    case None => es
    case Some(max) =>
      AgeFrom(CapAll(es, policy.maxToolResultTokens, texts, factor), 0, max - policy.preserveToolIterations + 1,
              policy.toolResultQuota, texts, factor)
  }

  lemma {:induction false} StageIs(es: seq<Entry>, policy: Policy, texts: Texts, factor: real) returns (capped: seq<Entry>, keepFrom: int)
    requires MaxIteration(es).Some?
    ensures capped == CapAll(es, policy.maxToolResultTokens, texts, factor)
    ensures keepFrom == MaxIteration(es).value - policy.preserveToolIterations + 1
    ensures AgedEntries(es, policy, texts, factor) == AgeFrom(capped, 0, keepFrom, policy.toolResultQuota, texts, factor)
  {
    capped := CapAll(es, policy.maxToolResultTokens, texts, factor);
    keepFrom := MaxIteration(es).value - policy.preserveToolIterations + 1;
  }

  lemma {:induction false} StageKeepsSettled(t: Thread, policy: Policy, texts: Texts, factor: real, r: seq<Entry>)
    requires Settled(t) && factor >= 0.5 && r == AgedEntries(t.entries, policy, texts, factor)
    ensures SameOutline(t, t.(entries := r)) && Settled(t.(entries := r))
  {
    if MaxIteration(t.entries).Some? {
      var capped, keepFrom := StageIs(t.entries, policy, texts, factor);
      CappingKeepsSettled(t, policy.maxToolResultTokens, texts, factor);
      AgeingKeepsSettled(t.(entries := capped), keepFrom, policy.toolResultQuota, texts, factor, r);
      OutlineIsTransitive(t, t.(entries := capped), t.(entries := r));
    }
  }

  /** The results of `r` fit the quota, or the old ones are all elided, and all of them when they were over it once capped. */
  ghost predicate FitOrElided(es: seq<Entry>, policy: Policy, texts: Texts, factor: real, r: seq<Entry>)
    requires MaxIteration(es).Some?
  {
    var keepFrom := MaxIteration(es).value - policy.preserveToolIterations + 1;
    var before, quota := ToolTokens(CapAll(es, policy.maxToolResultTokens, texts, factor)), policy.toolResultQuota;
    ToolTokens(r) <= quota || forall k: nat :: k < |r| ==> Settles(r, k, keepFrom, before, quota)
  }

  lemma {:induction false} AgedResultsFitOrAreElided(t: Thread, policy: Policy, texts: Texts, factor: real)
    requires Sound(t) && MaxIteration(t.entries).Some?
    ensures FitOrElided(t.entries, policy, texts, factor, AgedEntries(t.entries, policy, texts, factor))
  {
    CappedAreResults(t, policy.maxToolResultTokens, texts, factor);
    FitOrElidedOf(t.entries, policy, texts, factor, AgedEntries(t.entries, policy, texts, factor));
  }

  lemma {:induction false} FitOrElidedOf(es: seq<Entry>, policy: Policy, texts: Texts, factor: real, r: seq<Entry>)
    requires MaxIteration(es).Some? && r == AgedEntries(es, policy, texts, factor)
    requires var capped := CapAll(es, policy.maxToolResultTokens, texts, factor);
             forall k :: 0 <= k < |capped| && capped[k].kind.ToolResultKind? ==> capped[k].message.ToolMessage?
    ensures FitOrElided(es, policy, texts, factor, r)
  {
    var capped, keepFrom := StageIs(es, policy, texts, factor);
    QuotaOf(capped, keepFrom, policy.toolResultQuota, texts, factor, r);
  }

  lemma {:induction false} QuotaOf(es: seq<Entry>, keepFrom: int, quota: int, texts: Texts, factor: real, r: seq<Entry>)
    requires r == AgeFrom(es, 0, keepFrom, quota, texts, factor)
    requires forall k :: 0 <= k < |es| && es[k].kind.ToolResultKind? ==> es[k].message.ToolMessage?
    ensures var before := ToolTokens(es);
            ToolTokens(r) <= quota || forall k: nat :: k < |r| ==> Settles(r, k, keepFrom, before, quota)
  {
    AgeingMeetsItsQuota(es, 0, keepFrom, quota, texts, factor, ToolTokens(es), r);
  }

  lemma {:induction false} CappedAreResults(t: Thread, cap: int, texts: Texts, factor: real)
    requires Sound(t)
    ensures var capped := CapAll(t.entries, cap, texts, factor);
            forall k :: 0 <= k < |capped| && capped[k].kind.ToolResultKind? ==> capped[k].message.ToolMessage?
  {
    forall k | 0 <= k < |t.entries| && t.entries[k].kind.ToolResultKind? ensures t.entries[k].message.ToolMessage? {
      assert EntryOk(t, t.entries[k]);
    }
  }

  lemma CappingKeepsIds(es: seq<Entry>, cap: int, texts: Texts, factor: real)
    requires DistinctEntries(es)
    ensures DistinctEntries(CapAll(es, cap, texts, factor))
  {
  }
}
