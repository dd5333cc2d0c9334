/** The governor: ages tool results, compacts old turns, truncates what is still too long. */
module ContextGovernor {
  import opened ConversationThread
  import opened CompactionCut
  import opened Governance
  import opened HardTruncation
  import opened Messages
  import opened ThreadModel
  import opened ThreadProtocol
  import opened ThreadRuns
  import opened TokenEstimator
  import opened ToolAging
  import opened Wrappers

  lemma {:induction false} IndexOfDistinct(es: seq<Entry>, i: nat)
    requires DistinctEntries(es) && i < |es|
    ensures IndexOf(es, es[i].id) == Some(i)
  {
    var r := IndexOf(es, es[i].id);
  }

  lemma {:induction false} SumSnoc(es: seq<Entry>, i: nat)
    requires i < |es|
    ensures Sum(es[..i + 1]) == Sum(es[..i]) + es[i].tokens
    ensures ToolTokens(es[..i + 1]) == ToolTokens(es[..i]) + if es[i].kind.ToolResultKind? then es[i].tokens else 0
  {
    assert es[..i + 1][..i] == es[..i];
  }

  /** `k` is the best cut of the thread once its tool results are aged. */
  ghost predicate CutOfAged(t: Thread, policy: Policy, texts: Texts, factor: real, budget: int, k: nat) {
    IsBestCutOf(t.(entries := AgedEntries(t.entries, policy, texts, factor)), AtLeastOne(Preserved(policy, budget)), k)
  }

  class ContextGovernor {
    const policy: Policy
    const texts: Texts

    constructor (p: Policy, x: Texts)
      ensures policy == p && texts == x
    {
      policy, texts := p, x;
    }

    method EstimateThreadTokens(thread: ConversationThread) returns (n: nat)
      ensures n == Sum(thread.entries)
    {
      n := 0;
      for i := 0 to |thread.entries|
        invariant n == Sum(thread.entries[..i])
      {
        SumSnoc(thread.entries, i);
        n := n + thread.entries[i].tokens;
      }
      assert thread.entries[..|thread.entries|] == thread.entries;
    }

    method RecalcToolTokens(thread: ConversationThread) returns (n: nat)
      ensures n == ToolTokens(thread.entries)
    {
      n := 0;
      for i := 0 to |thread.entries|
        invariant n == ToolTokens(thread.entries[..i])
      {
        SumSnoc(thread.entries, i);
        if thread.entries[i].kind.ToolResultKind? {
          n := n + thread.entries[i].tokens;
        }
      }
      assert thread.entries[..|thread.entries|] == thread.entries;
    }

    /** The text of the entry at a position, found again by its id. */
    method Shorten(thread: ConversationThread, at: nat, text: string)
      requires DistinctEntries(thread.entries) && at < |thread.entries|
      modifies thread
      ensures thread.View() == old(thread.View()).(entries := thread.entries)
      ensures thread.entries == old(thread.entries)[at := TruncateEntry(old(thread.entries)[at], text, thread.estimator.factor)]
      ensures DistinctEntries(thread.entries)
    {
      IndexOfDistinct(thread.entries, at);
      thread.TruncateEntryText(thread.entries[at].id, text);
    }

    method ElideAt(thread: ConversationThread, at: nat)
      requires DistinctEntries(thread.entries) && at < |thread.entries|
      modifies thread
      ensures thread.View() == old(thread.View()).(entries := thread.entries)
      ensures thread.entries == old(thread.entries)[at := Elide(old(thread.entries)[at], texts, thread.estimator.factor)]
      ensures DistinctEntries(thread.entries)
    {
      IndexOfDistinct(thread.entries, at);
      thread.ElideToolResult(thread.entries[at].id, texts.elided(thread.entries[at]));
    }

    method CapToolResults(thread: ConversationThread) returns (changed: bool)
      requires DistinctEntries(thread.entries)
      modifies thread
      ensures thread.View() == old(thread.View()).(entries := CapAll(old(thread.entries), policy.maxToolResultTokens, texts, thread.estimator.factor))
      ensures !changed ==> thread.View() == old(thread.View())
    {
      changed := false;
      ghost var es := thread.entries;
      for i := 0 to |thread.entries|
        invariant |thread.entries| == |es| && DistinctEntries(thread.entries)
        invariant thread.View() == old(thread.View()).(entries := thread.entries)
        invariant forall k :: 0 <= k < i ==>
                    thread.entries[k] == CapEntry(es[k], policy.maxToolResultTokens, texts, thread.estimator.factor)
        invariant forall k :: i <= k < |es| ==> thread.entries[k] == es[k]
        invariant !changed ==> thread.entries == es
      {
        var e := thread.entries[i];
        if e.kind.ToolResultKind? && e.tokens > policy.maxToolResultTokens {
          Shorten(thread, i, texts.shortened(e.message.content, policy.maxToolResultTokens));
          changed := true;
        }
      }
    }

    /** Elides old results first to last and stops once they fit the quota. */
    method AgeToolResults(thread: ConversationThread, keepFrom: int) returns (changed: bool)
      requires DistinctEntries(thread.entries)
      modifies thread
      ensures thread.View() == old(thread.View()).(entries :=
                AgeFrom(old(thread.entries), 0, keepFrom, policy.toolResultQuota, texts, thread.estimator.factor))
      ensures !changed ==> thread.View() == old(thread.View())
    {
      changed := false;
      ghost var es := thread.entries;
      var toolTokens := RecalcToolTokens(thread);
      var i := 0;
      while i < |thread.entries|
        invariant 0 <= i <= |thread.entries| == |es| && DistinctEntries(thread.entries)
        invariant thread.View() == old(thread.View()).(entries := thread.entries)
        invariant toolTokens == ToolTokens(thread.entries)
        invariant AgeFrom(es, 0, keepFrom, policy.toolResultQuota, texts, thread.estimator.factor)
               == AgeFrom(thread.entries, i, keepFrom, policy.toolResultQuota, texts, thread.estimator.factor)
        invariant !changed ==> thread.entries == es
        decreases |es| - i
      {
        var e := thread.entries[i];
        var shouldAge := IterationOf(e) < keepFrom || toolTokens > policy.toolResultQuota;
        if e.kind.ToolResultKind? && shouldAge && !e.elided {
          ElideAt(thread, i);
          changed := true;
          toolTokens := RecalcToolTokens(thread);
          if toolTokens <= policy.toolResultQuota {
            return;
          }
        }
        i := i + 1;
      }
    }
  
    method NewestIteration(thread: ConversationThread) returns (r: Option<int>)
      ensures r == MaxIteration(thread.entries)
    {
      r := None;
      for i := 0 to |thread.entries|
        invariant r == MaxIteration(thread.entries[..i])
      {
        var e := thread.entries[i];
        assert thread.entries[..i + 1][..i] == thread.entries[..i];
        if e.kind.ToolResultKind? && (r.None? || r.value < IterationOf(e)) {
          r := Some(IterationOf(e));
        }
      }
      assert thread.entries[..|thread.entries|] == thread.entries;
    }

    method ApplyToolAging(thread: ConversationThread) returns (changed: bool)
      requires DistinctEntries(thread.entries)
      modifies thread
      ensures thread.View() == old(thread.View()).(entries := AgedEntries(old(thread.entries), policy, texts, thread.estimator.factor))
      ensures !changed ==> thread.View() == old(thread.View())
    {
      var max := NewestIteration(thread);
      if max.None? {
        return false;
      }
      ghost var es := thread.entries;
      var capped := CapToolResults(thread);
      CappingKeepsIds(es, policy.maxToolResultTokens, texts, thread.estimator.factor);
      var aged := AgeToolResults(thread, max.value - policy.preserveToolIterations + 1);
      return capped || aged;
    }

    // ---- Compaction ----

    /** The turns between the summary and the open turn, in order. */
    method GetCompactableRanges(thread: ConversationThread) returns (ranges: seq<EntryRange>, ghost lo: nat, ghost hi: nat)
      requires Settled(thread.View())
      ensures AreClosedTurns(thread.View(), ranges)
      ensures ClosedRegion(thread.View(), lo, hi) && Tiles(thread.entries, ranges, lo, hi)
    {
      var es := thread.entries;
      ranges := [];
      lo := if StartsWithCompaction(es) then 1 else 0;
      hi := lo;
      var index := 0;
      while index < |es|
        invariant 0 <= index <= |es| && TurnStart(es, index)
        invariant index == 0 ==> ranges == [] && hi == lo
        invariant index > 0 ==> ClosedUpTo(thread.View(), lo, hi, index)
        invariant Tiles(es, ranges, lo, hi)
        decreases |es| - index
      {
        var start := index;
        var tokens, compactionOnly;
        index, tokens, compactionOnly := ReadRun(es, start);
        var r := EntryRange(start, index, tokens);
        NextRun(thread.View(), lo, hi, r, compactionOnly);
        if IsCompactable(thread.View(), r, compactionOnly) {
          OneMoreTile(es, ranges, lo, hi, r);
          ranges := ranges + [r];
          hi := index;
        }
      }
    }

    method SelectAutomaticPrefix(thread: ConversationThread, preserveRecentTokens: int)
      returns (count: Option<nat>, ghost lo: nat, ghost hi: nat, ghost newest: nat, ghost best: nat)
      requires Settled(thread.View())
      ensures ClosedRegion(thread.View(), lo, hi)
      ensures lo < hi ==> IsCompactionCut(thread.View(), lo, hi, newest, AtLeastOne(preserveRecentTokens), best)
      ensures lo < hi ==> best <= |thread.entries|
      ensures count.Some? ==> count.value > 0 && IsBestCutOf(thread.View(), AtLeastOne(preserveRecentTokens), count.value)
      ensures count == if lo < hi && best > 0 && HasContent(thread.entries[..best], texts) then Some(best) else None
    {
      hide Sound, NothingPending, ClosedRegion, Tiles, RangeOk, IsBestCut, IsNewestTurn, HasContent;
      var ranges;
      ranges, lo, hi := GetCompactableRanges(thread);
      NewestTile(thread.View(), ranges, lo, hi);
      newest, best := lo, 0;
      if |ranges| == 0 {
        return None, lo, hi, newest, best;
      }
      newest := ranges[|ranges| - 1].start;
      var boundary := ChooseBoundary(thread.entries, ranges, AtLeastOne(preserveRecentTokens), lo, hi);
      best := boundary;
      CutIsWithin(thread.View(), lo, hi, newest, AtLeastOne(preserveRecentTokens), best);
      if boundary == 0 || !HasContent(thread.entries[..boundary], texts) {
        return None, lo, hi, newest, best;
      }
      return Some(boundary), lo, hi, newest, best;
    }

    /** Summarizes the prefix before the best cut of the closed turns. */
    method ApplyTurnCompaction(thread: ConversationThread, budget: int)
      returns (changed: bool, ghost lo: nat, ghost hi: nat, ghost newest: nat, ghost k: nat)
      requires Settled(thread.View()) && thread.estimator.factor >= 0.5
      modifies thread
      ensures !changed ==> thread.View() == old(thread.View())
      ensures changed ==> IsCompactionCut(old(thread.View()), lo, hi, newest, AtLeastOne(Preserved(policy, budget)), k)
      ensures changed ==> k > 0 && SafeCut(old(thread.View()), k)
      ensures changed ==> thread.View() ==
                          ReplacePrefix(old(thread.View()), k, texts.summary(old(thread.entries)[..k]), thread.estimator.factor)
      ensures Settled(thread.View())
    {
      changed, lo, hi, newest, k := false, 0, 0, 0, 0;
      var tokensBefore := EstimateThreadTokens(thread);
      if tokensBefore <= budget {
        return;
      }
      var count;
      count, lo, hi, newest, k := SelectAutomaticPrefix(thread, Preserved(policy, budget));
      if count.Some? {
        var summary := texts.summary(thread.entries[..count.value]);
        CompactingKeepsSettled(thread.View(), lo, hi, newest, AtLeastOne(Preserved(policy, budget)), k, summary, thread.estimator.factor);
        thread.ReplacePrefixWithCompaction(count.value, summary);
        changed := true;
      }
    }

    // ---- Hard truncation ----

    /** Cuts one text down and says so in a notice at the end. */
    method TruncateOne(thread: ConversationThread, at: nat, cap: int)
      requires Settled(thread.View()) && at < |thread.entries| && thread.estimator.factor >= 0.5
      modifies thread
      ensures Settled(thread.View()) && thread.openTurnId == old(thread.openTurnId)
      ensures OneCut(old(thread.entries), thread.entries, at, cap, texts, thread.estimator.factor)
    {
      hide Settled, HardTruncated, AddNotice, OneCut, TruncationNotice;
      var kind := CutDown(thread, at, cap);
      NoticeKeepsSettled(thread.View(), TruncationNotice(kind), thread.estimator.factor);
      NoticeCompletesCut(old(thread.entries), thread.View(), at, cap, texts, thread.estimator.factor);
      thread.Notify(TruncationNotice(kind));
    }

    method CutDown(thread: ConversationThread, at: nat, cap: int) returns (kind: Kind)
      requires Settled(thread.View()) && at < |thread.entries| && thread.estimator.factor >= 0.5
      modifies thread
      ensures Settled(thread.View()) && kind == old(thread.entries)[at].kind
      ensures thread.View() == old(thread.View()).(entries :=
                old(thread.entries)[at := HardTruncated(old(thread.entries)[at], cap, texts, thread.estimator.factor)])
    {
      assert DistinctEntries(thread.entries);
      hide Settled;
      var e := thread.entries[at];
      kind := e.kind;
      TruncatingKeepsSettled(thread.View(), at, cap, texts, thread.estimator.factor);
      Shorten(thread, at, texts.capped(e.message.content, cap, OriginalTokens(e)));
    }

    /** Every entry is looked at once, the appended notices too, and none of those is over the cap. */
    method TruncateAll(thread: ConversationThread, cap: int) returns (m: nat)
      requires Settled(thread.View()) && thread.estimator.factor >= 0.5 && NoticesFit(thread.estimator.factor)
      requires cap >= MIN_MESSAGE_CAP
      modifies thread
      ensures Settled(thread.View()) && thread.openTurnId == old(thread.openTurnId)
      ensures AllCut(old(thread.entries), thread.entries, |thread.entries|, m, cap, texts, thread.estimator.factor)
      ensures m == 0 ==> thread.View() == old(thread.View())
    {
      m := 0;
      ghost var es, f := thread.entries, thread.estimator.factor;
      var i := 0;
      while i < |thread.entries|
        invariant Settled(thread.View()) && thread.openTurnId == old(thread.openTurnId)
        invariant AllCut(es, thread.entries, i, m, cap, texts, f)
        invariant m == 0 ==> thread.View() == old(thread.View())
        decreases if i < |es| then |es| - i else 0, |thread.entries| - i
      {
        if thread.entries[i].tokens <= cap {
          CutSkips(es, thread.entries, i, m, cap, texts, f);
        } else {
          CutNext(es, thread.entries, i, m, cap, texts, f);
          ghost var before := thread.entries;
          TruncateOne(thread, i, cap);
          CutGoesOn(es, before, thread.entries, i, m, cap, texts, f);
          m := m + 1;
        }
        i := i + 1;
      }
    }

    method ApplyHardTruncation(thread: ConversationThread, budget: int) returns (m: nat)
      requires Settled(thread.View()) && thread.estimator.factor >= 0.5 && NoticesFit(thread.estimator.factor)
      modifies thread
      ensures Settled(thread.View()) && thread.openTurnId == old(thread.openTurnId)
      ensures m == 0 ==> thread.View() == old(thread.View())
      ensures Sum(old(thread.entries)) > budget ==>
                AllCut(old(thread.entries), thread.entries, |thread.entries|, m, MessageCap(budget, |old(thread.entries)|),
                       texts, thread.estimator.factor)
      ensures Sum(old(thread.entries)) <= budget ==> m == 0
    {
      var tokensBefore := EstimateThreadTokens(thread);
      if tokensBefore <= budget {
        return 0;
      }
      m := TruncateAll(thread, MessageCap(budget, |thread.entries|));
    }

    /** The three stages, each only while the thread is still over its budget. */
    method Govern(thread: ConversationThread, budget: int) returns (tokensAfter: nat, ghost k: nat, ghost m: nat)
      requires Settled(thread.View()) && thread.estimator.factor >= 0.5 && NoticesFit(thread.estimator.factor)
      modifies thread
      ensures Settled(thread.View()) && Governed(old(thread.View()), thread.View(), k, m)
      ensures tokensAfter == Sum(thread.entries)
      ensures Sum(old(thread.entries)) <= budget ==> thread.View() == old(thread.View())
      ensures k > 0 ==> CutOfAged(old(thread.View()), policy, texts, thread.estimator.factor, budget, k)
    {
      ghost var t, f := thread.View(), thread.estimator.factor;
      k, m := 0, 0;
      OutlineIsGoverned(t, t);
      tokensAfter := EstimateThreadTokens(thread);
      if tokensAfter <= budget {
        return;
      }
      var aged := ApplyToolAging(thread);
      ghost var u := thread.View();
      StageKeepsSettled(t, policy, texts, f, u.entries);
      OutlineIsGoverned(t, u);
      tokensAfter := EstimateThreadTokens(thread);
      if aged && tokensAfter <= budget {
        return;
      }
      k, m := CompactAndTruncate(thread, budget);
      GovernedThroughOutline(t, u, thread.View(), k, m);
      tokensAfter := EstimateThreadTokens(thread);
    }

    method CompactAndTruncate(thread: ConversationThread, budget: int) returns (ghost k: nat, ghost m: nat)
      requires Settled(thread.View()) && thread.estimator.factor >= 0.5 && NoticesFit(thread.estimator.factor)
      modifies thread
      ensures Settled(thread.View()) && Governed(old(thread.View()), thread.View(), k, m)
      ensures k > 0 ==> IsBestCutOf(old(thread.View()), AtLeastOne(Preserved(policy, budget)), k)
    {
      ghost var t := thread.View();
      var compacted;
      compacted, k := Compact(thread, budget);
      m := 0;
      var tokens := EstimateThreadTokens(thread);
      if !compacted || tokens > budget {
        m := Truncate(thread, budget, t, k);
      }
    }

    method Compact(thread: ConversationThread, budget: int) returns (compacted: bool, ghost k: nat)
      requires Settled(thread.View()) && thread.estimator.factor >= 0.5
      modifies thread
      ensures Settled(thread.View()) && Governed(old(thread.View()), thread.View(), k, 0)
      ensures if compacted then IsBestCutOf(old(thread.View()), AtLeastOne(Preserved(policy, budget)), k)
              else k == 0 && thread.View() == old(thread.View())
    {
      ghost var u, f := thread.View(), thread.estimator.factor;
      ghost var lo, hi, newest;
      compacted, lo, hi, newest, k := ApplyTurnCompaction(thread, budget);
      if compacted {
        CutIsGoverned(u, thread.View(), k, texts.summary(u.entries[..k]), f);
      } else {
        k := 0;
        OutlineIsGoverned(u, u);
      }
    }

    method Truncate(thread: ConversationThread, budget: int, ghost t: Thread, ghost k: nat) returns (ghost m: nat)
      requires Settled(thread.View()) && thread.estimator.factor >= 0.5 && NoticesFit(thread.estimator.factor)
      requires Governed(t, thread.View(), k, 0)
      modifies thread
      ensures Settled(thread.View()) && Governed(t, thread.View(), k, m)
      ensures m > 0 ==> Sum(old(thread.entries)) > budget
    {
      ghost var v, f := thread.View(), thread.estimator.factor;
      CallsAreAssistants(v);
      var notices := ApplyHardTruncation(thread, budget);
      m := notices;
      if Sum(v.entries) > budget {
        TruncationIsGoverned(t, v, thread.View(), k, m, MessageCap(budget, |v.entries|), texts, f);
      }
    }
  }
}
