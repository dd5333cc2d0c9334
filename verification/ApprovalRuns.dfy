/** A batch from its first suspension to its end, for any decisions of the user. */
module ApprovalRuns {
  import opened CallGateway
  import opened ConversationThread
  import opened Messages
  import opened RunCheckpoint
  import opened RuntimeToolLoop
  import opened ThreadModel
  import opened ThreadProtocol
  import opened ToolBatch
  import opened Wrappers

  datatype Decision = Decision(approve: bool, reason: string)

  lemma {:induction false} RanIsExact(calls: seq<Call>, n: nat, policy: Policy, approved: set<string>, c: Call)
    requires n <= |calls|
    ensures c in Ran(calls, n, policy, approved) <==> c in calls[..n] && ShouldRun(c, policy, approved)
    decreases n
  {
    if n > 0 {
      RanIsExact(calls, n - 1, policy, approved, c);
      assert calls[..n] == calls[..n - 1] + [calls[n - 1]];
    }
  }

  /** One result per call, in request order, at the end of the thread. */
  ghost predicate EachAnswered(base: Thread, t: Thread, batch: seq<Call>) {
    && |t.entries| == |base.entries| + |batch|
    && forall i :: 0 <= i < |batch| ==> IsResultFor(t.entries[|base.entries| + i].message, batch[i])
  }

  /** Since the batch began exactly the allowed and the approved calls have run, none of them twice. */
  ghost predicate EachRanOnce(before: seq<Call>, now: seq<Call>, batch: seq<Call>, policy: Policy, approved: set<string>) {
    && |before| <= |now| && now[..|before|] == before
    && (forall c :: c in now[|before|..] <==> c in batch && ShouldRun(c, policy, approved))
    && forall i, j :: |before| <= i < j < |now| ==> now[i] != now[j]
  }

  lemma {:induction false} LoggedMeans(before: seq<Call>, now: seq<Call>, batch: seq<Call>, policy: Policy, approved: set<string>)
    requires Logged(before, now, batch, |batch|, policy, approved) && Distinct(CallIds(batch))
    ensures EachRanOnce(before, now, batch, policy, approved)
  {
    var ran := Ran(batch, |batch|, policy, approved);
    assert batch[..|batch|] == batch && now[|before|..] == ran;
    forall c ensures c in ran <==> c in batch && ShouldRun(c, policy, approved) {
      RanIsExact(batch, |batch|, policy, approved, c);
    }
    RanIsPicked(batch, |batch|, policy, approved);
    PickedAreDistinct(ran, batch);
    forall i, j | |before| <= i < j < |now| ensures now[i] != now[j] {
      assert now[i] == ran[i - |before|] && now[j] == ran[j - |before|];
    }
  }

  lemma {:induction false} AllAnsweredMeans(base: Thread, t: Thread, before: seq<Call>, now: seq<Call>, batch: seq<Call>, policy: Policy,
                                            approved: set<string>)
    requires Waiting(base, t, batch, |batch|) && Logged(before, now, batch, |batch|, policy, approved)
    ensures EachAnswered(base, t, batch) && EachRanOnce(before, now, batch, policy, approved)
  {
    LoggedMeans(before, now, batch, policy, approved);
  }

  // ---- Which call a decision is about ----

  predicate Asks(call: Call, policy: Policy) {
    Judge(policy, call).action.Ask?
  }

  /** How many of the first `k` calls ask for approval. */
  function Asked(batch: seq<Call>, k: nat, policy: Policy): nat
    requires k <= |batch|
  {
    if k == 0 then 0 else Asked(batch, k - 1, policy) + if Asks(batch[k - 1], policy) then 1 else 0
  }

  /** The decision on call `i` when the asking calls from `start` on are decided in order. */
  function DecisionOn(batch: seq<Call>, start: nat, i: nat, policy: Policy): int
    requires start <= i < |batch|
  {
    Asked(batch, i, policy) - Asked(batch, start, policy)
  }

  predicate Approves(batch: seq<Call>, start: nat, i: nat, policy: Policy, decisions: seq<Decision>) {
    && start <= i < |batch| && Asks(batch[i], policy)
    && 0 <= DecisionOn(batch, start, i, policy) < |decisions| && decisions[DecisionOn(batch, start, i, policy)].approve
  }

  /** The asking calls that the decisions approve. */
  function Approvals(batch: seq<Call>, start: nat, policy: Policy, decisions: seq<Decision>): (r: set<string>)
    ensures forall id :: id in r <==> exists i: nat :: Approves(batch, start, i, policy, decisions) && batch[i].id == id
  {
    set i: nat | i < |batch| && Approves(batch, start, i, policy, decisions) :: batch[i].id
  }

  lemma {:induction false} AskedGrows(batch: seq<Call>, a: nat, b: nat, policy: Policy)
    requires a <= b <= |batch|
    ensures Asked(batch, a, policy) <= Asked(batch, b, policy)
    ensures a < b && Asks(batch[a], policy) ==> Asked(batch, a, policy) < Asked(batch, b, policy)
    ensures NoneAskedFrom(batch, a, b, policy) ==> Asked(batch, a, policy) == Asked(batch, b, policy)
    decreases b - a
  {
    if a < b { AskedGrows(batch, a, b - 1, policy); }
  }

  /** One more decision is about the next asking call, and about no other. */
  lemma {:induction false} NextDecision(batch: seq<Call>, start: nat, at: nat, policy: Policy, decisions: seq<Decision>, n: nat, i: nat)
    requires start <= at < |batch| && n < |decisions| && Asks(batch[at], policy) && DecisionOn(batch, start, at, policy) == n
    ensures Approves(batch, start, i, policy, decisions[..n + 1]) <==>
            Approves(batch, start, i, policy, decisions[..n]) || (i == at && decisions[n].approve)
  {
    if start <= i < at {
      AskedGrows(batch, i, at, policy);
    } else if at < i < |batch| {
      AskedGrows(batch, at, i, policy);
    }
  }

  lemma {:induction false} ApprovalsAdvance(batch: seq<Call>, start: nat, at: nat, policy: Policy, decisions: seq<Decision>, n: nat)
    requires start <= at < |batch| && n < |decisions| && Asks(batch[at], policy) && DecisionOn(batch, start, at, policy) == n
    ensures Approvals(batch, start, policy, decisions[..n + 1]) ==
            Decided(Approvals(batch, start, policy, decisions[..n]), batch[at], decisions[n].approve)
  {
    var was, now := Approvals(batch, start, policy, decisions[..n]), Approvals(batch, start, policy, decisions[..n + 1]);
    forall i: nat ensures Approves(batch, start, i, policy, decisions[..n + 1]) <==>
                     Approves(batch, start, i, policy, decisions[..n]) || (i == at && decisions[n].approve)
    {
      NextDecision(batch, start, at, policy, decisions, n, i);
    }
    assert now == Decided(was, batch[at], decisions[n].approve);
  }

  /** Further decisions only add; none is left to add once all asking calls are decided. */
  lemma {:induction false} FurtherDecisions(batch: seq<Call>, start: nat, policy: Policy, decisions: seq<Decision>, n: nat)
    requires start <= |batch| && n <= |decisions|
    ensures Approvals(batch, start, policy, decisions[..n]) <= Approvals(batch, start, policy, decisions)
    ensures Asked(batch, |batch|, policy) - Asked(batch, start, policy) <= n ==>
              Approvals(batch, start, policy, decisions[..n]) == Approvals(batch, start, policy, decisions)
  {
    forall i: nat | Approves(batch, start, i, policy, decisions[..n]) ensures Approves(batch, start, i, policy, decisions) {
    }
    if Asked(batch, |batch|, policy) - Asked(batch, start, policy) <= n {
      forall i: nat | Approves(batch, start, i, policy, decisions) ensures Approves(batch, start, i, policy, decisions[..n]) {
        AskedGrows(batch, i, |batch|, policy);
      }
    }
  }

  lemma {:induction false} LoggedIsDue(before: seq<Call>, now: seq<Call>, batch: seq<Call>, done: nat, policy: Policy,
                                       approved: set<string>)
    requires Logged(before, now, batch, done, policy, approved)
    ensures OnlyDue(before, now, policy, approved)
  {
    var ran := Ran(batch, done, policy, approved);
    RanIsDue(batch, done, policy, approved);
    forall i | |before| <= i < |now| ensures ShouldRun(now[i], policy, approved) {
      assert now[i] == ran[i - |before|];
    }
  }

  /** A call that asks and is not approved has not run. */
  lemma {:induction false} UnapprovedNeverRuns(batch: seq<Call>, start: nat, i: nat, policy: Policy, decisions: seq<Decision>,
                                               was: set<string>, approved: set<string>, before: seq<Call>, now: seq<Call>)
    requires Distinct(CallIds(batch)) && start <= i < |batch| && Asks(batch[i], policy)
    requires was <= IdsOf(batch, start) && approved <= was + Approvals(batch, start, policy, decisions)
    requires OnlyDue(before, now, policy, approved) && !Approves(batch, start, i, policy, decisions)
    ensures batch[i] !in now[|before|..]
  {
    var ids := CallIds(batch);
    IdsOfAre(batch, start, batch[i].id);
    assert forall k :: 0 <= k < |batch| ==> ids[k] == batch[k].id;
    assert batch[i].id !in was;
    assert !ShouldRun(batch[i], policy, approved);
    assert forall k :: |before| <= k < |now| ==> now[k] != batch[i];
  }

  /** `n` decisions have been taken; the asking calls before `at` are the ones they were about. */
  ghost predicate Decisive(batch: seq<Call>, start: nat, at: nat, policy: Policy, decisions: seq<Decision>, n: nat,
                           was: set<string>, approved: set<string>) {
    && start <= at <= |batch| && n <= |decisions|
    && Asked(batch, at, policy) - Asked(batch, start, policy) == n
    && approved == was + Approvals(batch, start, policy, decisions[..n])
  }

  lemma {:induction false} NoneDecided(batch: seq<Call>, start: nat, policy: Policy, decisions: seq<Decision>, was: set<string>)
    requires start <= |batch|
    ensures Decisive(batch, start, start, policy, decisions, 0, was, was)
  {
    assert forall i :: !Approves(batch, start, i, policy, decisions[..0]);
    assert Approvals(batch, start, policy, decisions[..0]) == {};
  }

  lemma {:induction false} OneMoreDecided(batch: seq<Call>, start: nat, at: nat, policy: Policy, decisions: seq<Decision>, n: nat,
                                          was: set<string>, approved: set<string>, next: nat)
    requires Decisive(batch, start, at, policy, decisions, n, was, approved) && n < |decisions|
    requires at < next <= |batch| && Asks(batch[at], policy) && NoneAskedFrom(batch, at + 1, next, policy)
    ensures Decisive(batch, start, next, policy, decisions, n + 1, was, Decided(approved, batch[at], decisions[n].approve))
  {
    ApprovalsAdvance(batch, start, at, policy, decisions, n);
    AskedGrows(batch, at + 1, next, policy);
  }

  lemma {:induction false} AllDecided(batch: seq<Call>, start: nat, at: nat, policy: Policy, decisions: seq<Decision>, n: nat,
                                      was: set<string>, approved: set<string>)
    requires Decisive(batch, start, at, policy, decisions, n, was, approved)
    ensures start <= at <= |batch| && Asked(batch, at, policy) - Asked(batch, start, policy) == n <= |decisions|
    ensures start <= |batch| && approved <= was + Approvals(batch, start, policy, decisions)
    ensures n == |decisions| || at == |batch| ==> approved == was + Approvals(batch, start, policy, decisions)
  {
    FurtherDecisions(batch, start, policy, decisions, n);
    assert n == |decisions| ==> decisions[..n] == decisions;
  }

  /** Of the calls from `start` on that ask, none ran without its decision approving it. */
  ghost predicate RejectedNeverRan(batch: seq<Call>, start: nat, policy: Policy, decisions: seq<Decision>, ran: seq<Call>) {
    forall i :: start <= i < |batch| && Asks(batch[i], policy) && batch[i] in ran ==> Approves(batch, start, i, policy, decisions)
  }

  lemma {:induction false} NoneRejectedRan(batch: seq<Call>, start: nat, policy: Policy, decisions: seq<Decision>,
                                           was: set<string>, approved: set<string>, before: seq<Call>, now: seq<Call>)
    requires Distinct(CallIds(batch)) && start <= |batch| && was <= IdsOf(batch, start)
    requires approved <= was + Approvals(batch, start, policy, decisions) && OnlyDue(before, now, policy, approved)
    ensures RejectedNeverRan(batch, start, policy, decisions, now[|before|..])
  {
    forall i | start <= i < |batch| && Asks(batch[i], policy) && !Approves(batch, start, i, policy, decisions)
      ensures batch[i] !in now[|before|..]
    {
      UnapprovedNeverRuns(batch, start, i, policy, decisions, was, approved, before, now);
    }
  }

  /**
   * Whatever the user decides, a suspended batch comes to an end after at most as many decisions as it has calls.
   * The decisions go to the asking calls in order, so a rejected call never runs, however the batch ends. Unless an
   * error stopped it, every call then has one result, in request order, and exactly the due calls have run.
   */
  method Resume(loop: RuntimeToolLoop, runId: string, decisions: seq<Decision>) returns (end: BatchEnd)
    requires loop.SuspendedAt(runId)
    modifies loop, loop.gateway, loop.thread
    ensures loop.batch == old(loop.batch) && loop.base == old(loop.base) && loop.logBefore == old(loop.logBefore)
    ensures end.BatchSuspended? ==> loop.SuspendedAt(runId) && |decisions| < |loop.batch|
    ensures end.BatchSuspended? ==>
              && old(loop.done) <= loop.done
              && Asked(loop.batch, loop.done, loop.gateway.policy) - Asked(loop.batch, old(loop.done), loop.gateway.policy) == |decisions|
    ensures end.BatchDone? ==>
              Asked(loop.batch, |loop.batch|, loop.gateway.policy) - Asked(loop.batch, old(loop.done), loop.gateway.policy) <= |decisions|
    ensures end.BatchAborted? ==> loop.Ended()
    ensures end.BatchFailed? ==> loop.LeftOpen()
    ensures end.BatchDone? ==> loop.AllAnswered(runId) && EachAnswered(loop.base, loop.thread.View(), loop.batch)
    ensures end.BatchDone? ==>
              EachRanOnce(loop.logBefore, loop.gateway.executed, loop.batch, loop.gateway.policy, loop.approved)
    ensures var given := Approvals(loop.batch, old(loop.done), loop.gateway.policy, decisions);
            if end.Stopped() then loop.approved <= old(loop.approved) + given else loop.approved == old(loop.approved) + given
    ensures |loop.logBefore| <= |loop.gateway.executed|
    ensures RejectedNeverRan(loop.batch, old(loop.done), loop.gateway.policy, decisions, loop.gateway.executed[|loop.logBefore|..])
  {
    hide Waiting, Logged, Sound, RanSafely, OnlyDue, EachAnswered, EachRanOnce, Approvals, Decisive, RejectedNeverRan;
    hide Ran, IdsOf, AnsweredIn, Distinct, CallIds, NoneAskedFrom;
    hide RuntimeToolLoop.SuspendedAt, RuntimeToolLoop.AllAnswered, RuntimeToolLoop.Ended, RuntimeToolLoop.LeftOpen;
    ghost var start, was, policy, at: nat := loop.done, loop.approved, loop.gateway.policy, loop.done;
    SuspendedMeans(loop, runId);
    NoneDecided(loop.batch, start, policy, decisions, was);
    end := BatchSuspended;
    var n := 0;
    while n < |decisions| && end.BatchSuspended?
      invariant loop.batch == old(loop.batch) && loop.base == old(loop.base) && loop.logBefore == old(loop.logBefore)
      invariant n <= |decisions| && Decisive(loop.batch, start, at, policy, decisions, n, was, loop.approved)
      invariant end.BatchSuspended? ==> loop.SuspendedAt(runId) && n <= loop.done && at == loop.done
      invariant end.BatchAborted? ==> loop.Ended()
      invariant end.BatchFailed? ==> loop.LeftOpen()
      invariant end.BatchDone? ==> loop.AllAnswered(runId) && at == |loop.batch|
      decreases |decisions| - n
    {
      var known;
      ghost var approved := loop.approved;
      SuspendedMeans(loop, runId);
      known, end := loop.ResolveToolApproval(runId, decisions[n].approve, decisions[n].reason);
      ghost var next := if end.Stopped() then at + 1 else loop.done;
      if end.Stopped() { NoneAskedAtAll(loop.batch, at + 1, policy); }
      if end.BatchSuspended? { SuspendedMeans(loop, runId); }
      if end.BatchDone? { DoneMeans(loop, runId); }
      OneMoreDecided(loop.batch, start, at, policy, decisions, n, was, approved, next);
      at, n := next, n + 1;
    }
    AllDecided(loop.batch, start, at, policy, decisions, n, was, loop.approved);
    if end.BatchSuspended? { SuspendedMeans(loop, runId); }
    if end.BatchDone? { DoneMeans(loop, runId); }
    LogIsDue(loop, end, runId);
    NoneRejectedRan(loop.batch, start, policy, decisions, was, loop.approved, loop.logBefore, loop.gateway.executed);
  }

  lemma {:induction false} SuspendedMeans(loop: RuntimeToolLoop, runId: string)
    requires loop.SuspendedAt(runId)
    ensures loop.done < |loop.batch| && Asks(loop.batch[loop.done], loop.gateway.policy)
    ensures runId in loop.sessions && loop.sessions[runId].call == loop.batch[loop.done]
    ensures Distinct(CallIds(loop.batch)) && loop.approved <= IdsOf(loop.batch, loop.done)
  {
  }

  lemma {:induction false} DoneMeans(loop: RuntimeToolLoop, runId: string)
    requires loop.AllAnswered(runId)
    ensures loop.done == |loop.batch| && EachAnswered(loop.base, loop.thread.View(), loop.batch)
    ensures EachRanOnce(loop.logBefore, loop.gateway.executed, loop.batch, loop.gateway.policy, loop.approved)
  {
    AllAnsweredMeans(loop.base, loop.thread.View(), loop.logBefore, loop.gateway.executed, loop.batch, loop.gateway.policy, loop.approved);
  }

  lemma NoneAskedAtAll(batch: seq<Call>, at: nat, policy: Policy)
    requires at <= |batch|
    ensures NoneAskedFrom(batch, at, at, policy)
  {
  }

  lemma {:induction false} LogIsDue(loop: RuntimeToolLoop, end: BatchEnd, runId: string)
    requires EndState(loop, runId, end)
    ensures OnlyDue(loop.logBefore, loop.gateway.executed, loop.gateway.policy, loop.approved)
    ensures |loop.logBefore| <= |loop.gateway.executed| && loop.gateway.executed[..|loop.logBefore|] == loop.logBefore
  {
    if !end.Stopped() {
      LoggedIsDue(loop.logBefore, loop.gateway.executed, loop.batch, loop.done, loop.gateway.policy, loop.approved);
    }
  }

  // ---- Across restarts ----

  function Flatten(rounds: seq<seq<Decision>>): seq<Decision> {
    if rounds == [] then [] else Flatten(rounds[..|rounds| - 1]) + rounds[|rounds| - 1]
  }

  lemma {:induction false} AskedInRest(batch: seq<Call>, k: nat, i: nat, policy: Policy)
    requires k + i <= |batch|
    ensures Asked(batch[k..], i, policy) == Asked(batch, k + i, policy) - Asked(batch, k, policy)
    decreases i
  {
    if i > 0 { AskedInRest(batch, k, i - 1, policy); }
  }

  /** Decisions taken on the rest of a batch, as a batch of its own, are further decisions on the batch. */
  lemma {:induction false} ApprovalsInRounds(batch: seq<Call>, start: nat, k: nat, d: nat, policy: Policy,
                                             used: seq<Decision>, more: seq<Decision>)
    requires start <= k + d <= |batch| && Asked(batch, k + d, policy) - Asked(batch, start, policy) == |used|
    ensures Approvals(batch, start, policy, used + more) ==
            Approvals(batch, start, policy, used) + Approvals(batch[k..], d, policy, more)
  {
    var all, part := used + more, batch[k..];
    forall i: nat ensures Approves(batch, start, i, policy, all) <==>
                          Approves(batch, start, i, policy, used) || (i >= k && Approves(part, d, i - k, policy, more))
    {
      ApprovesInRounds(batch, start, k, d, policy, used, more, i);
    }
    forall id | id in Approvals(part, d, policy, more) ensures id in Approvals(batch, start, policy, all) {
      var i: nat :| Approves(part, d, i, policy, more) && part[i].id == id;
      assert Approves(batch, start, k + i, policy, all) && batch[k + i].id == id;
    }
    forall id | id in Approvals(batch, start, policy, all)
      ensures id in Approvals(batch, start, policy, used) || id in Approvals(part, d, policy, more)
    {
      var i: nat :| Approves(batch, start, i, policy, all) && batch[i].id == id;
      if !Approves(batch, start, i, policy, used) { assert part[i - k].id == id; }
    }
    forall id | id in Approvals(batch, start, policy, used) ensures id in Approvals(batch, start, policy, all) {
      var i: nat :| Approves(batch, start, i, policy, used) && batch[i].id == id;
      assert Approves(batch, start, i, policy, all);
    }
  }

  lemma {:induction false} ApprovesInRounds(batch: seq<Call>, start: nat, k: nat, d: nat, policy: Policy,
                                            used: seq<Decision>, more: seq<Decision>, i: nat)
    requires start <= k + d <= |batch| && Asked(batch, k + d, policy) - Asked(batch, start, policy) == |used|
    ensures Approves(batch, start, i, policy, used + more) <==>
            Approves(batch, start, i, policy, used) || (i >= k && Approves(batch[k..], d, i - k, policy, more))
  {
    if start <= i < |batch| {
      if i < k + d {
        AskedGrows(batch, i, k + d, policy);
      } else {
        AskedGrows(batch, k + d, i, policy);
        AskedInRest(batch, k, i - k, policy);
        AskedInRest(batch, k, d, policy);
      }
    }
  }

  /**
   * Where a batch stands in the process at hand, which took it up at call `k`: what ran before, what was approved
   * before, and the decisions taken so far.
   */
  ghost predicate Underway(batch: seq<Call>, log: seq<Call>, start: nat, was: set<string>, policy: Policy,
                           used: seq<Decision>, k: nat, mid: seq<Call>, first: set<string>, done: nat, approved: set<string>) {
    && start <= k + done <= |batch| && Distinct(CallIds(batch)) && was <= IdsOf(batch, start)
    && Logged(log, mid, batch, k, policy, first)
    && Asked(batch, k + done, policy) - Asked(batch, start, policy) == |used|
    && first + approved == was + Approvals(batch, start, policy, used)
  }

  /** What the next process finds. */
  lemma {:induction false} UnderwayAgain(batch: seq<Call>, log: seq<Call>, start: nat, was: set<string>, policy: Policy,
                                         used: seq<Decision>, k: nat, mid: seq<Call>, first: set<string>, done: nat,
                                         approved: set<string>, now: seq<Call>)
    requires Underway(batch, log, start, was, policy, used, k, mid, first, done, approved)
    requires Logged(mid, now, batch[k..], done, policy, approved)
    ensures Underway(batch, log, start, was, policy, used, k + done, now, first + approved, 0, {})
  {
    LoggedAcross(log, mid, now, batch, k, done, policy, first, approved);
    assert first + approved + {} == first + approved;
  }

  /** A round of decisions that ends in another suspension. */
  lemma {:induction false} UnderwayFurther(batch: seq<Call>, log: seq<Call>, start: nat, was: set<string>, policy: Policy,
                                           used: seq<Decision>, k: nat, mid: seq<Call>, first: set<string>, done: nat,
                                           approved: set<string>, more: seq<Decision>, next: nat)
    requires Underway(batch, log, start, was, policy, used, k, mid, first, done, approved)
    requires done <= next && k + next <= |batch|
    requires Asked(batch[k..], next, policy) - Asked(batch[k..], done, policy) == |more|
    ensures Underway(batch, log, start, was, policy, used + more, k, mid, first, next,
                     approved + Approvals(batch[k..], done, policy, more))
  {
    ApprovalsInRounds(batch, start, k, done, policy, used, more);
    AskedInRest(batch, k, next, policy);
    AskedInRest(batch, k, done, policy);
  }

  lemma {:induction false} DueAcross(log: seq<Call>, mid: seq<Call>, now: seq<Call>, policy: Policy, first: set<string>, later: set<string>)
    requires OnlyDue(log, mid, policy, first) && OnlyDue(mid, now, policy, later) && now[..|mid|] == mid
    ensures OnlyDue(log, now, policy, first + later)
  {
    forall i | |log| <= i < |now| ensures ShouldRun(now[i], policy, first + later) {
      if i < |mid| {
        assert now[i] == mid[i] && ShouldRun(mid[i], policy, first);
      } else {
        assert ShouldRun(now[i], policy, later);
      }
    }
  }

  /** What a round of decisions means for the whole batch, however it ends. */
  lemma {:induction false} RoundAcross(batch: seq<Call>, log: seq<Call>, start: nat, was: set<string>, policy: Policy,
                                       used: seq<Decision>, k: nat, mid: seq<Call>, first: set<string>, done: nat,
                                       approved: set<string>, more: seq<Decision>, rest: seq<Decision>, after: set<string>,
                                       now: seq<Call>)
    requires Underway(batch, log, start, was, policy, used, k, mid, first, done, approved)
    requires after <= approved + Approvals(batch[k..], done, policy, more)
    requires OnlyDue(mid, now, policy, after) && |mid| <= |now| && now[..|mid|] == mid
    ensures |log| <= |now| && first + after <= was + Approvals(batch, start, policy, used + more + rest)
    ensures RejectedNeverRan(batch, start, policy, used + more + rest, now[|log|..])
    ensures after == approved + Approvals(batch[k..], done, policy, more) &&
            (rest == [] || Asked(batch, |batch|, policy) - Asked(batch, start, policy) <= |used + more|) ==>
              first + after == was + Approvals(batch, start, policy, used + more + rest)
  {
    var all := used + more + rest;
    ApprovalsInRounds(batch, start, k, done, policy, used, more);
    assert all[..|used + more|] == used + more;
    FurtherDecisions(batch, start, policy, all, |used + more|);
    assert rest == [] ==> all == used + more;
    LoggedIsDue(log, mid, batch, k, policy, first);
    DueAcross(log, mid, now, policy, first, after);
    NoneRejectedRan(batch, start, policy, all, was, first + after, log, now);
  }

  /** The decisions after the first `i` rounds and the next one. */
  function Later(rounds: seq<seq<Decision>>, i: nat): seq<Decision>
    requires i < |rounds|
    decreases |rounds|
  {
    var n := |rounds| - 1;
    if i == n then [] else Later(rounds[..n], i) + rounds[n]
  }

  lemma {:induction false} FlattenSplits(rounds: seq<seq<Decision>>, i: nat)
    requires i < |rounds|
    ensures Flatten(rounds) == Flatten(rounds[..i]) + rounds[i] + Later(rounds, i)
    ensures Flatten(rounds[..i + 1]) == Flatten(rounds[..i]) + rounds[i]
    ensures i == |rounds| - 1 ==> Later(rounds, i) == []
    decreases |rounds|
  {
    var n := |rounds| - 1;
    assert rounds[..i + 1][..i] == rounds[..i];
    if i == n {
      assert Flatten(rounds[..i]) + rounds[i] + [] == Flatten(rounds[..i]) + rounds[i];
    } else {
      FlattenSplits(rounds[..n], i);
      assert rounds[..n][..i] == rounds[..i];
      assert Flatten(rounds[..i]) + rounds[i] + Later(rounds[..n], i) + rounds[n]
          == Flatten(rounds[..i]) + rounds[i] + (Later(rounds[..n], i) + rounds[n]);
    }
  }

  lemma {:induction false} UnderwayAtFirst(loop: RuntimeToolLoop, runId: string)
    requires loop.SuspendedAt(runId)
    ensures Underway(loop.batch, loop.logBefore, loop.done, loop.approved, loop.gateway.policy, [], 0, loop.logBefore, {},
                     loop.done, loop.approved)
    ensures loop.batch == loop.batch[0..]
  {
    NothingLogged(loop.logBefore, loop.batch, loop.gateway.policy);
    assert Approvals(loop.batch, loop.done, loop.gateway.policy, []) == {};
  }

  /** How a batch may stand when the run returns to its caller. */
  ghost predicate EndState(loop: RuntimeToolLoop, runId: string, end: BatchEnd)
    reads loop, loop.gateway, loop.thread
  {
    match end
    case BatchSuspended => loop.SuspendedAt(runId)
    case BatchDone => loop.AllAnswered(runId)
    case BatchAborted => loop.Ended()
    case BatchFailed => loop.LeftOpen()
  }

  /** `rest` is the batch from call `k` on. */
  predicate IsRest(batch: seq<Call>, k: nat, rest: seq<Call>) {
    k <= |batch| && rest == batch[k..]
  }

  /** The process at hand has the batch from call `k` on, with all that happened before in order. */
  ghost predicate Holds(last: RuntimeToolLoop, runId: string, batch: seq<Call>, log: seq<Call>, start: nat, was: set<string>,
                        used: seq<Decision>, k: nat, first: set<string>)
    reads last, last.gateway, last.thread
  {
    && last.SuspendedAt(runId) && IsRest(batch, k, last.batch)
    && Underway(batch, log, start, was, last.gateway.policy, used, k, last.logBefore, first, last.done, last.approved)
  }

  /** What all processes so far have approved and run, in terms of all decisions; exactly these once the decisions are through. */
  ghost predicate Summed(batch: seq<Call>, log: seq<Call>, start: nat, was: set<string>, policy: Policy, decisions: seq<Decision>,
                         approved: set<string>, now: seq<Call>, through: bool) {
    && start <= |batch| && |log| <= |now| && approved <= was + Approvals(batch, start, policy, decisions)
    && RejectedNeverRan(batch, start, policy, decisions, now[|log|..])
    && (through ==> approved == was + Approvals(batch, start, policy, decisions))
  }

  /** One round of decisions in the process at hand; `rest` are decisions that may follow later. */
  method OneRound(last: RuntimeToolLoop, runId: string, more: seq<Decision>, ghost batch: seq<Call>, ghost log: seq<Call>,
                  ghost start: nat, ghost was: set<string>, ghost used: seq<Decision>, ghost k: nat,
                  ghost first: set<string>, ghost rest: seq<Decision>)
    returns (end: BatchEnd, ghost approved: set<string>)
    requires Holds(last, runId, batch, log, start, was, used, k, first)
    modifies last, last.gateway, last.thread
    ensures EndState(last, runId, end)
    ensures end.BatchSuspended? ==> Holds(last, runId, batch, log, start, was, used + more, k, first)
    ensures end.BatchDone? ==>
              && EachAnswered(last.base, last.thread.View(), last.batch)
              && EachRanOnce(log, last.gateway.executed, batch, last.gateway.policy, approved)
    ensures Summed(batch, log, start, was, last.gateway.policy, used + more + rest, approved, last.gateway.executed,
                   end.BatchDone? || (end.BatchSuspended? && rest == []))
  {
    ghost var done, before := last.done, last.approved;
    UnderwayBounds(batch, log, start, was, last.gateway.policy, used, k, last.logBefore, first, done, before);
    end := Resume(last, runId, more);
    LogIsDue(last, end, runId);
    approved := first + last.approved;
    hide *;
    RoundIsSummed(batch, log, start, was, last.gateway.policy, used, k, last.logBefore, first, done, before, more, rest, last.approved,
                  last.gateway.executed, end);
    if end.BatchSuspended? { RoundHolds(last, runId, batch, log, start, was, used, k, first, done, before, more); }
    if end.BatchDone? { RoundEnds(last, runId, batch, log, k, first); }
  }

  lemma {:induction false} RoundHolds(last: RuntimeToolLoop, runId: string, batch: seq<Call>, log: seq<Call>, start: nat, was: set<string>,
                                      used: seq<Decision>, k: nat, first: set<string>, done: nat, before: set<string>, more: seq<Decision>)
    requires last.SuspendedAt(runId) && k <= |batch| && last.batch == batch[k..] && done <= last.done <= |last.batch|
    requires Underway(batch, log, start, was, last.gateway.policy, used, k, last.logBefore, first, done, before)
    requires last.approved == before + Approvals(batch[k..], done, last.gateway.policy, more)
    requires Asked(batch[k..], last.done, last.gateway.policy) - Asked(batch[k..], done, last.gateway.policy) == |more|
    ensures Holds(last, runId, batch, log, start, was, used + more, k, first)
  {
    hide RuntimeToolLoop.SuspendedAt, Underway, Approvals, Asked;
    UnderwayFurther(batch, log, start, was, last.gateway.policy, used, k, last.logBefore, first, done, before, more, last.done);
  }

  lemma {:induction false} RoundEnds(last: RuntimeToolLoop, runId: string, batch: seq<Call>, log: seq<Call>, k: nat, first: set<string>)
    requires last.AllAnswered(runId) && k <= |batch| && last.batch == batch[k..] && Distinct(CallIds(batch))
    requires Logged(log, last.logBefore, batch, k, last.gateway.policy, first)
    ensures EachAnswered(last.base, last.thread.View(), last.batch)
    ensures EachRanOnce(log, last.gateway.executed, batch, last.gateway.policy, first + last.approved)
  {
    hide *;
    DoneMeans(last, runId);
    DoneLog(last, runId);
    LoggedAcross(log, last.logBefore, last.gateway.executed, batch, k, |last.batch|, last.gateway.policy, first, last.approved);
    LoggedMeans(log, last.gateway.executed, batch, last.gateway.policy, first + last.approved);
  }

  lemma {:induction false} RoundIsSummed(batch: seq<Call>, log: seq<Call>, start: nat, was: set<string>, policy: Policy,
                                         used: seq<Decision>, k: nat, mid: seq<Call>, first: set<string>, done: nat,
                                         approved: set<string>, more: seq<Decision>, rest: seq<Decision>, after: set<string>,
                                         now: seq<Call>, end: BatchEnd)
    requires Underway(batch, log, start, was, policy, used, k, mid, first, done, approved) && k + done <= |batch|
    requires OnlyDue(mid, now, policy, after) && |mid| <= |now| && now[..|mid|] == mid
    requires var given := Approvals(batch[k..], done, policy, more);
             if end.Stopped() then after <= approved + given else after == approved + given
    requires end.BatchDone? ==> Asked(batch[k..], |batch[k..]|, policy) - Asked(batch[k..], done, policy) <= |more|
    ensures Summed(batch, log, start, was, policy, used + more + rest, first + after, now,
                   end.BatchDone? || (end.BatchSuspended? && rest == []))
  {
    hide Underway, OnlyDue, Approvals, RejectedNeverRan, Asked;
    UnderwayBounds(batch, log, start, was, policy, used, k, mid, first, done, approved);
    if end.BatchDone? { AllAsked(batch, log, start, was, policy, used, k, mid, first, done, approved, more); }
    RoundAcross(batch, log, start, was, policy, used, k, mid, first, done, approved, more, rest, after, now);
  }

  lemma {:induction false} UnderwayBounds(batch: seq<Call>, log: seq<Call>, start: nat, was: set<string>, policy: Policy,
                                          used: seq<Decision>, k: nat, mid: seq<Call>, first: set<string>, done: nat,
                                          approved: set<string>)
    requires Underway(batch, log, start, was, policy, used, k, mid, first, done, approved)
    ensures start <= k + done <= |batch| && Logged(log, mid, batch, k, policy, first) && Distinct(CallIds(batch))
  {
  }

  /** A round that ends the batch leaves no asking call undecided. */
  lemma {:induction false} AllAsked(batch: seq<Call>, log: seq<Call>, start: nat, was: set<string>, policy: Policy,
                                    used: seq<Decision>, k: nat, mid: seq<Call>, first: set<string>, done: nat,
                                    approved: set<string>, more: seq<Decision>)
    requires Underway(batch, log, start, was, policy, used, k, mid, first, done, approved)
    requires Asked(batch[k..], |batch[k..]|, policy) - Asked(batch[k..], done, policy) <= |more|
    ensures Asked(batch, |batch|, policy) - Asked(batch, start, policy) <= |used + more|
  {
    hide Logged, Approvals, IdsOf, Distinct, CallIds, Asked;
    AskedInRest(batch, k, |batch[k..]|, policy);
    AskedInRest(batch, k, done, policy);
  }

  /**
   * After each round of decisions the process may end, and a new one goes on at the same call. Counted from when the
   * batch was requested, over all processes: no call runs twice, none that was rejected runs at all, and once the batch
   * is through exactly the due calls have run.
   */
  method ResumeAcrossRestarts(loop: RuntimeToolLoop, runId: string, rounds: seq<seq<Decision>>)
    returns (last: RuntimeToolLoop, end: BatchEnd, ghost approved: set<string>)
    requires loop.SuspendedAt(runId) && |rounds| > 0 && forall c :: c in loop.batch ==> c.name in loop.tools
    modifies loop, loop.gateway, loop.thread
    ensures last.gateway == loop.gateway && EndState(last, runId, end)
    ensures end.BatchDone? ==>
              && EachAnswered(last.base, last.thread.View(), last.batch)
              && EachRanOnce(old(loop.logBefore), loop.gateway.executed, old(loop.batch), loop.gateway.policy, approved)
    ensures old(loop.done) <= |old(loop.batch)| && |old(loop.logBefore)| <= |loop.gateway.executed|
    ensures var given := Approvals(old(loop.batch), old(loop.done), loop.gateway.policy, Flatten(rounds));
            if end.Stopped() then approved <= old(loop.approved) + given else approved == old(loop.approved) + given
    ensures RejectedNeverRan(old(loop.batch), old(loop.done), loop.gateway.policy, Flatten(rounds),
                             loop.gateway.executed[|old(loop.logBefore)|..])
  {
    ghost var batch, log, start, was := loop.batch, loop.logBefore, loop.done, loop.approved;
    last, end, approved := AllRounds(loop, runId, rounds, batch, log, start, was);
    hide *;
    SummedUp(batch, log, start, was, loop.gateway.policy, Flatten(rounds), approved, loop.gateway.executed, !end.Stopped());
  }

  method AllRounds(loop: RuntimeToolLoop, runId: string, rounds: seq<seq<Decision>>,
                   ghost batch: seq<Call>, ghost log: seq<Call>, ghost start: nat, ghost was: set<string>)
    returns (last: RuntimeToolLoop, end: BatchEnd, ghost approved: set<string>)
    requires loop.SuspendedAt(runId) && |rounds| > 0 && forall c :: c in loop.batch ==> c.name in loop.tools
    requires batch == loop.batch && log == loop.logBefore && start == loop.done && was == loop.approved
    modifies loop, loop.gateway, loop.thread
    ensures last.gateway == loop.gateway && EndState(last, runId, end)
    ensures end.BatchDone? ==>
              && EachAnswered(last.base, last.thread.View(), last.batch)
              && EachRanOnce(log, loop.gateway.executed, batch, loop.gateway.policy, approved)
    ensures Summed(batch, log, start, was, loop.gateway.policy, Flatten(rounds), approved, loop.gateway.executed, !end.Stopped())
  {
    ghost var k: nat, first: set<string> := 0, {};
    ghost var used := Flatten(rounds[..0]);
    UnderwayAtFirst(loop, runId);
    assert Holds(loop, runId, batch, log, start, was, used, k, first);
    FlattenSplits(rounds, 0);
    hide *;
    last := loop;
    end, approved := OneRound(loop, runId, rounds[0], batch, log, start, was, used, k, first, Later(rounds, 0));
    var i := 1;
    while end.BatchSuspended? && i < |rounds|
      invariant 1 <= i <= |rounds| && last.gateway == loop.gateway && last.tools == loop.tools && EndState(last, runId, end)
      invariant (last == loop || fresh(last)) && (last.thread == loop.thread || fresh(last.thread))
      invariant end.BatchSuspended? ==> Holds(last, runId, batch, log, start, was, Flatten(rounds[..i]), k, first)
      invariant end.BatchDone? ==>
                  && EachAnswered(last.base, last.thread.View(), last.batch)
                  && EachRanOnce(log, loop.gateway.executed, batch, loop.gateway.policy, approved)
      invariant Summed(batch, log, start, was, loop.gateway.policy, Flatten(rounds), approved, loop.gateway.executed,
                       end.BatchDone? || (end.BatchSuspended? && i == |rounds|))
    {
      FlattenSplits(rounds, i);
      last, k, first := NextProcess(last, runId, batch, log, start, was, Flatten(rounds[..i]), k, first);
      end, approved := OneRound(last, runId, rounds[i], batch, log, start, was, Flatten(rounds[..i]), k, first, Later(rounds, i));
      i := i + 1;
    }
  }

  lemma SummedUp(batch: seq<Call>, log: seq<Call>, start: nat, was: set<string>, policy: Policy, decisions: seq<Decision>,
                 approved: set<string>, now: seq<Call>, through: bool)
    requires Summed(batch, log, start, was, policy, decisions, approved, now, through)
    ensures start <= |batch| && |log| <= |now| && approved <= was + Approvals(batch, start, policy, decisions)
    ensures through ==> approved == was + Approvals(batch, start, policy, decisions)
    ensures RejectedNeverRan(batch, start, policy, decisions, now[|log|..])
  {
  }

  /** The next process takes the batch up where the last one left it. */
  method NextProcess(last: RuntimeToolLoop, runId: string, ghost batch: seq<Call>, ghost log: seq<Call>, ghost start: nat,
                     ghost was: set<string>, ghost used: seq<Decision>, ghost k: nat, ghost first: set<string>)
    returns (again: RuntimeToolLoop, ghost next: nat, ghost earlier: set<string>)
    requires Holds(last, runId, batch, log, start, was, used, k, first) && forall c :: c in batch ==> c.name in last.tools
    ensures fresh(again) && fresh(again.thread) && again.gateway == last.gateway && again.tools == last.tools
    ensures Holds(again, runId, batch, log, start, was, used, next, earlier)
  {
    hide *;
    HoldsParts(last, runId, batch, log, start, was, used, k, first);
    SuspendedMeans(last, runId);
    SuspendedLog(last, runId);
    RestOfRest(batch, k, last.done, last.batch);
    FromHereOn(batch, log, start, was, last.gateway.policy, used, k, last.logBefore, first, last.done, last.approved,
               last.gateway.executed, last.batch);
    next, earlier := k + last.done, first + last.approved;
    again := Restart(last, runId);
    HoldsAgain(again, runId, batch, log, start, was, used, next, earlier);
  }

  lemma {:induction false} FromHereOn(batch: seq<Call>, log: seq<Call>, start: nat, was: set<string>, policy: Policy,
                                      used: seq<Decision>, k: nat, mid: seq<Call>, first: set<string>, done: nat,
                                      approved: set<string>, now: seq<Call>, rest: seq<Call>)
    requires Underway(batch, log, start, was, policy, used, k, mid, first, done, approved)
    requires IsRest(batch, k, rest) && Logged(mid, now, rest, done, policy, approved)
    ensures Underway(batch, log, start, was, policy, used, k + done, now, first + approved, 0, {})
  {
    assert rest == batch[k..];
    hide *;
    UnderwayAgain(batch, log, start, was, policy, used, k, mid, first, done, approved, now);
  }

  lemma RestOfRest(batch: seq<Call>, k: nat, i: nat, rest: seq<Call>)
    requires IsRest(batch, k, rest) && i < |rest|
    ensures rest[i] in batch && IsRest(batch, k + i, rest[i..])
  {
    assert rest[i] == batch[k + i];
  }

  lemma HoldsParts(last: RuntimeToolLoop, runId: string, batch: seq<Call>, log: seq<Call>, start: nat, was: set<string>,
                   used: seq<Decision>, k: nat, first: set<string>)
    requires Holds(last, runId, batch, log, start, was, used, k, first)
    ensures last.SuspendedAt(runId) && IsRest(batch, k, last.batch)
    ensures Underway(batch, log, start, was, last.gateway.policy, used, k, last.logBefore, first, last.done, last.approved)
  {
    hide RuntimeToolLoop.SuspendedAt, Underway, IsRest;
  }

  lemma HoldsAgain(again: RuntimeToolLoop, runId: string, batch: seq<Call>, log: seq<Call>, start: nat, was: set<string>,
                   used: seq<Decision>, k: nat, first: set<string>)
    requires again.SuspendedAt(runId) && IsRest(batch, k, again.batch) && again.done == 0 && again.approved == {}
    requires Underway(batch, log, start, was, again.gateway.policy, used, k, again.logBefore, first, 0, {})
    ensures Holds(again, runId, batch, log, start, was, used, k, first)
  {
  }

  lemma SuspendedLog(loop: RuntimeToolLoop, runId: string)
    requires loop.SuspendedAt(runId)
    ensures Logged(loop.logBefore, loop.gateway.executed, loop.batch, loop.done, loop.gateway.policy, loop.approved)
  {
  }

  lemma DoneLog(loop: RuntimeToolLoop, runId: string)
    requires loop.AllAnswered(runId)
    ensures Logged(loop.logBefore, loop.gateway.executed, loop.batch, |loop.batch|, loop.gateway.policy, loop.approved)
  {
  }

  // ---- One batch after another ----

  datatype Request = Request(text: string, calls: seq<Call>)

  /** The ids of the first `n` requests. */
  function RequestedIds(requests: seq<Request>, n: nat): set<string>
    requires n <= |requests|
  {
    if n == 0 then {} else RequestedIds(requests, n - 1) + IdSet(CallIds(requests[n - 1].calls))
  }

  /** No id is used twice, in a batch or across batches. */
  predicate NewIds(requests: seq<Request>, seen: set<string>) {
    forall n :: 0 <= n < |requests| ==>
      Distinct(CallIds(requests[n].calls)) && IdSet(CallIds(requests[n].calls)) * (seen + RequestedIds(requests, n)) == {}
  }

  /**
   * The batches the model requests within one turn, each once the one before is answered. The checkpoint then holds
   * the calls of all of them.
   */
  method RunRequests(loop: RuntimeToolLoop, runId: string, requests: seq<Request>, followups: nat, resumed: bool)
    returns (end: BatchEnd, n: nat)
    requires Sound(loop.thread.View()) && loop.thread.openTurnId.Some? && NothingPending(loop.thread.View()) && loop.sessions == map[]
    requires NewIds(requests, Read(loop.thread.entries).seen)
    requires loop.CompletedBefore(runId) <= AnsweredIn(loop.thread.entries, loop.thread.openTurnId.value)
    modifies loop, loop.gateway, loop.thread
    ensures n <= |requests| && (end.BatchDone? <==> n == |requests|)
    ensures end.BatchDone? ==>
              && Sound(loop.thread.View()) && loop.thread.openTurnId.Some? && NothingPending(loop.thread.View()) && loop.sessions == map[]
              && loop.CompletedBefore(runId) == old(loop.CompletedBefore(runId)) + RequestedIds(requests, n)
    ensures end.BatchSuspended? ==> loop.SuspendedAt(runId) && loop.batch == requests[n].calls
    ensures end.BatchAborted? ==> loop.Ended()
    ensures end.BatchFailed? ==> if resumed then loop.AbortedAsItWas() && loop.done == 0 else loop.Ended()
  {
    hide Waiting, Logged, Sound, RanSafely, AnsweredIn, NothingPending, Read, NewIds, Ready;
    hide RuntimeToolLoop.SuspendedAt, RuntimeToolLoop.Ended, RuntimeToolLoop.AbortedAsItWas;
    SoundTurns(loop.thread.View());
    ghost var seen, before := Read(loop.thread.entries).seen, loop.CompletedBefore(runId);
    ReadyAtStart(loop, runId, requests);
    end, n := BatchDone, 0;
    while n < |requests|
      invariant n <= |requests| && end == BatchDone && Ready(loop, runId, requests, n, seen, before)
    {
      end := RunRequest(loop, runId, requests, n, followups, resumed, seen, before);
      if !end.BatchDone? {
        return;
      }
      n := n + 1;
    }
    ReadyAtEnd(loop, runId, requests, seen, before);
  }

  lemma {:induction false} ReadyAtStart(loop: RuntimeToolLoop, runId: string, requests: seq<Request>)
    requires Sound(loop.thread.View()) && loop.thread.openTurnId.Some? && NothingPending(loop.thread.View()) && loop.sessions == map[]
    requires loop.CompletedBefore(runId) <= AnsweredIn(loop.thread.entries, loop.thread.openTurnId.value)
    ensures Read(loop.thread.entries).Scan?
    ensures Ready(loop, runId, requests, 0, Read(loop.thread.entries).seen, loop.CompletedBefore(runId))
  {
    SoundTurns(loop.thread.View());
  }

  lemma ReadyAtEnd(loop: RuntimeToolLoop, runId: string, requests: seq<Request>, seen: set<string>, before: set<string>)
    requires Ready(loop, runId, requests, |requests|, seen, before)
    ensures Sound(loop.thread.View()) && loop.thread.openTurnId.Some? && NothingPending(loop.thread.View()) && loop.sessions == map[]
    ensures loop.CompletedBefore(runId) == before + RequestedIds(requests, |requests|)
  {
  }

  /** The first `n` requests are answered, and the next may follow. */
  ghost predicate Ready(loop: RuntimeToolLoop, runId: string, requests: seq<Request>, n: nat, seen: set<string>, before: set<string>)
    requires n <= |requests|
    reads loop, loop.thread
  {
    && Sound(loop.thread.View()) && loop.thread.openTurnId.Some? && NothingPending(loop.thread.View()) && loop.sessions == map[]
    && Read(loop.thread.entries).Scan? && Read(loop.thread.entries).seen == seen + RequestedIds(requests, n)
    && loop.CompletedBefore(runId) == before + RequestedIds(requests, n)
    && loop.CompletedBefore(runId) <= AnsweredIn(loop.thread.entries, loop.thread.openTurnId.value)
  }

  method RunRequest(loop: RuntimeToolLoop, runId: string, requests: seq<Request>, n: nat, followups: nat, resumed: bool,
                    ghost seen: set<string>, ghost before: set<string>)
    returns (end: BatchEnd)
    requires n < |requests| && Ready(loop, runId, requests, n, seen, before) && NewIds(requests, seen)
    modifies loop, loop.gateway, loop.thread
    ensures end.BatchDone? ==> Ready(loop, runId, requests, n + 1, seen, before)
    ensures end.BatchSuspended? ==> loop.SuspendedAt(runId) && loop.batch == requests[n].calls
    ensures end.BatchAborted? ==> loop.Ended()
    ensures end.BatchFailed? ==> if resumed then loop.AbortedAsItWas() && loop.done == 0 else loop.Ended()
  {
    hide Waiting, Logged, Sound, RanSafely, CallIds, Distinct, IdSet, AnsweredIn, IdsOf, NothingPending, Read, AppendAssistant;
    hide RuntimeToolLoop.SuspendedAt, RuntimeToolLoop.AllAnswered, RuntimeToolLoop.Ended, RuntimeToolLoop.AbortedAsItWas;
    end := loop.RunCalls(runId, requests[n].text, requests[n].calls, n + 1, followups, resumed);
    if end.BatchDone? {
      AnsweredBatch(loop, runId);
    }
  }

  lemma {:induction false} AnsweredBatch(loop: RuntimeToolLoop, runId: string)
    requires loop.AllAnswered(runId)
    ensures Sound(loop.thread.View()) && loop.thread.openTurnId.Some? && NothingPending(loop.thread.View()) && loop.sessions == map[]
    ensures loop.CompletedBefore(runId) == loop.prior + IdSet(CallIds(loop.batch))
    ensures loop.CompletedBefore(runId) <= AnsweredIn(loop.thread.entries, loop.thread.openTurnId.value)
    ensures Read(loop.thread.entries).Scan? && Read(loop.base.entries).Scan?
    ensures Read(loop.thread.entries).seen == Read(loop.base.entries).seen
  {
    SoundTurns(loop.thread.View());
    IdsOfAll(loop.batch);
  }
}
