/** A batch of tool calls across suspensions: what is done, what is pending, what has run. */
module ToolBatch {
  import opened CallGateway
  import opened Messages
  import opened ThreadModel
  import opened ThreadProtocol
  import opened ThreadRuns
  import opened Wrappers

  predicate IsResultFor(m: Message, call: Call) {
    m.ToolMessage? && m.callId == call.id && m.name == call.name
  }

  /** The messages are results of the calls, one each, in their order. */
  predicate AreResults(ms: seq<Message>, calls: seq<Call>) {
    |ms| == |calls| && forall i :: 0 <= i < |ms| ==> IsResultFor(ms[i], calls[i])
  }

  predicate ShouldRun(call: Call, policy: Policy, approved: set<string>) {
    Judge(policy, call).action.Allow? || (Judge(policy, call).action.Ask? && call.id in approved)
  }

  /** The first `n` calls as far as they run: those allowed, and those approved where approval is asked. */
  function Ran(calls: seq<Call>, n: nat, policy: Policy, approved: set<string>): seq<Call>
    requires n <= |calls|
  {
    if n == 0 then []
    else Ran(calls, n - 1, policy, approved) + if ShouldRun(calls[n - 1], policy, approved) then [calls[n - 1]] else []
  }

  lemma {:induction false} RanFrom(calls: seq<Call>, start: nat, part: seq<Call>, n: nat, policy: Policy,
                                   approved: set<string>)
    requires start + |part| <= |calls| && n <= |part| && forall i :: 0 <= i < |part| ==> part[i] == calls[start + i]
    ensures Ran(calls, start + n, policy, approved) == Ran(calls, start, policy, approved) + Ran(part, n, policy, approved)
    decreases n
  {
    if n > 0 {
      RanFrom(calls, start, part, n - 1, policy, approved);
      assert part[n - 1] == calls[start + n - 1];
    }
  }

  lemma {:induction false} AllowedAllRun(calls: seq<Call>, n: nat, policy: Policy, approved: set<string>)
    requires n <= |calls| && AllAllowed(calls, policy)
    ensures Ran(calls, n, policy, approved) == calls[..n]
    decreases n
  {
    if n > 0 {
      AllowedAllRun(calls, n - 1, policy, approved);
      assert calls[..n] == calls[..n - 1] + [calls[n - 1]];
    }
  }

  /** Approving a call does not change what ran before it. */
  lemma {:induction false} LaterApproval(calls: seq<Call>, n: nat, policy: Policy, approved: set<string>, id: string)
    requires n <= |calls| && forall i :: 0 <= i < n ==> calls[i].id != id
    ensures Ran(calls, n, policy, approved + {id}) == Ran(calls, n, policy, approved)
    decreases n
  {
    if n > 0 { LaterApproval(calls, n - 1, policy, approved, id); }
  }

  // ---- The thread while a batch is worked off ----

  /** `t` is `base` with the results of the first `done` calls of the batch at the end. */
  ghost predicate Appended(base: Thread, t: Thread, batch: seq<Call>, done: nat) {
    && done <= |batch| && |t.entries| == |base.entries| + done
    && t.open == base.open && t.turns == base.turns && t.iteration == base.iteration
    && (forall i :: 0 <= i < |base.entries| ==> t.entries[i] == base.entries[i])
    && (forall i :: 0 <= i < done ==>
          IsResultFor(t.entries[|base.entries| + i].message, batch[i]) && Some(t.entries[|base.entries| + i].turn) == t.open)
  }

  /** A sound thread whose open turn waits for exactly the calls from `done` on. */
  ghost predicate Waiting(base: Thread, t: Thread, batch: seq<Call>, done: nat) {
    && Sound(t) && t.open.Some? && Distinct(CallIds(batch)) && Appended(base, t, batch, done)
    && Read(t.entries).pending == IdSet(CallIds(batch[done..])) && Read(base.entries).Scan?
    && Read(t.entries).seen == Read(base.entries).seen
  }

  lemma {:induction false} WaitingIsSound(base: Thread, t: Thread, batch: seq<Call>, done: nat)
    requires Waiting(base, t, batch, done)
    ensures Sound(t) && t.open.Some? && base.open == t.open && |t.entries| == |base.entries| + done
    ensures Distinct(CallIds(batch)) && done <= |batch|
  {
  }

  lemma {:induction false} RequestWaits(t: Thread, content: string, calls: seq<Call>, factor: real)
    requires Sound(t) && t.open.Some? && NothingPending(t)
    requires Distinct(CallIds(calls)) && IdSet(CallIds(calls)) * Read(t.entries).seen == {}
    ensures var u := AppendAssistant(t, content, calls, factor);
            && Waiting(u, u, calls, 0) && u.open == t.open
            && Read(u.entries).Scan? && Read(u.entries).seen == Read(t.entries).seen + IdSet(CallIds(calls))
  {
    AssistantKeepsSoundExactly(t, content, calls, factor);
    assert calls[0..] == calls;
  }

  /** The next result may be appended and settles its call. */
  lemma {:induction false} ResultAdvances(base: Thread, t: Thread, batch: seq<Call>, done: nat, content: string, summary: Option<string>,
                       iteration: Option<int>, factor: real)
    requires Waiting(base, t, batch, done) && done < |batch|
    ensures var u := AppendToolResult(t, batch[done].id, batch[done].name, content, summary, iteration, factor);
            Waiting(base, u, batch, done + 1)
  {
    hide Sound, IdSet, CallIds, Distinct, Read, Appended, AppendToolResult;
    NextIds(batch, done);
    ResultKeepsSoundExactly(t, batch[done].id, batch[done].name, content, summary, iteration, factor);
    AppendedAdvances(base, t, batch, done, content, summary, iteration, factor);
  }

  lemma {:induction false} AppendedAdvances(base: Thread, t: Thread, batch: seq<Call>, done: nat, content: string, summary: Option<string>,
                       iteration: Option<int>, factor: real)
    requires Appended(base, t, batch, done) && done < |batch| && t.open.Some?
    ensures var u := AppendToolResult(t, batch[done].id, batch[done].name, content, summary, iteration, factor);
            Appended(base, u, batch, done + 1) && u.open == t.open
  {
    var u := AppendToolResult(t, batch[done].id, batch[done].name, content, summary, iteration, factor);
    assert u.entries == t.entries + [u.entries[|t.entries|]];
    forall i | 0 <= i < done + 1
      ensures IsResultFor(u.entries[|base.entries| + i].message, batch[i]) && Some(u.entries[|base.entries| + i].turn) == u.open
    {
      if i < done { assert IsResultFor(t.entries[|base.entries| + i].message, batch[i]); }
    }
  }

  lemma {:induction false} NextIds(batch: seq<Call>, done: nat)
    requires done < |batch| && Distinct(CallIds(batch))
    ensures batch[done].id in IdSet(CallIds(batch[done..]))
    ensures IdSet(CallIds(batch[done + 1..])) == IdSet(CallIds(batch[done..])) - {batch[done].id}
  {
    var id, next := batch[done].id, CallIds(batch[done + 1..]);
    assert CallIds(batch[done..]) == [id] + next;
    assert CallIds(batch)[done + 1..] == next;
    DistinctTail(CallIds(batch), done);
    IdSetCons(id, next);
  }

  lemma {:induction false} IdSetCons(id: string, ids: seq<string>)
    ensures IdSet([id] + ids) == {id} + IdSet(ids)
  {
    var all := [id] + ids;
    assert all[0] == id;
    assert forall i :: 0 <= i < |ids| ==> all[i + 1] == ids[i];
  }

  lemma {:induction false} DistinctTail(ids: seq<string>, k: nat)
    requires Distinct(ids) && k < |ids|
    ensures ids[k] !in IdSet(ids[k + 1..])
  {
    var tail := ids[k + 1..];
    assert forall i :: 0 <= i < |tail| ==> tail[i] == ids[k + 1 + i];
  }

  /** Nothing is left to answer once the batch is through. */
  lemma {:induction false} NothingLeft(base: Thread, t: Thread, batch: seq<Call>)
    requires Waiting(base, t, batch, |batch|)
    ensures NothingPending(t)
  {
    assert batch[|batch|..] == [] && CallIds([]) == [] && IdSet([]) == {};
  }

  /** Something is left to answer before. */
  lemma {:induction false} PendingExactly(base: Thread, t: Thread, batch: seq<Call>, done: nat)
    requires Waiting(base, t, batch, done) && done <= |batch|
    ensures NothingPending(t) <==> done == |batch|
  {
    if done == |batch| {
      NothingLeft(base, t, batch);
    } else {
      NextIds(batch, done);
    }
  }

  // ---- No call runs twice ----

  /** Whatever was logged since was allowed, or approved where approval is asked. */
  predicate OnlyDue(before: seq<Call>, now: seq<Call>, policy: Policy, approved: set<string>) {
    |before| <= |now| && forall i :: |before| <= i < |now| ==> ShouldRun(now[i], policy, approved)
  }

  /** What was logged since the batch began is made of its calls, each at most as often as requested, and due. */
  ghost predicate RanSafely(before: seq<Call>, now: seq<Call>, batch: seq<Call>, policy: Policy, approved: set<string>) {
    && |before| <= |now| && now[..|before|] == before && PickedFrom(now[|before|..], batch)
    && OnlyDue(before, now, policy, approved)
  }

  lemma {:induction false} RanIsDue(calls: seq<Call>, n: nat, policy: Policy, approved: set<string>)
    requires n <= |calls|
    ensures OnlyDue([], Ran(calls, n, policy, approved), policy, approved)
    decreases n
  {
    if n > 0 { RanIsDue(calls, n - 1, policy, approved); }
  }

  lemma {:induction false} RanIsPicked(calls: seq<Call>, n: nat, policy: Policy, approved: set<string>)
    requires n <= |calls|
    ensures PickedFrom(Ran(calls, n, policy, approved), calls[..n])
    decreases n
  {
    if n > 0 {
      RanIsPicked(calls, n - 1, policy, approved);
      var rest, c := Ran(calls, n - 1, policy, approved), calls[n - 1];
      assert calls[..n] == calls[..n - 1] + [c] && rest + [] == rest;
      PickedInParts(rest, [c], calls[..n - 1], [c]);
      PickedInParts(rest, [], calls[..n - 1], [c]);
    }
  }

  /** With distinct ids that means: no call ran twice. */
  lemma {:induction false} PickedAreDistinct(s: seq<Call>, batch: seq<Call>)
    requires PickedFrom(s, batch) && Distinct(CallIds(batch))
    ensures forall i, j :: 0 <= i < j < |s| ==> s[i] != s[j]
  {
    forall i, j | 0 <= i < j < |s| ensures s[i] != s[j] {
      AtMostOnce(batch, s[j]);
      assert s == s[..j] + [s[j]] + s[j + 1..];
      TimesInParts(s[..j] + [s[j]], s[j + 1..], s[j]);
      TimesInParts(s[..j], [s[j]], s[j]);
      assert [s[j]][..0] == [] && Times([s[j]], s[j]) == 1;
      if s[i] == s[j] { Occurs(s[..j], i); }
    }
  }

  lemma {:induction false} Occurs(s: seq<Call>, i: nat)
    requires i < |s|
    ensures Times(s, s[i]) >= 1
    decreases |s|
  {
    if i < |s| - 1 { Occurs(s[..|s| - 1], i); }
  }

  lemma {:induction false} AtMostOnce(batch: seq<Call>, c: Call)
    requires Distinct(CallIds(batch))
    ensures Times(batch, c) <= 1
    decreases |batch|
  {
    if |batch| > 0 {
      var n := |batch| - 1;
      assert CallIds(batch[..n]) == CallIds(batch)[..n];
      AtMostOnce(batch[..n], c);
      if batch[n] == c { Unknown(batch[..n], c); }
    }
  }

  lemma {:induction false} Unknown(batch: seq<Call>, c: Call)
    requires forall i :: 0 <= i < |batch| ==> batch[i].id != c.id
    ensures Times(batch, c) == 0
    decreases |batch|
  {
    if |batch| > 0 { Unknown(batch[..|batch| - 1], c); }
  }

  // ---- Working off a queue ----

  predicate NoneAsked(calls: seq<Call>, policy: Policy) {
    forall i :: 0 <= i < |calls| ==> !Judge(policy, calls[i]).action.Ask?
  }

  /** The messages answer a prefix of the calls, none of which needed approval; the rest is in the queue. */
  predicate UpTo(calls: seq<Call>, messages: seq<Message>, queue: seq<Call>, policy: Policy) {
    && |messages| <= |calls| && queue == calls[|messages|..]
    && AreResults(messages, calls[..|messages|]) && NoneAsked(calls[..|messages|], policy)
  }

  /** The ids of the first `n` calls. */
  function IdsOf(calls: seq<Call>, n: nat): set<string>
    requires n <= |calls|
  {
    if n == 0 then {} else IdsOf(calls, n - 1) + {calls[n - 1].id}
  }

  lemma {:induction false} IdsFrom(calls: seq<Call>, start: nat, part: seq<Call>, n: nat)
    requires start + |part| <= |calls| && n <= |part| && forall i :: 0 <= i < |part| ==> part[i] == calls[start + i]
    ensures IdsOf(calls, start + n) == IdsOf(calls, start) + IdsOf(part, n)
    decreases n
  {
    if n > 0 {
      IdsFrom(calls, start, part, n - 1);
      assert part[n - 1] == calls[start + n - 1];
    }
  }

  lemma {:induction false} IdsOfAre(calls: seq<Call>, n: nat, id: string)
    requires n <= |calls|
    ensures id in IdsOf(calls, n) <==> exists i :: 0 <= i < n && calls[i].id == id
    decreases n
  {
    if n > 0 { IdsOfAre(calls, n - 1, id); }
  }

  /** What ran after the first `n` calls. */
  ghost predicate RanThrough(calls: seq<Call>, n: nat, policy: Policy, ran: seq<Call>) {
    n <= |calls| && ran == Ran(calls, n, policy, {})
  }

  /** What is answered after the first `n` calls. */
  ghost predicate IdsThrough(calls: seq<Call>, n: nat, ids: set<string>) {
    n <= |calls| && ids == IdsOf(calls, n)
  }

  lemma {:induction false} StartOfBatch(calls: seq<Call>, policy: Policy)
    ensures UpTo(calls, [], calls, policy) && RanThrough(calls, 0, policy, []) && IdsThrough(calls, 0, {})
  {
    assert calls[0..] == calls;
  }

  lemma NothingPicked(calls: seq<Call>)
    ensures PickedFrom([], calls)
  {
  }

  lemma {:induction false} Advance(calls: seq<Call>, messages: seq<Message>, queue: seq<Call>, policy: Policy,
                group: seq<Call>, made: seq<Message>, rest: seq<Call>)
    requires UpTo(calls, messages, queue, policy) && queue == group + rest
    requires AreResults(made, group) && NoneAsked(group, policy)
    ensures UpTo(calls, messages + made, rest, policy)
    ensures |messages| + |group| <= |calls| && calls[|messages|..|messages| + |group|] == group
  {
    var n := |messages|;
    assert calls[n..n + |group|] == group;
    assert forall i :: 0 <= i < |group| ==> calls[n + i] == queue[i] == group[i];
    assert calls[n + |group|..] == rest;
  }

  lemma {:induction false} AdvanceRan(calls: seq<Call>, n: nat, group: seq<Call>, policy: Policy, ran: seq<Call>)
    requires RanThrough(calls, n, policy, ran) && n + |group| <= |calls| && calls[n..n + |group|] == group
    ensures RanThrough(calls, n + |group|, policy, ran + Ran(group, |group|, policy, {}))
  {
    RanFrom(calls, n, group, |group|, policy, {});
  }

  lemma {:induction false} AdvanceIds(calls: seq<Call>, n: nat, group: seq<Call>, ids: set<string>)
    requires IdsThrough(calls, n, ids) && n + |group| <= |calls| && calls[n..n + |group|] == group
    ensures IdsThrough(calls, n + |group|, ids + IdsOf(group, |group|))
  {
    IdsFrom(calls, n, group, |group|);
  }

  /** One more group of the queue is done. */
  lemma {:induction false} Round(calls: seq<Call>, messages: seq<Message>, queue: seq<Call>, policy: Policy,
                                 group: seq<Call>, made: seq<Message>, rest: seq<Call>, ran: seq<Call>, ids: set<string>)
    requires UpTo(calls, messages, queue, policy) && queue == group + rest
    requires RanThrough(calls, |messages|, policy, ran) && IdsThrough(calls, |messages|, ids)
    requires AreResults(made, group) && NoneAsked(group, policy)
    ensures UpTo(calls, messages + made, rest, policy)
    ensures RanThrough(calls, |messages + made|, policy, ran + Ran(group, |group|, policy, {}))
    ensures IdsThrough(calls, |messages + made|, ids + IdsOf(group, |group|))
  {
    Advance(calls, messages, queue, policy, group, made, rest);
    AdvanceRan(calls, |messages|, group, policy, ran);
    AdvanceIds(calls, |messages|, group, ids);
  }

  /** Where no approval is asked, approvals do not matter. */
  lemma {:induction false} NoneAskedRun(calls: seq<Call>, n: nat, policy: Policy, approved: set<string>)
    requires n <= |calls| && NoneAsked(calls[..n], policy)
    ensures Ran(calls, n, policy, approved) == Ran(calls, n, policy, {})
    decreases n
  {
    if n > 0 {
      assert forall i :: 0 <= i < n ==> calls[..n][i] == calls[i];
      NoneAskedRun(calls, n - 1, policy, approved);
    }
  }

  // ---- Progress of a whole batch ----

  /** The log since the batch began: what ran among the first `done` calls, and nothing else. */
  ghost predicate Logged(before: seq<Call>, now: seq<Call>, batch: seq<Call>, done: nat, policy: Policy,
                         approved: set<string>) {
    && done <= |batch| && now == before + Ran(batch, done, policy, approved)
    && approved <= IdsOf(batch, done)
  }

  lemma NothingLogged(log: seq<Call>, batch: seq<Call>, policy: Policy)
    ensures Logged(log, log, batch, 0, policy, {})
  {
    assert log + [] == log;
  }

  /** Only the approvals of the calls at hand matter. */
  lemma {:induction false} RanAgrees(calls: seq<Call>, n: nat, policy: Policy, a: set<string>, b: set<string>)
    requires n <= |calls| && forall i :: 0 <= i < n ==> (calls[i].id in a <==> calls[i].id in b)
    ensures Ran(calls, n, policy, a) == Ran(calls, n, policy, b)
    decreases n
  {
    if n > 0 { RanAgrees(calls, n - 1, policy, a, b); }
  }

  /** The log of a batch is that of its first calls followed by that of the rest as a batch of its own. */
  lemma {:induction false} LoggedAcross(before: seq<Call>, mid: seq<Call>, now: seq<Call>, batch: seq<Call>, k: nat, n: nat,
                                        policy: Policy, first: set<string>, later: set<string>)
    requires Logged(before, mid, batch, k, policy, first) && Logged(mid, now, batch[k..], n, policy, later)
    requires Distinct(CallIds(batch))
    ensures Logged(before, now, batch, k + n, policy, first + later)
  {
    var part := batch[k..];
    forall i | 0 <= i < |batch| ensures i < k ==> batch[i].id !in later
                                ensures i >= k ==> batch[i].id !in first
    {
      IdsOfAre(batch, k, batch[i].id);
      IdsOfAre(part, n, batch[i].id);
      assert forall j :: 0 <= j < |batch| ==> CallIds(batch)[j] == batch[j].id;
      assert forall j :: 0 <= j < n ==> part[j] == batch[k + j];
    }
    RanAgrees(batch, k, policy, first, first + later);
    RanAgrees(part, n, policy, later, first + later);
    RanFrom(batch, k, part, n, policy, first + later);
    IdsFrom(batch, k, part, n);
    assert now == before + (Ran(batch, k, policy, first) + Ran(part, n, policy, later));
  }

  lemma {:induction false} IdsOfAll(batch: seq<Call>)
    ensures IdsOf(batch, |batch|) == IdSet(CallIds(batch))
  {
    forall id ensures id in IdsOf(batch, |batch|) <==> id in IdSet(CallIds(batch)) {
      IdsOfAre(batch, |batch|, id);
      if i :| 0 <= i < |batch| && batch[i].id == id { assert CallIds(batch)[i] == id; }
      if i :| 0 <= i < |CallIds(batch)| && CallIds(batch)[i] == id { assert batch[i].id == id; }
    }
  }

  /** A further stretch of calls, none of which asked for approval, has been worked off. */
  lemma {:induction false} StretchLogged(before: seq<Call>, now: seq<Call>, batch: seq<Call>, done: nat, policy: Policy,
                      approved: set<string>, calls: seq<Call>, n: nat, ran: seq<Call>)
    requires Logged(before, now, batch, done, policy, approved) && done <= |batch| && calls == batch[done..]
    requires RanThrough(calls, n, policy, ran) && n <= |calls| && NoneAsked(calls[..n], policy)
    ensures Logged(before, now + ran, batch, done + n, policy, approved)
  {
    RanFrom(batch, done, calls, n, policy, approved);
    NoneAskedRun(calls, n, policy, approved);
    IdsFrom(batch, done, calls, n);
    assert before + Ran(batch, done, policy, approved) + Ran(calls, n, policy, {})
        == before + (Ran(batch, done, policy, approved) + Ran(calls, n, policy, {}));
  }

  /** The pending call has been decided: it ran if it was approved. */
  lemma {:induction false} DecisionLogged(before: seq<Call>, now: seq<Call>, batch: seq<Call>, done: nat, policy: Policy,
                       approved: set<string>, approve: bool)
    requires Logged(before, now, batch, done, policy, approved) && done < |batch| && Distinct(CallIds(batch))
    requires Judge(policy, batch[done]).action.Ask?
    ensures var c := batch[done];
            Logged(before, if approve then now + [c] else now, batch, done + 1, policy, if approve then approved + {c.id} else approved)
  {
    var c := batch[done];
    NotAmongEarlier(batch, done);
    if approve {
      LaterApproval(batch, done, policy, approved, c.id);
      assert before + Ran(batch, done, policy, approved) + [c] == before + (Ran(batch, done, policy, approved) + [c]);
    } else {
      assert Ran(batch, done, policy, approved) + [] == Ran(batch, done, policy, approved);
    }
  }

  lemma {:induction false} NotAmongEarlier(batch: seq<Call>, done: nat)
    requires done < |batch| && Distinct(CallIds(batch))
    ensures batch[done].id !in IdsOf(batch, done)
    ensures forall i :: 0 <= i < done ==> batch[i].id != batch[done].id
  {
    assert forall i :: 0 <= i <= done ==> CallIds(batch)[i] == batch[i].id;
    IdsOfAre(batch, done, batch[done].id);
  }

  /** Even when an error lost some results, no call of the batch ran twice, and none that was not due. */
  lemma {:induction false} LoggedOnce(before: seq<Call>, now: seq<Call>, batch: seq<Call>, done: nat, policy: Policy,
                   approved: set<string>, extra: seq<Call>)
    requires Logged(before, now, batch, done, policy, approved)
    requires PickedFrom(extra, batch[done..]) && AllAllowed(extra, policy)
    ensures RanSafely(before, now + extra, batch, policy, approved)
  {
    RanIsPicked(batch, done, policy, approved);
    PickedInParts(Ran(batch, done, policy, approved), extra, batch[..done], batch[done..]);
    assert batch[..done] + batch[done..] == batch;
    assert (now + extra)[|before|..] == Ran(batch, done, policy, approved) + extra;
    RanIsDue(batch, done, policy, approved);
    assert OnlyDue(before, now + extra, policy, approved) by {
      hide Ran, ShouldRun;
      forall i | |before| <= i < |now + extra| ensures ShouldRun((now + extra)[i], policy, approved) {
        if i < |now| {
          assert now[i] == Ran(batch, done, policy, approved)[i - |before|];
        } else {
          AllowedIsDue(extra, i - |now|, policy, approved);
        }
      }
    }
  }

  lemma AllowedIsDue(calls: seq<Call>, i: nat, policy: Policy, approved: set<string>)
    requires AllAllowed(calls, policy) && i < |calls|
    ensures ShouldRun(calls[i], policy, approved)
  {
  }

  /** What was answered before the batch and by its first `done` results has its result in the open turn. */
  lemma {:induction false} AnsweredSince(base: Thread, t: Thread, batch: seq<Call>, done: nat, prior: set<string>)
    requires Waiting(base, t, batch, done) && prior <= AnsweredIn(base.entries, base.open.value)
    ensures prior + IdsOf(batch, done) <= AnsweredIn(t.entries, t.open.value)
  {
    hide AnsweredIn, IdsOf, Sound, Read, IdSet, CallIds, Distinct, Appended;
    ResultsAreAnswers(base, t, batch, done);
  }

  lemma {:induction false} ResultsAreAnswers(base: Thread, t: Thread, batch: seq<Call>, done: nat)
    requires Appended(base, t, batch, done) && t.open.Some?
    ensures AnsweredIn(base.entries, t.open.value) + IdsOf(batch, done) <= AnsweredIn(t.entries, t.open.value)
    ensures base.open == t.open
  {
    var open := t.open.value;
    forall id | id in AnsweredIn(base.entries, open) ensures id in AnsweredIn(t.entries, open) {
      var i :| 0 <= i < |base.entries| && base.entries[i].turn == open && base.entries[i].message.ToolMessage? && base.entries[i].message.callId == id;
      assert t.entries[i] == base.entries[i];
    }
    forall id | id in IdsOf(batch, done) ensures id in AnsweredIn(t.entries, open) {
      IdsOfAre(batch, done, id);
      var i :| 0 <= i < done && batch[i].id == id;
      assert IsResultFor(t.entries[|base.entries| + i].message, batch[i]);
      assert t.entries[|base.entries| + i].turn == open;
    }
  }
}
