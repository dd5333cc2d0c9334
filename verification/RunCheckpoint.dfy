/** A checkpoint of a run that waits for approval, and why it can be taken up again after a restart. */
module RunCheckpoint {
  import opened CallGateway
  import opened ConversationThread
  import opened Messages
  import opened RuntimeToolLoop
  import opened ThreadModel
  import opened ThreadProtocol
  import opened ThreadRuns
  import opened ThreadState
  import opened TokenEstimator
  import opened ToolBatch
  import opened Wrappers

  predicate Requests(e: Entry, id: string) {
    e.message.ChatMessage? && e.message.role.Assistant? && id in CallIds(e.message.calls)
  }

  /** Some assistant entry of the turn asks for the call. */
  predicate IsRequested(es: seq<Entry>, turn: TurnId, id: string) {
    exists i :: 0 <= i < |es| && es[i].turn == turn && Requests(es[i], id)
  }

  /** The checkpoint fits the thread, and its pending call still needs the same approval. */
  predicate Resumable(c: Checkpoint, t: Thread, tools: map<string, ToolInfo>, policy: Policy) {
    && c.status.AwaitingApproval? && c.pending.Some? && c.risk.Some? && t.open.Some?
    && IsRequested(t.entries, t.open.value, c.pending.value.id)
    && c.pending.value.id !in AnsweredIn(t.entries, t.open.value)
    && c.completed <= AnsweredIn(t.entries, t.open.value)
    && c.pending.value.name in tools
    && Judge(policy, c.pending.value) == Inspection(c.risk.value, Ask)
  }

  function SessionOf(c: Checkpoint): Session
    requires c.pending.Some?
  {
    Session(c.runId, c.pending.value, c.remaining, c.iteration, c.followups, c.completed)
  }

  /** A sound thread whose open turn waits for exactly these calls. */
  ghost predicate AwaitsCalls(t: Thread, calls: seq<Call>) {
    && Sound(t) && t.open.Some? && Distinct(CallIds(calls)) && Read(t.entries).Scan?
    && Read(t.entries).pending == IdSet(CallIds(calls))
  }

  /**
   * Takes up an awaiting run, or drops one that was running. What the checkpoint leaves to do becomes the batch at
   * hand; where the thread waits for exactly that, the run can be resumed.
   */
  method RestoreRunCheckpoint(loop: RuntimeToolLoop, saved: Option<Checkpoint>) returns (ok: bool)
    modifies loop
    ensures ok <==> saved.None? || saved.value.status.Running? || Resumable(saved.value, loop.thread.View(), loop.tools, loop.gateway.policy)
    ensures if ok && saved.Some? && saved.value.status.AwaitingApproval?
            then loop.sessions == map[saved.value.runId := SessionOf(saved.value)] && loop.checkpoint == saved
            else loop.sessions == map[] && loop.checkpoint.None?
    ensures ok && saved.Some? && saved.value.status.AwaitingApproval? ==>
              && loop.batch == CallsLeft(saved.value) && loop.done == 0 && loop.approved == {}
              && loop.base == loop.thread.View() && loop.logBefore == loop.gateway.executed
              && (AwaitsCalls(loop.thread.View(), CallsLeft(saved.value)) ==> loop.SuspendedAt(saved.value.runId))
  {
    hide Resumable, AwaitsCalls;
    loop.sessions, loop.checkpoint := map[], None;
    if saved.None? {
      return true;
    }
    var c := saved.value;
    if c.status.Running? {
      return true;
    }
    ok := CanResume(loop, c);
    if ok {
      PendingThen(c, loop.thread.View(), loop.tools, loop.gateway.policy);
      TakeUp(loop, c);
    }
  }

  method CanResume(loop: RuntimeToolLoop, c: Checkpoint) returns (ok: bool)
    requires c.status.AwaitingApproval?
    ensures ok <==> Resumable(c, loop.thread.View(), loop.tools, loop.gateway.policy)
  {
    hide AnsweredIn, IsRequested;
    if c.pending.None? || c.risk.None? || loop.thread.openTurnId.None? {
      return false;
    }
    var open := loop.thread.openTurnId.value;
    var completed := loop.thread.ResultIds(open);
    if !IsRequested(loop.thread.entries, open, c.pending.value.id) || c.pending.value.id in completed || !(c.completed <= completed) {
      return false;
    }
    if c.pending.value.name !in loop.tools {
      return false;
    }
    var inspection := Judge(loop.gateway.policy, c.pending.value);
    return inspection.risk == c.risk.value && inspection.action.Ask?;
  }

  lemma PendingThen(c: Checkpoint, t: Thread, tools: map<string, ToolInfo>, policy: Policy)
    requires Resumable(c, t, tools, policy)
    ensures c.pending.Some?
  {
  }

  method TakeUp(loop: RuntimeToolLoop, c: Checkpoint)
    requires c.pending.Some? && Resumable(c, loop.thread.View(), loop.tools, loop.gateway.policy)
    modifies loop
    ensures loop.sessions == map[c.runId := SessionOf(c)] && loop.checkpoint == Some(c)
    ensures loop.batch == CallsLeft(c) && loop.done == 0 && loop.approved == {}
    ensures loop.base == loop.thread.View() && loop.logBefore == loop.gateway.executed
    ensures AwaitsCalls(loop.thread.View(), CallsLeft(c)) ==> loop.SuspendedAt(c.runId)
  {
    hide Resumable, AwaitsCalls;
    hide RuntimeToolLoop.SuspendedAt;
    loop.sessions, loop.checkpoint := map[c.runId := SessionOf(c)], Some(c);
    loop.batch, loop.done, loop.approved, loop.prior := CallsLeft(c), 0, {}, c.completed;
    loop.base, loop.logBefore := loop.thread.View(), loop.gateway.executed;
    if AwaitsCalls(loop.thread.View(), CallsLeft(c)) {
      TakenUp(loop, c);
    }
  }

  function CallsLeft(c: Checkpoint): (r: seq<Call>)
    requires c.pending.Some?
    ensures |r| == 1 + |c.remaining| && r[0] == c.pending.value && r[1..] == c.remaining
  {
    [c.pending.value] + c.remaining
  }

  lemma {:induction false} TakenUp(loop: RuntimeToolLoop, c: Checkpoint)
    requires Resumable(c, loop.thread.View(), loop.tools, loop.gateway.policy)
    requires loop.sessions == map[c.runId := SessionOf(c)] && loop.checkpoint == Some(c)
    requires loop.batch == CallsLeft(c) && loop.done == 0 && loop.approved == {} && loop.prior == c.completed
    requires loop.base == loop.thread.View() && loop.logBefore == loop.gateway.executed
    requires AwaitsCalls(loop.thread.View(), CallsLeft(c))
    ensures loop.SuspendedAt(c.runId)
  {
    NothingLogged(loop.gateway.executed, loop.batch, loop.gateway.policy);
    assert loop.batch[0..] == loop.batch;
    assert loop.Tracked();
    assert loop.SessionHolds(c.runId, 0);
  }

  // ---- A suspended run survives a restart ----

  /** The pending call is requested in the open turn and has no result there. */
  lemma {:induction false} PendingIsOpen(base: Thread, t: Thread, batch: seq<Call>, done: nat)
    requires Waiting(base, t, batch, done) && done < |batch|
    ensures IsRequested(t.entries, t.open.value, batch[done].id)
    ensures batch[done].id !in AnsweredIn(t.entries, t.open.value)
  {
    var id, xs := batch[done].id, Shapes(t.entries);
    NextIds(batch, done);
    var a := PendingWasRequested(xs, id);
    assert ShapeOf(t.entries[a]).requests != [];
    assert EntryOk(t, t.entries[a]) && CallIds([]) == [];
    assert Requests(t.entries[a], id);
    SettledOfOpen(t);
  }

  lemma {:induction false} SettledOfOpen(t: Thread)
    requires Sound(t) && t.open.Some? && Read(t.entries).turn == t.open
    ensures AnsweredIn(t.entries, t.open.value) !! Read(t.entries).pending
  {
    var xs := Shapes(t.entries);
    forall k: nat | k < |xs| ensures JoinedShapes(xs, k) {
      assert Joined(t.entries, k);
    }
    AnsweredIsSettled(xs, t.open.value);
    CallsAreAssistants(t);
    DroppedShapes(t.entries, t.open.value, 1.0);
  }

  /** In a copy the open turn has the same entries. */
  lemma {:induction false} SameOpenEntries(t: Thread, u: Thread, base: nat, i: nat)
    requires DistinctTurns(t.turns) && IsCopy(t, u, base, true) && OpenCopied(t, u) && t.open.Some? && i < |t.entries|
    ensures u.open.Some? && i < |u.entries| && u.entries[i].message == t.entries[i].message
    ensures u.entries[i].turn == u.open.value <==> t.entries[i].turn == t.open.value
  {
    assert CopiedEntry(t.entries, t.turns, u.entries, u.turns, i);
    var k: nat :| SameTurnAt(t.entries, t.turns, u.entries, u.turns, i, k);
    var j: nat :| OpenAt(t, u, j);
    DistinctTurnsAt(t.turns, k, j);
  }

  lemma {:induction false} SameAnswers(t: Thread, u: Thread, base: nat)
    requires DistinctTurns(t.turns) && IsCopy(t, u, base, true) && OpenCopied(t, u) && t.open.Some?
    ensures u.open.Some? && AnsweredIn(u.entries, u.open.value) == AnsweredIn(t.entries, t.open.value)
  {
    var j: nat :| OpenAt(t, u, j);
    forall id ensures id in AnsweredIn(u.entries, u.open.value) <==> id in AnsweredIn(t.entries, t.open.value) {
      if id in AnsweredIn(u.entries, u.open.value) {
        var i :| 0 <= i < |u.entries| && u.entries[i].turn == u.open.value && u.entries[i].message.ToolMessage? && u.entries[i].message.callId == id;
        SameOpenEntries(t, u, base, i);
      }
      if id in AnsweredIn(t.entries, t.open.value) {
        var i :| 0 <= i < |t.entries| && t.entries[i].turn == t.open.value && t.entries[i].message.ToolMessage? && t.entries[i].message.callId == id;
        SameOpenEntries(t, u, base, i);
      }
    }
  }

  /**
   * The checkpoint of a suspended batch fits the thread restored with its open turn, the session taken from it is the
   * suspended one, and the restored thread waits for exactly the same calls.
   */
  lemma {:induction false} SuspendedRunSurvives(base: Thread, t: Thread, batch: seq<Call>, done: nat, prior: set<string>, s: Session,
                                                tools: map<string, ToolInfo>, policy: Policy, r: Thread, factor: real)
    requires Waiting(base, t, batch, done) && done < |batch| && prior <= AnsweredIn(base.entries, base.open.value)
    requires s.call == batch[done] && s.remaining == batch[done + 1..] && s.completed == prior + IdsOf(batch, done)
    requires Judge(policy, s.call).action.Ask? && s.call.name in tools
    ensures Accepts(Export(t))
    ensures var u, c := Restore(r, Export(t), true, factor), AwaitingCheckpoint(s, Judge(policy, s.call).risk);
            && AwaitsCalls(u, [s.call] + s.remaining)
            && Resumable(c, u, tools, policy) && SessionOf(c) == s
  {
    hide Waiting, Sound, Accepts, IsCopy, OpenCopied, IdsOf, Distinct, IdSet, CallIds, AnsweredIn, Export, Restore, Read;
    WaitingIsSound(base, t, batch, done);
    RestoringContinuesTheTurn(r, t, factor);
    var u := Restore(r, Export(t), true, factor);
    SoundTurns(t);
    SoundTurns(u);
    SameAnswers(t, u, r.lastTurn);
    PendingIsOpen(base, t, batch, done);
    var i :| 0 <= i < |t.entries| && t.entries[i].turn == t.open.value && Requests(t.entries[i], s.call.id);
    SameOpenEntries(t, u, r.lastTurn, i);
    assert Requests(u.entries[i], s.call.id);
    AnsweredSince(base, t, batch, done, prior);
    PendingIs(base, t, batch, done);
    assert batch[done..] == [s.call] + s.remaining;
  }

  lemma {:induction false} PendingIs(base: Thread, t: Thread, batch: seq<Call>, done: nat)
    requires Waiting(base, t, batch, done)
    ensures Read(t.entries).Scan? && Read(t.entries).pending == IdSet(CallIds(batch[done..]))
    ensures Distinct(CallIds(batch[done..]))
  {
    var ids, left := CallIds(batch), CallIds(batch[done..]);
    assert forall i :: 0 <= i < |left| ==> left[i] == ids[done + i];
  }

  lemma {:induction false} SoundTurns(t: Thread)
    requires Sound(t)
    ensures DistinctTurns(t.turns) && Read(t.entries).Scan?
  {
  }

  /**
   * The process ends while a call waits for approval and another one starts: the thread is saved and restored with
   * its open turn, the checkpoint taken up. The run waits at the same call, with the same calls after it.
   */
  method Restart(loop: RuntimeToolLoop, runId: string) returns (again: RuntimeToolLoop)
    requires loop.SuspendedAt(runId) && loop.sessions[runId].call.name in loop.tools
    ensures fresh(again) && fresh(again.thread) && again.gateway == loop.gateway && again.tools == loop.tools
    ensures again.SuspendedAt(runId) && again.sessions == loop.sessions
    ensures again.batch == loop.batch[loop.done..] && again.done == 0 && again.approved == {}
    ensures again.base == again.thread.View() && again.logBefore == loop.gateway.executed
  {
    hide Waiting, Logged, Sound, Accepts, AwaitsCalls, Restore, Export, AnsweredIn, IsRequested, CallIds;
    ghost var was := loop.thread.View();
    var state := Export(loop.thread.View());
    var estimator := new Estimator();
    var thread := new ConversationThread(estimator);
    ghost var s := loop.sessions[runId];
    SuspendedRunSurvives(loop.base, was, loop.batch, loop.done, loop.prior, s, loop.tools, loop.gateway.policy, thread.View(), estimator.factor);
    var restored := thread.RestoreState(state, true);
    again := new RuntimeToolLoop(loop.gateway, thread, loop.tools);
    assert loop.batch[loop.done..] == [s.call] + s.remaining;
    var ok := RestoreRunCheckpoint(again, loop.checkpoint);
  }
}
