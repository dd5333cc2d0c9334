/** The runtime's tool loop: batches, suspension for approval, resumption, cancellation, checkpoints. */
module RuntimeToolLoop {
  import opened CallGateway
  import opened ConversationThread
  import opened Messages
  import opened ThreadModel
  import opened ThreadProtocol
  import opened ThreadRuns
  import opened ToolBatch
  import opened Wrappers

  const MAX_PARALLEL_READ_TOOLS := 4

  datatype Session = Session(
    runId: string, call: Call, remaining: seq<Call>, iteration: int, followups: nat, completed: set<string>)

  datatype RunStatus = Running | AwaitingApproval

  datatype Checkpoint = Checkpoint(
    runId: string, status: RunStatus, iteration: int, followups: nat, completed: set<string>,
    pending: Option<Call>, remaining: seq<Call>, risk: Option<Risk>)

  datatype BatchEnd = BatchDone | BatchSuspended | BatchAborted | BatchFailed {
    /** An error ended the batch: an abort, or any other. */
    predicate Stopped() {
      BatchAborted? || BatchFailed?
    }
  }

  function RunningCheckpoint(runId: string, iteration: int, followups: nat, completed: set<string>, remaining: seq<Call>): Checkpoint {
    Checkpoint(runId, Running, iteration, followups, completed, None, remaining, None)
  }

  function AwaitingCheckpoint(s: Session, risk: Risk): Checkpoint {
    Checkpoint(s.runId, AwaitingApproval, s.iteration, s.followups, s.completed, Some(s.call), s.remaining, Some(risk))
  }

  function DeniedText(name: string): string {
    "Tool " + name + " denied by policy"
  }

  function RejectedText(name: string, reason: string): string {
    if reason == "" then "Tool " + name + " rejected by user." else "Tool " + name + " rejected by user. User feedback: " + reason
  }

  function CancelledText(name: string, reason: string): string {
    "Tool " + name + " cancelled before execution: " + reason
  }

  function ResultsOf(calls: seq<Call>, contents: seq<string>): (r: seq<Message>)
    requires |contents| == |calls|
    ensures AreResults(r, calls)
  {
    seq(|calls|, i requires 0 <= i < |calls| => ToolMessage(calls[i].id, calls[i].name, contents[i]))
  }

  class RuntimeToolLoop {
    var sessions: map<string, Session>
    var checkpoint: Option<Checkpoint>
    const gateway: Gateway
    const thread: ConversationThread
    const tools: map<string, ToolInfo>
    // The batch at hand: the thread, the log and the answered calls when it was requested, how far it got,
    // and what was approved.
    ghost var batch: seq<Call>
    ghost var base: Thread
    ghost var logBefore: seq<Call>
    ghost var done: nat
    ghost var approved: set<string>
    ghost var prior: set<string>

    /** One result per call so far, in order; exactly the due calls have run, once each. */
    ghost predicate Tracked()
      reads this, gateway, thread
    {
      && Waiting(base, thread.View(), batch, done) && prior <= AnsweredIn(base.entries, base.open.value)
      && Logged(logBefore, gateway.executed, batch, done, gateway.policy, approved)
    }

    /** The session and the checkpoint hold call `k`, which needs approval, and what comes after it. */
    ghost predicate SessionHolds(runId: string, k: nat)
      reads this`sessions, this`checkpoint, this`batch, this`prior
    {
      && k < |batch| && runId in sessions && sessions == map[runId := sessions[runId]]
      && Judge(gateway.policy, batch[k]).action.Ask?
      && var s := sessions[runId];
         && s.runId == runId && s.call == batch[k] && s.remaining == batch[k + 1..]
         && s.completed == prior + IdsOf(batch, k)
         && checkpoint == Some(AwaitingCheckpoint(s, Judge(gateway.policy, s.call).risk))
    }

    /** The next call of the batch waits for approval. */
    ghost predicate SuspendedAt(runId: string)
      reads this, gateway, thread
    {
      Tracked() && SessionHolds(runId, done)
    }

    /** All calls are answered and recorded, and the next ones of the run may be requested. */
    ghost predicate AllAnswered(runId: string)
      reads this, gateway, thread
    {
      && Tracked() && done == |batch| && sessions == map[] && NothingPending(thread.View())
      && Sound(thread.View()) && thread.openTurnId.Some?
      && CompletedBefore(runId) == prior + IdsOf(batch, done)
      && CompletedBefore(runId) <= AnsweredIn(thread.entries, thread.openTurnId.value)
      && Read(thread.entries).seen == Read(base.entries).seen
    }

    /** The turn was closed with nothing pending; no call of the batch ran twice, and none that was not due. */
    ghost predicate Ended()
      reads this, gateway, thread
    {
      && Sound(thread.View()) && thread.openTurnId.None? && NothingPending(thread.View()) && sessions == map[] && checkpoint.None?
      && RanSafely(logBefore, gateway.executed, batch, gateway.policy, approved)
    }

    /** An error came through: the turn is still open and waits for calls that no session holds any more. */
    ghost predicate LeftOpen()
      reads this, gateway, thread
    {
      && Waiting(base, thread.View(), batch, done) && sessions == map[]
      && RanSafely(logBefore, gateway.executed, batch, gateway.policy, approved)
    }

    /** The turn was closed as it was: the thread is in order exactly if every call had been answered. */
    ghost predicate AbortedAsItWas()
      reads this, gateway, thread
    {
      && thread.openTurnId.None? && sessions == map[] && checkpoint.None?
      && RanSafely(logBefore, gateway.executed, batch, gateway.policy, approved)
      && (Sound(thread.View()) <==> done == |batch|)
    }

    constructor (g: Gateway, t: ConversationThread, known: map<string, ToolInfo>)
      ensures sessions == map[] && checkpoint == None && gateway == g && thread == t && tools == known
    {
      sessions, checkpoint, gateway, thread, tools := map[], None, g, t, known;
    }

    /** Calls already answered in this run. */
    function CompletedBefore(runId: string): set<string>
      reads this`checkpoint
    {
      if checkpoint.Some? && checkpoint.value.runId == runId then checkpoint.value.completed else {}
    }

    /** Speculatively takes the reads that could run beside the first call. */
    method CollectPeers(call: Call, queue: seq<Call>) returns (group: seq<Call>, rest: seq<Call>)
      ensures [call] + queue == group + rest && 1 <= |group| <= MAX_PARALLEL_READ_TOOLS && group[0] == call
      ensures forall i :: 1 <= i < |group| ==> IsIndependentRead(tools, group[i]) && IsAllowedRead(Judge(gateway.policy, group[i]))
    {
      group, rest := [call], queue;
      while |group| < MAX_PARALLEL_READ_TOOLS && |rest| > 0
        invariant [call] + queue == group + rest && 1 <= |group| <= MAX_PARALLEL_READ_TOOLS && group[0] == call
        invariant forall i :: 1 <= i < |group| ==> IsIndependentRead(tools, group[i]) && IsAllowedRead(Judge(gateway.policy, group[i]))
        decreases |rest|
      {
        var candidate := rest[0];
        if !IsIndependentRead(tools, candidate) || !IsAllowedRead(Judge(gateway.policy, candidate)) {
          break;
        }
        group, rest := group + [candidate], rest[1..];
      }
    }

    /** What comes next: a group of allowed reads, or one call that needs the policy. */
    method NextGroup(queue: seq<Call>) returns (group: seq<Call>, rest: seq<Call>, together: bool)
      requires |queue| > 0
      ensures queue == group + rest && 1 <= |group| <= MAX_PARALLEL_READ_TOOLS
      ensures together ==> forall i :: 0 <= i < |group| ==> IsIndependentRead(tools, group[i]) && IsAllowedRead(Judge(gateway.policy, group[i]))
      ensures !together ==> |group| == 1
    {
      var call := queue[0];
      group, rest, together := [call], queue[1..], false;
      if IsIndependentRead(tools, call) {
        group, rest := CollectPeers(call, rest);
        if IsAllowedRead(Judge(gateway.policy, call)) {
          together := true;
        } else {
          assert [call] + (group[1..] + rest) == group + rest;
          group, rest := [call], group[1..] + rest;
        }
      }
    }

    method Suspend(session: Session)
      modifies this`sessions, this`checkpoint
      ensures sessions == old(sessions)[session.runId := session]
      ensures checkpoint == Some(AwaitingCheckpoint(session, Judge(gateway.policy, session.call).risk))
    {
      sessions := sessions[session.runId := session];
      checkpoint := Some(AwaitingCheckpoint(session, Judge(gateway.policy, session.call).risk));
    }

    /** Runs one call; `made` is its message unless approval is needed or an error stopped it. */
    method RunOne(call: Call) returns (r: RunResult, made: seq<Message>, ghost ran: seq<Call>)
      modifies gateway
      ensures gateway.executed == old(gateway.executed) + ran && AllAllowed(ran, gateway.policy)
      ensures r.NeedsApproval? <==> Judge(gateway.policy, call).action.Ask?
      ensures if r.NeedsApproval? || r.Stopped? then made == [] && PickedFrom(ran, [call]) && (r.NeedsApproval? ==> ran == [])
              else AreResults(made, [call]) && ran == Ran([call], 1, gateway.policy, {})
    {
      r := gateway.Run(call, false);
      ran := gateway.executed[|old(gateway.executed)|..];
      made := [];
      assert [call][..0] == [];
      match r {
        case Done(content) => made := [ToolMessage(call.id, call.name, content)];
        case Denied => made := [ToolMessage(call.id, call.name, DeniedText(call.name))];
        case _ =>
      }
    }

    /** Runs a group of allowed reads; no messages when an error stopped it. */
    method RunGroup(group: seq<Call>) returns (made: seq<Message>, stopped: bool, ghost ran: seq<Call>)
      requires forall i :: 0 <= i < |group| ==> IsAllowedRead(Judge(gateway.policy, group[i]))
      modifies gateway
      ensures gateway.executed == old(gateway.executed) + ran && AllAllowed(ran, gateway.policy)
      ensures if stopped then made == [] && PickedFrom(ran, group) else AreResults(made, group) && ran == Ran(group, |group|, gateway.policy, {})
    {
      var contents;
      contents, stopped, ran := gateway.RunTogether(group);
      AllowedAllRun(group, |group|, gateway.policy, {});
      assert group[..|group|] == group;
      made := if stopped then [] else ResultsOf(group, contents);
    }

    /** One round: a group of reads, or a single call. */
    method RunNext(queue: seq<Call>) returns (group: seq<Call>, rest: seq<Call>, made: seq<Message>, asks: bool, stopped: bool, ghost ran: seq<Call>)
      requires |queue| > 0
      modifies gateway
      ensures queue == group + rest && |group| >= 1 && gateway.executed == old(gateway.executed) + ran
      ensures AllAllowed(ran, gateway.policy)
      ensures asks ==> ran == [] && |group| == 1 && Judge(gateway.policy, group[0]).action.Ask?
      ensures !asks && stopped ==> PickedFrom(ran, queue)
      ensures !asks && !stopped ==> AreResults(made, group) && NoneAsked(group, gateway.policy) && ran == Ran(group, |group|, gateway.policy, {})
    {
      var together;
      group, rest, together := NextGroup(queue);
      if together {
        asks := false;
        made, stopped, ran := RunGroup(group);
      } else {
        var r;
        assert group == [group[0]];
        r, made, ran := RunOne(group[0]);
        asks, stopped := r.NeedsApproval?, r.Stopped?;
      }
      if !asks && stopped {
        StoppedIn(ran, group, rest);
      }
    }

    /** Works the calls off in order, reads side by side, until done, a call needs approval, or an error. */
    method WorkOff(runId: string, calls: seq<Call>, iteration: int, followups: nat)
      returns (end: BatchEnd, messages: seq<Message>, queue: seq<Call>, completed: set<string>,
               ghost ran: seq<Call>, ghost extra: seq<Call>, ghost ids: set<string>)
      modifies this`checkpoint, gateway
      ensures UpTo(calls, messages, queue, gateway.policy) && RanThrough(calls, |messages|, gateway.policy, ran) && IdsThrough(calls, |messages|, ids)
      ensures gateway.executed == old(gateway.executed) + ran + extra && completed == old(CompletedBefore(runId)) + ids
      ensures end.BatchDone? ==> queue == []
      ensures end.BatchSuspended? ==> |queue| > 0 && Judge(gateway.policy, queue[0]).action.Ask?
      ensures if end.Stopped() then PickedFrom(extra, queue) && AllAllowed(extra, gateway.policy) else extra == []
      ensures checkpoint == Some(RunningCheckpoint(runId, iteration, followups, completed, queue))
    {
      StartOfBatch(calls, gateway.policy);
      hide UpTo, RanThrough, IdsThrough, PickedFrom, AreResults, NoneAsked, Ran, IdsOf;
      end, messages, queue, completed := BatchDone, [], calls, CompletedBefore(runId);
      ran, extra, ids := [], [], {};
      checkpoint := Some(RunningCheckpoint(runId, iteration, followups, completed, queue));
      while |queue| > 0
        invariant UpTo(calls, messages, queue, gateway.policy)
        invariant RanThrough(calls, |messages|, gateway.policy, ran) && IdsThrough(calls, |messages|, ids)
        invariant gateway.executed == old(gateway.executed) + ran && extra == [] && completed == old(CompletedBefore(runId)) + ids
        invariant end == BatchDone && checkpoint == Some(RunningCheckpoint(runId, iteration, followups, completed, queue))
        decreases |queue|
      {
        if * {
          NothingPicked(queue);
          end := BatchAborted;
          break;
        }
        var group, rest, made, asks, stopped;
        ghost var now;
        group, rest, made, asks, stopped, now := RunNext(queue);
        if asks {
          end := BatchSuspended;
          break;
        }
        if stopped {
          var aborted: bool := *;
          end, extra := if aborted then BatchAborted else BatchFailed, now;
          break;
        }
        Round(calls, messages, queue, gateway.policy, group, made, rest, ran, ids);
        messages, queue, completed := messages + made, rest, completed + IdsOf(group, |group|);
        ran, ids := ran + now, ids + IdsOf(group, |group|);
        checkpoint := Some(RunningCheckpoint(runId, iteration, followups, completed, queue));
      }
    }

    /** A batch of calls: worked off, or suspended with all that is needed to go on. Only an abort brings its results. */
    method ExecuteToolBatch(runId: string, calls: seq<Call>, iteration: int, followups: nat)
      returns (end: BatchEnd, messages: seq<Message>, ghost made: seq<Message>, ghost queue: seq<Call>,
               ghost completed: set<string>, ghost ran: seq<Call>, ghost extra: seq<Call>, ghost ids: set<string>)
      modifies this`sessions, this`checkpoint, gateway
      ensures messages == if end.BatchFailed? then [] else made
      ensures UpTo(calls, made, queue, gateway.policy) && RanThrough(calls, |made|, gateway.policy, ran) && IdsThrough(calls, |made|, ids)
      ensures gateway.executed == old(gateway.executed) + ran + extra && completed == old(CompletedBefore(runId)) + ids
      ensures end.BatchDone? ==> queue == []
      ensures if end.Stopped() then PickedFrom(extra, queue) && AllAllowed(extra, gateway.policy) else extra == []
      ensures if end.BatchSuspended? then |queue| > 0 && IsSuspendedAt(runId, queue, iteration, followups, completed, old(sessions))
              else sessions == old(sessions) && checkpoint == Some(RunningCheckpoint(runId, iteration, followups, completed, queue))
    {
      var rest, done;
      end, messages, rest, done, ran, extra, ids := WorkOff(runId, calls, iteration, followups);
      made, queue, completed := messages, rest, done;
      if end.BatchFailed? {
        messages := [];
      }
      if end.BatchSuspended? {
        Suspend(Session(runId, rest[0], rest[1..], iteration, followups, done));
      }
    }

    /** Suspended before the first call of the queue, which needs approval. */
    ghost predicate IsSuspendedAt(runId: string, queue: seq<Call>, iteration: int, followups: nat, completed: set<string>,
                                  before: map<string, Session>)
      requires |queue| > 0
      reads this
    {
      var s := Session(runId, queue[0], queue[1..], iteration, followups, completed);
      && Judge(gateway.policy, queue[0]).action.Ask? && sessions == before[runId := s] && sessions[runId] == s
      && checkpoint == Some(AwaitingCheckpoint(s, Judge(gateway.policy, queue[0]).risk))
    }

    // ---- Results go to the thread ----

    method AppendToolMessages(messages: seq<Message>, iteration: int)
      requires Waiting(base, thread.View(), batch, done) && done + |messages| <= |batch|
      requires AreResults(messages, batch[done..done + |messages|])
      modifies this`done, thread
      ensures Waiting(base, thread.View(), batch, done) && done == old(done) + |messages|
    {
      ghost var start := done;
      for i := 0 to |messages|
        invariant done == start + i && Waiting(base, thread.View(), batch, done)
      {
        assert IsResultFor(messages[i], batch[start..start + |messages|][i]);
        AppendNext(messages[i].callId, messages[i].name, messages[i].content, iteration);
      }
    }

    /** The result of the next call. */
    method AppendNext(callId: string, name: string, content: string, iteration: int)
      requires Waiting(base, thread.View(), batch, done) && done < |batch| && callId == batch[done].id && name == batch[done].name
      modifies this`done, thread
      ensures done == old(done) + 1 && Waiting(base, thread.View(), batch, done)
      ensures |thread.entries| == |old(thread.entries)| + 1
      ensures thread.entries == old(thread.entries) + [thread.entries[|old(thread.entries)|]]
      ensures thread.entries[|old(thread.entries)|].message == ToolMessage(callId, name, content)
    {
      hide Waiting;
      WaitingIsSound(base, thread.View(), batch, done);
      ResultAdvances(base, thread.View(), batch, done, content, None, Some(iteration), thread.estimator.factor);
      var ok := thread.AddToolResult(callId, name, content, None, Some(iteration));
      done := done + 1;
    }

    // ---- Closing a turn ----

    /** A user interrupt cancels what is unanswered and closes the turn. */
    method FinishInterruptedRun(runId: string)
      requires Sound(thread.View()) && thread.openTurnId.Some?
      requires RanSafely(logBefore, gateway.executed, batch, gateway.policy, approved)
      requires sessions == map[] || sessions.Keys == {runId}
      modifies this`sessions, this`checkpoint, thread
      ensures Ended()
    {
      InterruptTurn("用户中断了当前任务");
      sessions := sessions - {runId};
      assert sessions == map[];
      checkpoint := None;
    }

    /** So does the failure of a run that was not resumed, with the error as its text. */
    method FinishFailedRun(message: string)
      requires Sound(thread.View()) && thread.openTurnId.Some? && sessions == map[]
      requires RanSafely(logBefore, gateway.executed, batch, gateway.policy, approved)
      modifies this`checkpoint, thread
      ensures Ended()
    {
      checkpoint := None;
      InterruptTurn(message);
    }

    /** The failure of a resumed run closes the turn without cancelling anything. */
    method FinishFailedResumedRun(message: string)
      requires LeftOpen()
      modifies this`checkpoint, thread
      ensures AbortedAsItWas()
      ensures thread.View() == AbortTurn(old(thread.View()), message, thread.estimator.factor)
    {
      hide Sound, RanSafely, Waiting;
      checkpoint := None;
      WaitingIsSound(base, thread.View(), batch, done);
      AbortKeepsSoundExactly(thread.View(), message, thread.estimator.factor);
      PendingExactly(base, thread.View(), batch, done);
      var ok := thread.Abort(message);
    }

    method InterruptTurn(text: string)
      requires Sound(thread.View()) && thread.openTurnId.Some?
      modifies thread
      ensures Sound(thread.View()) && thread.openTurnId.None? && NothingPending(thread.View())
    {
      InterruptKeepsSound(thread.View(), text, thread.estimator.factor);
      var ok := thread.Interrupt(text);
    }

    // ---- Requesting, resuming, cancelling ----

    /** A run of what was left of the batch; its results are not in the thread yet, and those of `extra` are lost. */
    ghost predicate RestRan(end: BatchEnd, runId: string, made: seq<Message>, extra: seq<Call>, log: seq<Call>)
      reads this, gateway
    {
      && done + |made| <= |batch| && AreResults(made, batch[done..done + |made|])
      && gateway.executed == log + extra && PickedFrom(extra, batch[done + |made|..]) && AllAllowed(extra, gateway.policy)
      && Logged(logBefore, log, batch, done + |made|, gateway.policy, approved)
      && NoneAskedFrom(batch, done, done + |made|, gateway.policy)
      && (end.BatchDone? ==> done + |made| == |batch| && CompletedBefore(runId) == prior + IdsOf(batch, |batch|))
      && (!end.Stopped() ==> extra == [])
      && if end.BatchSuspended? then SessionHolds(runId, done + |made|) else sessions == map[]
    }

    method ExecuteRest(runId: string, calls: seq<Call>, iteration: int, followups: nat)
      returns (end: BatchEnd, messages: seq<Message>, ghost made: seq<Message>, ghost extra: seq<Call>, ghost log: seq<Call>)
      requires done <= |batch| && calls == batch[done..] && sessions == map[]
      requires Logged(logBefore, gateway.executed, batch, done, gateway.policy, approved)
      requires CompletedBefore(runId) == prior + IdsOf(batch, done)
      modifies this`sessions, this`checkpoint, gateway
      ensures RestRan(end, runId, made, extra, log) && messages == if end.BatchFailed? then [] else made
    {
      hide UpTo, RanThrough, IdsThrough, Logged, PickedFrom, AreResults, NoneAsked, NoneAskedFrom, AllAllowed, Ran, IdsOf;
      ghost var before := gateway.executed;
      ghost var queue, completed, ran, ids;
      end, messages, made, queue, completed, ran, extra, ids := ExecuteToolBatch(runId, calls, iteration, followups);
      log := before + ran;
      RestIs(batch, done, calls, made, queue, gateway.policy, ids);
      StretchLogged(logBefore, before, batch, done, gateway.policy, approved, calls, |made|, ran);
      if end.BatchSuspended? {
        OnlySession(runId, sessions[runId]);
      }
    }

    method AbortRest(runId: string, messages: seq<Message>, iteration: int, ghost end: BatchEnd, ghost extra: seq<Call>, ghost log: seq<Call>)
      requires Waiting(base, thread.View(), batch, done) && RestRan(end, runId, messages, extra, log)
      modifies this`sessions, this`checkpoint, this`done, thread
      ensures Ended()
    {
      hide Waiting, Logged, PickedFrom, RanSafely, AllAllowed;
      LoggedOnce(logBefore, log, batch, done + |messages|, gateway.policy, approved, extra);
      AppendToolMessages(messages, iteration);
      FinishInterruptedRun(runId);
    }

    method AppendRest(end: BatchEnd, runId: string, messages: seq<Message>, iteration: int, ghost log: seq<Call>)
      requires Waiting(base, thread.View(), batch, done) && prior <= AnsweredIn(base.entries, base.open.value)
      requires !end.Stopped() && RestRan(end, runId, messages, [], log)
      modifies this`done, thread
      ensures if end.BatchDone? then AllAnswered(runId) else SuspendedAt(runId)
      ensures done == old(done) + |messages|
    {
      hide Waiting, Logged, PickedFrom, AllAllowed, NoneAskedFrom;
      assert log + [] == log;
      AppendToolMessages(messages, iteration);
      if end.BatchDone? {
        NothingLeft(base, thread.View(), batch);
        AnsweredSince(base, thread.View(), batch, done, prior);
        WaitingIsSound(base, thread.View(), batch, done);
      }
    }

    /** Works off the calls that are left and appends their results. */
    method RunRest(runId: string, calls: seq<Call>, iteration: int, followups: nat) returns (end: BatchEnd)
      requires Tracked() && calls == batch[done..] && sessions == map[]
      requires CompletedBefore(runId) == prior + IdsOf(batch, done)
      modifies this`sessions, this`checkpoint, this`done, gateway, thread
      ensures end.BatchDone? ==> AllAnswered(runId)
      ensures end.BatchSuspended? ==> SuspendedAt(runId)
      ensures !end.Stopped() ==> old(done) <= done && NoneAskedFrom(batch, old(done), done, gateway.policy)
      ensures end.BatchAborted? ==> Ended()
      ensures end.BatchFailed? ==> LeftOpen() && done == old(done)
    {
      hide Waiting, Logged, PickedFrom, RanSafely, AllAllowed, NoneAskedFrom, AreResults, IdsOf, AnsweredIn;
      WaitingIsSound(base, thread.View(), batch, done);
      var messages;
      ghost var made, extra, log;
      end, messages, made, extra, log := ExecuteRest(runId, calls, iteration, followups);
      if end.BatchFailed? {
        LoggedOnce(logBefore, log, batch, done + |made|, gateway.policy, approved, extra);
        return;
      }
      var stop := end.BatchAborted?;
      if * {
        stop := true;
      }
      if stop {
        AbortRest(runId, messages, iteration, end, extra, log);
        return BatchAborted;
      }
      AppendRest(end, runId, messages, iteration, log);
    }

    /** The model's calls go to the thread and are worked off, in a run that was resumed or in one that was not. */
    method RunCalls(runId: string, text: string, calls: seq<Call>, iteration: int, followups: nat, resumed: bool) returns (end: BatchEnd)
      requires Sound(thread.View()) && thread.openTurnId.Some? && NothingPending(thread.View()) && sessions == map[]
      requires Distinct(CallIds(calls)) && IdSet(CallIds(calls)) * Read(thread.entries).seen == {}
      requires CompletedBefore(runId) <= AnsweredIn(thread.entries, thread.openTurnId.value)
      modifies this, gateway, thread
      ensures batch == calls && logBefore == old(gateway.executed) && prior == old(CompletedBefore(runId))
      ensures base == AppendAssistant(old(thread.View()), text, calls, thread.estimator.factor)
      ensures Read(base.entries).Scan? && Read(base.entries).seen == Read(old(thread.entries)).seen + IdSet(CallIds(calls))
      ensures end.BatchDone? ==> AllAnswered(runId)
      ensures end.BatchSuspended? ==> SuspendedAt(runId)
      ensures end.BatchAborted? ==> Ended()
      ensures end.BatchFailed? ==> if resumed then AbortedAsItWas() && done == 0 else Ended()
    {
      BeginBatch(runId, text, calls);
      hide Waiting, Logged, Sound, RanSafely, AppendAssistant, Read, CallIds, IdSet, Distinct, AnsweredIn, NothingPending;
      end := RunRest(runId, calls, iteration, followups);
      if end.BatchFailed? {
        var message: string := *;
        if resumed {
          FinishFailedResumedRun(message);
        } else {
          WaitingIsSound(base, thread.View(), batch, done);
          FinishFailedRun(message);
        }
      }
    }

    method BeginBatch(runId: string, text: string, calls: seq<Call>)
      requires Sound(thread.View()) && thread.openTurnId.Some? && NothingPending(thread.View())
      requires Distinct(CallIds(calls)) && IdSet(CallIds(calls)) * Read(thread.entries).seen == {}
      requires CompletedBefore(runId) <= AnsweredIn(thread.entries, thread.openTurnId.value)
      modifies this`batch, this`base, this`logBefore, this`done, this`approved, this`prior, thread
      ensures Tracked() && done == 0 && batch == calls && calls == batch[done..] && logBefore == gateway.executed
      ensures CompletedBefore(runId) == prior + IdsOf(batch, done) && prior == CompletedBefore(runId)
      ensures approved == {}
      ensures base == AppendAssistant(old(thread.View()), text, calls, thread.estimator.factor)
      ensures Read(base.entries).Scan? && Read(base.entries).seen == Read(old(thread.entries)).seen + IdSet(CallIds(calls))
    {
      hide Waiting, Sound, Read, IdSet, CallIds, Distinct, AnsweredIn, Logged, NothingPending, AppendAssistant;
      ghost var t := thread.View();
      AnsweredThen(t, text, calls, thread.estimator.factor);
      RequestWaits(t, text, calls, thread.estimator.factor);
      var ok := thread.Say(text, calls);
      batch, done, base, logBefore, approved, prior := calls, 0, thread.View(), gateway.executed, {}, CompletedBefore(runId);
      NothingLogged(gateway.executed, calls, gateway.policy);
    }

    /** The decision on the pending call: its result, or None when an error stopped it. */
    method Decide(session: Session, approve: bool, reason: string) returns (content: Option<string>, ghost ran: seq<Call>)
      requires Judge(gateway.policy, session.call).action.Ask?
      modifies gateway
      ensures gateway.executed == old(gateway.executed) + ran
      ensures content.Some? ==> ran == if approve then [session.call] else []
      ensures content.None? ==> ran == [] || (approve && ran == [session.call])
      ensures content.Some? && !approve ==> content.value == RejectedText(session.call.name, reason)
    {
      ran := [];
      if * {
        return None, ran;
      }
      if approve {
        var r := gateway.Run(session.call, true);
        ran := gateway.executed[|old(gateway.executed)|..];
        content := if r.Done? then Some(r.content) else None;
      } else {
        content := Some(RejectedText(session.call.name, reason));
      }
      if * {
        content := None;
      }
    }

    /** The pending call is answered and recorded; the session is over. */
    method AppendDecision(session: Session, content: string, ghost approve: bool)
      requires Waiting(base, thread.View(), batch, done) && done < |batch| && session.call == batch[done]
      requires SuspendedAtBefore(session, approve) && prior <= AnsweredIn(base.entries, base.open.value)
      requires checkpoint.Some? && checkpoint.value.runId == session.runId && session.completed == prior + IdsOf(batch, done)
      modifies this`done, this`approved, this`checkpoint, thread
      ensures Tracked() && done == old(done) + 1
      ensures approved == Decided(old(approved), session.call, approve)
      ensures CompletedBefore(session.runId) == prior + IdsOf(batch, done)
    {
      hide Waiting, Logged;
      WaitingIsSound(base, thread.View(), batch, done);
      AppendNext(session.call.id, session.call.name, content, session.iteration);
      approved := Decided(approved, session.call, approve);
      var completed := session.completed + {session.call.id};
      checkpoint := Some(checkpoint.value.(completed := completed));
    }

    /** The log already shows the decision, the thread not yet. */
    ghost predicate SuspendedAtBefore(session: Session, approve: bool)
      reads this`batch, this`done, this`approved, this`logBefore, gateway
    {
      && done < |batch|
      && Logged(logBefore, gateway.executed, batch, done + 1, gateway.policy, Decided(approved, session.call, approve))
    }

    /** Resumes a suspended batch with the user's decision. */
    method ResolveToolApproval(runId: string, approve: bool, reason: string) returns (known: bool, end: BatchEnd)
      requires runId in sessions ==> SuspendedAt(runId)
      modifies this`sessions, this`checkpoint, this`done, this`approved, gateway, thread
      ensures known <==> runId in old(sessions)
      ensures !known ==> sessions == old(sessions) && gateway.executed == old(gateway.executed) && thread.View() == old(thread.View())
      ensures known ==> approved == Decided(old(approved), batch[old(done)], approve)
      ensures known && !end.Stopped() ==> done > old(done) && NoneAskedFrom(batch, old(done) + 1, done, gateway.policy)
      ensures known && end.BatchDone? ==> AllAnswered(runId)
      ensures known && end.BatchSuspended? ==> SuspendedAt(runId)
      ensures known && end.BatchAborted? ==> Ended()
      ensures known && end.BatchFailed? ==> LeftOpen()
    {
      hide Waiting, Logged, RanSafely, Sound, IdsOf, Ran, NoneAskedFrom;
      known, end := runId in sessions, BatchAborted;
      if !known {
        return;
      }
      WaitingIsSound(base, thread.View(), batch, done);
      var session := sessions[runId];
      ghost var log, was := gateway.executed, approved;
      sessions := map[];
      checkpoint := Some(RunningCheckpoint(runId, session.iteration, session.followups, session.completed, session.remaining));
      var content;
      ghost var ran;
      content, ran := Decide(session, approve, reason);
      if content.None? {
        approved := Decided(was, session.call, approve);
        DecisionOnce(logBefore, log, batch, done, gateway.policy, was, approve, ran);
        end := StopDecision(runId);
        return;
      }
      DecisionLogged(logBefore, log, batch, done, gateway.policy, was, approve);
      assert log + [] == log;
      AppendDecision(session, content.value, approve);
      end := RunRest(runId, session.remaining, session.iteration, session.followups);
    }

    /** The error that stopped the decision: an abort closes the turn, any other goes to the caller as it is. */
    method StopDecision(runId: string) returns (end: BatchEnd)
      requires Waiting(base, thread.View(), batch, done) && sessions == map[]
      requires RanSafely(logBefore, gateway.executed, batch, gateway.policy, approved)
      modifies this`sessions, this`checkpoint, thread
      ensures end.Stopped() && if end.BatchAborted? then Ended() else LeftOpen()
    {
      hide RanSafely;
      end := BatchFailed;
      if * {
        WaitingIsSound(base, thread.View(), batch, done);
        FinishInterruptedRun(runId);
        end := BatchAborted;
      }
    }

    // ---- Cancelling a suspended batch ----

    /** All calls that have not been decided get a cancellation as their result. */
    method AnswerCancelled(pending: seq<Call>, reason: string, iteration: int)
      requires Waiting(base, thread.View(), batch, done) && done <= |batch| && pending == batch[done..]
      modifies this`done, thread
      ensures Waiting(base, thread.View(), batch, done) && done == |batch|
      ensures |thread.entries| == |base.entries| + |batch|
      ensures forall i :: old(done) <= i < |batch| ==> IsCancellation(thread.entries[|base.entries| + i].message, batch[i], reason)
    {
      hide Waiting;
      ghost var start := done;
      WaitingIsSound(base, thread.View(), batch, done);
      for i := 0 to |pending|
        invariant done == start + i && Waiting(base, thread.View(), batch, done) && |thread.entries| == |base.entries| + done
        invariant forall k :: start <= k < done ==> IsCancellation(thread.entries[|base.entries| + k].message, batch[k], reason)
      {
        AppendNext(pending[i].id, pending[i].name, CancelledText(pending[i].name, reason), iteration);
      }
    }

    /** The suspended batch is given up: cancellations for what is left, a closing text, and the turn is committed. */
    method FinishPendingApprovalCancellation(session: Session, reason: string, summary: string) returns (ghost answered: Thread)
      requires Tracked() && done < |batch| && session.call == batch[done] && session.remaining == batch[done + 1..]
      modifies this`checkpoint, this`done, thread
      ensures Waiting(base, answered, batch, |batch|) && |answered.entries| == |base.entries| + |batch|
      ensures forall i :: old(done) <= i < |batch| ==> IsCancellation(answered.entries[|base.entries| + i].message, batch[i], reason)
      ensures thread.View() == CloseTurn(AppendAssistant(answered, summary, [], thread.estimator.factor), Committed)
      ensures Sound(thread.View()) && thread.openTurnId.None? && NothingPending(thread.View()) && checkpoint.None?
    {
      hide Waiting, Sound, Logged;
      assert [session.call] + session.remaining == batch[done..];
      AnswerCancelled([session.call] + session.remaining, reason, session.iteration);
      answered := thread.View();
      WaitingIsSound(base, answered, batch, done);
      CloseAnswered(base, answered, batch, summary, thread.estimator.factor);
      var said := thread.Say(summary, []);
      var committed := thread.Commit();
      checkpoint := None;
    }

    /** The user interrupts a run that waits for approval. */
    method InterruptPendingApproval(runId: string, reason: string) returns (known: bool, ghost answered: Thread)
      requires runId in sessions ==> SuspendedAt(runId)
      modifies this`sessions, this`checkpoint, this`done, thread
      ensures known <==> runId in old(sessions)
      ensures !known ==> sessions == old(sessions) && thread.View() == old(thread.View())
      ensures known ==> Waiting(base, answered, batch, |batch|)
      ensures known ==> Sound(thread.View()) && thread.openTurnId.None? && NothingPending(thread.View()) && sessions == map[]
    {
      hide Waiting, Sound, Logged;
      known, answered := runId in sessions, thread.View();
      if known {
        var session := sessions[runId];
        sessions := sessions - {runId};
        answered := FinishPendingApprovalCancellation(session, reason, "已中断当前任务");
      }
    }
  }

  predicate IsCancellation(m: Message, call: Call, reason: string) {
    m == ToolMessage(call.id, call.name, CancelledText(call.name, reason))
  }

  /** No call from `from` up to `to` asks for approval. */
  predicate NoneAskedFrom(batch: seq<Call>, from: nat, to: nat, policy: Policy) {
    to <= |batch| && forall i :: from <= i < to ==> !Judge(policy, batch[i]).action.Ask?
  }

  /** The approvals after one more decision. */
  function Decided(approved: set<string>, call: Call, approve: bool): set<string> {
    if approve then approved + {call.id} else approved
  }

  /** A closing text and a commit are in order once everything is answered. */
  lemma {:induction false} CloseAnswered(base: Thread, t: Thread, batch: seq<Call>, summary: string, factor: real)
    requires Waiting(base, t, batch, |batch|)
    ensures var u := AppendAssistant(t, summary, [], factor);
            && u.open.Some? && Sound(CloseTurn(u, Committed)) && NothingPending(CloseTurn(u, Committed))
  {
    NothingLeft(base, t, batch);
    assert CallIds([]) == [] && IdSet([]) == {};
    AssistantKeepsSoundExactly(t, summary, [], factor);
    CommitKeepsSoundExactly(AppendAssistant(t, summary, [], factor));
  }

  lemma {:induction false} AnsweredThen(t: Thread, text: string, calls: seq<Call>, factor: real)
    requires t.open.Some?
    ensures AnsweredIn(t.entries, t.open.value) <= AnsweredIn(AppendAssistant(t, text, calls, factor).entries, t.open.value)
  {
    var u := AppendAssistant(t, text, calls, factor);
    assert u.entries == t.entries + [u.entries[|t.entries|]];
    AnsweredSnoc(t.entries, u.entries[|t.entries|], t.open.value);
  }

  /** An error around the decision: the pending call ran at most once, and only when approved. */
  lemma {:induction false} DecisionOnce(before: seq<Call>, log: seq<Call>, batch: seq<Call>, done: nat, policy: Policy, approved: set<string>,
                                        approve: bool, ran: seq<Call>)
    requires Logged(before, log, batch, done, policy, approved) && done < |batch|
    requires Judge(policy, batch[done]).action.Ask? && (ran == [] || (approve && ran == [batch[done]]))
    ensures RanSafely(before, log + ran, batch, policy, Decided(approved, batch[done], approve))
  {
    NothingPicked(batch[done..]);
    assert log + [] == log && [] + batch[done..] == batch[done..];
    LoggedOnce(before, log, batch, done, policy, approved, []);
    RanIsPicked(batch, done, policy, approved);
    assert batch == batch[..done] + [batch[done]] + batch[done + 1..];
    var part := Ran(batch, done, policy, approved);
    NothingPicked([batch[done]]);
    NothingPicked(batch[done + 1..]);
    PickedInParts(part, ran, batch[..done], [batch[done]]);
    PickedInParts(part + ran, [], batch[..done] + [batch[done]], batch[done + 1..]);
    assert part + ran + [] == part + ran == (log + ran)[|before|..];
  }

  lemma OnlySession(runId: string, s: Session)
    ensures map[][runId := s] == map[runId := s]
  {
  }

  /** What a run of the rest of a batch means for the whole batch. */
  lemma {:induction false} RestIs(batch: seq<Call>, start: nat, calls: seq<Call>, messages: seq<Message>, queue: seq<Call>,
                                  policy: Policy, ids: set<string>)
    requires start <= |batch| && calls == batch[start..] && UpTo(calls, messages, queue, policy)
    requires IdsThrough(calls, |messages|, ids)
    ensures var k := start + |messages|;
            && |messages| <= |calls| && k <= |batch| && queue == batch[k..] && AreResults(messages, batch[start..k])
            && NoneAsked(calls[..|messages|], policy) && NoneAskedFrom(batch, start, k, policy)
            && PickedFrom([], queue) && AllAllowed([], policy) && IdsOf(batch, k) == IdsOf(batch, start) + ids
            && (|queue| > 0 ==> queue[0] == batch[k] && queue[1..] == batch[k + 1..])
  {
    assert calls[..|messages|] == batch[start..start + |messages|];
    assert calls[|messages|..] == batch[start + |messages|..];
    IdsFrom(batch, start, calls, |messages|);
  }

  lemma {:induction false} StoppedIn(ran: seq<Call>, group: seq<Call>, rest: seq<Call>)
    requires PickedFrom(ran, group)
    ensures PickedFrom(ran, group + rest)
  {
    PickedInParts(ran, [], group, rest);
    assert ran + [] == ran;
  }
}
