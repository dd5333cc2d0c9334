/** The bounded loop of model calls and tool batches, with every answer and every failure left to the environment. */
module StreamingLoop {
  import opened LoopMonitors
  import opened Messages

  const MAX_COMPLETION_FOLLOWUPS := 1
  const STALL_BATCHES := 6

  datatype Outcome = Success | SoftLanded | GaveUp | Failed | Cancelled | AwaitingApproval

  datatype Event = TurnStart | Delta | ToolsStart | ToolCalled | ToolAnswered | Result(outcome: Outcome)

  /** What the completion policy says to a text without calls, if it is asked at all. */
  datatype Assessment = NotAsked | Satisfied | Unsatisfied

  /**
   * What has happened in a segment: `batches` and `prints` are its tool batches, `calls` its main model calls,
   * `verdicts` the assessments of its texts without calls.
   */
  datatype Segment = Segment(
    iteration: int, followups: nat, calls: nat, softLands: nat, batches: seq<seq<Call>>, prints: seq<string>,
    verdicts: seq<Assessment>, events: seq<Event>)

  /** How a round or the whole loop ends; a raised error is caught outside the loop. */
  datatype Turnout = GoOn | Break | Landed | Raised(aborted: bool)

  predicate NoResult(events: seq<Event>) {
    forall i :: 0 <= i < |events| ==> !events[i].Result?
  }

  /** Exactly one result, and it is the last event. */
  predicate EndsWithResult(events: seq<Event>) {
    |events| > 0 && events[|events| - 1].Result? && NoResult(events[..|events| - 1])
  }

  function Room(start: int, max: int): nat {
    if max < start then 0 else max - start + 1
  }

  /** Every text but the last was refused, and each refusal but that of the last one got a follow-up. */
  ghost predicate Tried(s: Segment, before: nat) {
    && before + |s.verdicts| <= s.followups + 1 && s.followups <= before + |s.verdicts|
    && forall i :: 0 <= i < s.followups - before ==> s.verdicts[i].Unsatisfied?
  }

  /** The last text was accepted, or nobody asked. */
  predicate Accepted(s: Segment) {
    |s.verdicts| > 0 && !s.verdicts[|s.verdicts| - 1].Unsatisfied?
  }

  /** What holds between rounds. */
  ghost predicate Between(s: Segment, start: int, max: int, before: nat) {
    && before <= s.followups && (s.followups > before ==> s.followups <= MAX_COMPLETION_FOLLOWUPS)
    && s.iteration == start + |s.batches| + (s.followups - before)
    && s.calls == |s.batches| + (s.followups - before)
    && |s.batches| <= Room(start, max)
    && s.softLands == 0 && NoResult(s.events) && |s.prints| == |s.batches|
    && StillMoving(s, |s.batches|) && Tried(s, before) && |s.verdicts| == s.followups - before
  }

  /** No earlier batch was the sixth in a row that only read, nor one more repetition after a recovery. */
  ghost predicate StillMoving(s: Segment, n: nat) {
    && |s.prints| == |s.batches|
    && forall k :: 0 <= k <= n && k <= |s.batches| ==> Idle(s.batches[..k]) < STALL_BATCHES && !StallOf(s.prints[..k], 2).Stalled?
  }

  /** What holds when a segment is over. */
  ghost predicate Within(s: Segment, start: int, max: int, before: nat) {
    && before <= s.followups && (s.followups > before ==> s.followups <= MAX_COMPLETION_FOLLOWUPS)
    && |s.batches| <= Room(start, max) && s.calls <= |s.batches| + (s.followups - before) + 1
    && s.softLands <= 1 && (s.softLands == 1 ==> s.iteration > max)
    && |s.prints| == |s.batches| && (|s.batches| > 0 ==> StillMoving(s, |s.batches| - 1))
    && Tried(s, before)
  }

  /** Among any seven consecutive batches some one does more than read, and no batch is repeated five times in a row. */
  lemma {:induction false} NeverPastTheSixth(s: Segment, start: int, max: int, before: nat, i: nat)
    requires Within(s, start, max, before) && i + 7 <= |s.batches|
    ensures exists k :: i <= k < i + 7 && IsMeaningful(s.batches[k])
  {
    var part := s.batches[..i + 6];
    IdleCounts(part);
    var k := |part| - Idle(part) - 1;
    assert part[k] == s.batches[k];
  }

  lemma {:induction false} NeverPastTheFourth(s: Segment, start: int, max: int, before: nat, i: nat)
    requires Within(s, start, max, before) && i + 5 <= |s.prints|
    ensures exists k :: i <= k < i + 4 && s.prints[k] != s.prints[k + 1]
  {
    var part := s.prints[..i + 4];
    TrailingCounts(part);
    assert StillMoving(s, |s.batches| - 1) && !StallOf(part, 2).Stalled?;
    var k := |part| - Trailing(part) - 1;
    assert part[k] != part[|part| - 1] && part[k + 1] == part[|part| - 1];
    assert s.prints[k] != s.prints[k + 1];
  }

  // ---- One round ----

  method Emit(s: Segment, event: Event) returns (next: Segment)
    ensures next == s.(events := s.events + [event])
  {
    next := s.(events := s.events + [event]);
  }

  /** The model's answer streams in; the request or the stream may fail. */
  method AskModel(s: Segment) returns (next: Segment, calls: seq<Call>, raised: bool, aborted: bool)
    requires NoResult(s.events)
    ensures next == s.(calls := next.calls, events := next.events) && NoResult(next.events)
    ensures next.calls == s.calls || next.calls == s.calls + 1
    ensures !raised ==> next.calls == s.calls + 1
  {
    next, calls, raised, aborted := s, [], true, false;
    if * {
      aborted := *;
      return;
    }
    next := Emit(next.(calls := next.calls + 1), TurnStart);
    var chunks: seq<string> := *;
    for i := 0 to |chunks|
      invariant next == s.(calls := s.calls + 1, events := next.events) && NoResult(next.events)
    {
      next := Emit(next, Delta);
      if * {
        aborted := *;
        return;
      }
    }
    calls := *;
    raised := false;
  }

  /** Past the limit the model is asked once more, without tools, to sum up. */
  method SoftLand(s: Segment) returns (next: Segment, t: Turnout)
    requires NoResult(s.events) && s.softLands == 0
    ensures next == s.(softLands := 1, events := next.events)
    ensures t.Landed? || t.Raised?
    ensures if t.Landed? then EndsWithResult(next.events) && next.events[|next.events| - 1].outcome.SoftLanded? else NoResult(next.events)
  {
    next := Emit(s.(softLands := s.softLands + 1), TurnStart);
    var chunks: seq<string> := *;
    for i := 0 to |chunks|
      invariant next == s.(softLands := 1, events := next.events) && NoResult(next.events)
    {
      next := Emit(next, Delta);
    }
    if * {
      var aborted: bool := *;
      return next, Raised(aborted);
    }
    return Land(next, SoftLanded), Landed;
  }

  function Land(s: Segment, outcome: Outcome): (next: Segment)
    requires NoResult(s.events)
    ensures EndsWithResult(next.events)
  {
    assert (s.events + [Result(outcome)])[..|s.events|] == s.events;
    s.(events := s.events + [Result(outcome)])
  }

  /** A text without calls is final unless it is refused; a refusal is answered with one more try, or ends the run. */
  method Finish(s: Segment, asked: bool) returns (next: Segment, t: Turnout, verdict: Assessment)
    requires NoResult(s.events)
    ensures !t.Raised? ==> (asked <==> !verdict.NotAsked?)
    ensures t.Break? ==> !verdict.Unsatisfied?
    ensures t.GoOn? ==> verdict.Unsatisfied? && s.followups < MAX_COMPLETION_FOLLOWUPS
    ensures t.Landed? ==> verdict.Unsatisfied? && s.followups >= MAX_COMPLETION_FOLLOWUPS
    ensures var judged := s.(verdicts := s.verdicts + [verdict]);
            match t
            case Break => next == judged
            case GoOn => next == judged.(followups := s.followups + 1, iteration := s.iteration + 1)
            case Landed => next == Land(judged, GaveUp)
            case Raised(_) => next == s || (asked && next == judged)
  {
    next, verdict := s, NotAsked;
    if * {
      var aborted: bool := *;
      return next, Raised(aborted), verdict;
    }
    if asked {
      var satisfied: bool := *;
      verdict := if satisfied then Satisfied else Unsatisfied;
    }
    next := s.(verdicts := s.verdicts + [verdict]);
    if verdict != Unsatisfied {
      return next, Break, verdict;
    }
    if * {
      var aborted: bool := *;
      return next, Raised(aborted), verdict;
    }
    if s.followups < MAX_COMPLETION_FOLLOWUPS {
      return next.(followups := s.followups + 1, iteration := s.iteration + 1), GoOn, verdict;
    }
    return Land(next, GaveUp), Landed, verdict;
  }

  /** The calls are announced and run as one batch; it may fail, be aborted, or wait for approval. */
  method RunBatch(s: Segment, calls: seq<Call>) returns (next: Segment, mark: string, t: Turnout)
    requires NoResult(s.events)
    ensures t.GoOn? || t.Landed? || t.Raised?
    ensures next == s.(events := next.events)
    ensures if t.Landed? then EndsWithResult(next.events) && next.events[|next.events| - 1].outcome.AwaitingApproval? else NoResult(next.events)
  {
    mark := *;
    next := Emit(s, ToolsStart);
    for i := 0 to |calls|
      invariant next == s.(events := next.events) && NoResult(next.events)
    {
      next := Emit(next, ToolCalled);
    }
    if * {
      var aborted: bool := *;
      return next, mark, Raised(aborted);
    }
    var answered: seq<string> := *;
    for i := 0 to |answered|
      invariant next == s.(events := next.events) && NoResult(next.events)
    {
      next := Emit(next, ToolAnswered);
    }
    if * {
      var aborted: bool := *;
      return next, mark, Raised(aborted);
    }
    if * {
      return Land(next, AwaitingApproval), mark, Landed;
    }
    return next, mark, GoOn;
  }

  /** After a batch both monitors are asked, the one for reading first. */
  method Judge(s: Segment, calls: seq<Call>, mark: string, stall: ToolLoopStallDetector, progress: RunProgressMonitor)
    returns (next: Segment, t: Turnout)
    requires NoResult(s.events) && stall.Valid() && progress.Valid()
    requires progress.stallThreshold == STALL_BATCHES && stall.repeatThreshold == 2
    modifies stall, progress
    ensures stall.Valid() && progress.Valid()
    ensures stall.history == old(stall.history) + [mark] && progress.history == old(progress.history) + [calls]
    ensures t.GoOn? || t.Landed? || t.Raised?
    ensures t.GoOn? ==> next == s.(iteration := s.iteration + 1)
    ensures t.GoOn? ==> Idle(progress.history) < STALL_BATCHES && !StallOf(stall.history, 2).Stalled?
    ensures !t.GoOn? ==> next == s.(events := next.events)
    ensures if t.Landed? then EndsWithResult(next.events) && next.events[|next.events| - 1].outcome.GaveUp? else NoResult(next.events)
    ensures t.Landed? ==> Idle(progress.history) >= STALL_BATCHES || StallOf(stall.history, 2).Stalled?
  {
    next := s;
    var repetition := stall.Observe(mark);
    var movement := progress.Observe(calls);
    if * {
      var aborted: bool := *;
      return next, Raised(aborted);
    }
    if movement.Stagnant? || repetition.Stalled? {
      next := Emit(next, TurnStart);
      next := Emit(next, Delta);
      if * {
        var aborted: bool := *;
        return next, Raised(aborted);
      }
      return Land(next, GaveUp), Landed;
    }
    return s.(iteration := s.iteration + 1), GoOn;
  }

  /** The monitors have seen exactly the batches of the segment. */
  ghost predicate Watched(s: Segment, stall: ToolLoopStallDetector, progress: RunProgressMonitor)
    reads stall, progress
  {
    && stall.Valid() && progress.Valid() && stall.repeatThreshold == 2 && progress.stallThreshold == STALL_BATCHES
    && stall.history == s.prints && progress.history == s.batches
  }

  /** A round that ends with a result never ends with success. */
  ghost predicate EventsOf(s: Segment, t: Turnout) {
    if t.Landed? then EndsWithResult(s.events) && !s.events[|s.events| - 1].outcome.Success? else NoResult(s.events)
  }

  lemma {:induction false} BetweenIsWithin(s: Segment, start: int, max: int, before: nat)
    requires Between(s, start, max, before)
    ensures Within(s, start, max, before)
  {
  }

  /** A segment with one more batch that has been judged. */
  lemma {:induction false} MovingOn(s: Segment, next: Segment, calls: seq<Call>, mark: string)
    requires StillMoving(s, |s.batches|) && next.batches == s.batches + [calls] && next.prints == s.prints + [mark]
    ensures StillMoving(next, |s.batches|)
    ensures Idle(next.batches) < STALL_BATCHES && !StallOf(next.prints, 2).Stalled? ==> StillMoving(next, |next.batches|)
  {
    hide Idle, StallOf;
    forall k | 0 <= k <= |s.batches| ensures next.batches[..k] == s.batches[..k] && next.prints[..k] == s.prints[..k] {
    }
    assert next.batches[..|next.batches|] == next.batches && next.prints[..|next.prints|] == next.prints;
  }

  /** Runs the calls of one answer as a batch and judges it. */
  method RunAndJudge(s: Segment, calls: seq<Call>, stall: ToolLoopStallDetector, progress: RunProgressMonitor)
    returns (next: Segment, t: Turnout, mark: string)
    requires NoResult(s.events) && Watched(s, stall, progress)
    modifies stall, progress
    ensures t.GoOn? || t.Landed? || t.Raised?
    ensures next == s.(batches := s.batches + [calls], prints := s.prints + [mark], events := next.events,
                       iteration := if t.GoOn? then s.iteration + 1 else s.iteration)
    ensures EventsOf(next, t)
    ensures t.GoOn? ==> Watched(next, stall, progress) && Idle(next.batches) < STALL_BATCHES && !StallOf(next.prints, 2).Stalled?
  {
    next, mark, t := RunBatch(s, calls);
    next := next.(batches := s.batches + [calls], prints := s.prints + [mark]);
    if t.GoOn? {
      next, t := Judge(next, calls, mark, stall, progress);
    }
  }

  /** One turn of the loop. */
  method Round(s: Segment, start: int, max: int, before: nat, hasGateway: bool, policyAlone: bool,
               stall: ToolLoopStallDetector, progress: RunProgressMonitor) returns (next: Segment, t: Turnout)
    requires Between(s, start, max, before) && Watched(s, stall, progress)
    modifies stall, progress
    ensures t.GoOn? ==> Between(next, start, max, before) && Watched(next, stall, progress)
    ensures t.GoOn? ==> if next.followups > s.followups then s.followups < MAX_COMPLETION_FOLLOWUPS
                        else next.followups == s.followups && s.iteration <= max && next.iteration == s.iteration + 1
    ensures t.Break? ==> Accepted(next)
    ensures Within(next, start, max, before) && EventsOf(next, t)
  {
    BetweenIsWithin(s, start, max, before);
    next := s;
    if * {
      var early: bool := *;
      return next, Raised(early);
    }
    var calls, raised, aborted;
    next, calls, raised, aborted := AskModel(s);
    if raised {
      return next, Raised(aborted);
    }
    if |calls| > 0 && s.iteration > max {
      next, t := SoftLand(next);
    } else if |calls| == 0 || !hasGateway {
      var verdict;
      next, t, verdict := Finish(next, hasGateway || policyAlone);
    } else {
      var mark;
      next, t, mark := RunAndJudge(next, calls, stall, progress);
      MovingOn(s, next, calls, mark);
    }
  }

  /**
   * The loop, with what its catch block and its end make of it; handlers may throw. From iteration 1 there is room
   * for as many batches as the limit says; model calls exceed them by at most two, follow-ups are counted across
   * resumes, and a soft landing comes at most once. A success is a text that was not refused, after one follow-up for each
   * text that was.
   */
  method RunStreamingToolLoop(maxIterations: int, startIteration: int, followups: nat, hasGateway: bool, policyAlone: bool)
    returns (s: Segment, threw: bool)
    ensures Within(s, startIteration, maxIterations, followups)
    ensures |s.batches| <= Room(startIteration, maxIterations) && s.calls <= Room(startIteration, maxIterations) + 2
    ensures s.softLands <= 1
    ensures followups <= s.followups <= if followups > MAX_COMPLETION_FOLLOWUPS then followups else MAX_COMPLETION_FOLLOWUPS
    ensures if threw then NoResult(s.events) else EndsWithResult(s.events)
    ensures !threw && s.events[|s.events| - 1].outcome.Success? ==> Accepted(s) && |s.verdicts| == s.followups - followups + 1
  {
    var stall := new ToolLoopStallDetector();
    var progress := new RunProgressMonitor();
    s := Segment(startIteration, followups, 0, 0, [], [], [], []);
    threw := false;
    var t := GoOn;
    while t.GoOn?
      invariant Within(s, startIteration, maxIterations, followups) && EventsOf(s, t)
      invariant t.GoOn? ==> Between(s, startIteration, maxIterations, followups) && Watched(s, stall, progress)
      invariant t.Break? ==> Accepted(s)
      decreases t.GoOn?, if s.followups < MAX_COMPLETION_FOLLOWUPS then MAX_COMPLETION_FOLLOWUPS - s.followups else 0,
                if s.iteration > maxIterations then 0 else maxIterations + 1 - s.iteration
    {
      s, t := Round(s, startIteration, maxIterations, followups, hasGateway, policyAlone, stall, progress);
    }
    if t.Landed? {
      return;
    }
    if * {
      threw := true;
      return;
    }
    var aborted: bool := *;
    var outcome := if t.Break? then (if aborted then Cancelled else Success) else if t.aborted then Cancelled else Failed;
    s := Land(s, outcome);
  }
}
