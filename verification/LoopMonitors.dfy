/** The two counter machines that stop a loop without progress, against what they count. */
module LoopMonitors {
  import opened Messages

  // ---- Identical batches ----

  /** How many fingerprints at the end are the same as the last one. */
  function Trailing(prints: seq<string>): nat {
    var n := |prints|;
    if n == 0 then 0 else if n > 1 && prints[n - 2] == prints[n - 1] then Trailing(prints[..n - 1]) + 1 else 1
  }

  datatype StallState = Progress | Repeated | Recover | Stalled

  /** What the last of the fingerprints means, judged from the whole history. */
  function StallOf(prints: seq<string>, threshold: nat): StallState {
    var repeats := Trailing(prints) - 1;
    if repeats <= 0 then Progress else if repeats < threshold then Repeated else if repeats == threshold then Recover else Stalled
  }

  class ToolLoopStallDetector {
    const repeatThreshold: nat
    var previous: seq<string>
    var repeatedCount: nat
    var recoveryIssued: bool
    ghost var history: seq<string>

    /** The fields say what the history says. */
    ghost predicate Valid()
      reads this
    {
      && repeatThreshold >= 1
      && previous == (if |history| == 0 then [] else [history[|history| - 1]])
      && repeatedCount == (if |history| == 0 then 0 else Trailing(history) - 1)
      && (recoveryIssued <==> repeatedCount >= repeatThreshold)
    }

    constructor (threshold: int := 2)
      ensures Valid() && history == [] && repeatThreshold == if threshold < 1 then 1 else threshold
    {
      repeatThreshold := if threshold < 1 then 1 else threshold;
      previous, repeatedCount, recoveryIssued, history := [], 0, false, [];
    }

    method Observe(fingerprint: string) returns (state: StallState)
      requires Valid()
      modifies this
      ensures Valid() && history == old(history) + [fingerprint]
      ensures state == StallOf(history, repeatThreshold)
    {
      ghost var now := history + [fingerprint];
      assert now[..|history|] == history;
      history := now;
      if previous != [fingerprint] {
        previous, repeatedCount, recoveryIssued := [fingerprint], 0, false;
        return Progress;
      }
      repeatedCount := repeatedCount + 1;
      if recoveryIssued {
        return Stalled;
      }
      if repeatedCount >= repeatThreshold {
        recoveryIssued := true;
        return Recover;
      }
      return Repeated;
    }
  }

  // ---- Batches that only look ----

  const READ_ONLY_TOOLS := {"Read", "Rg", "List", "Glob", "Grep", "Stat", "TodoRead"}

  predicate IsMeaningful(calls: seq<Call>) {
    exists i :: 0 <= i < |calls| && calls[i].name !in READ_ONLY_TOOLS
  }

  /** How many batches at the end only read. */
  function Idle(batches: seq<seq<Call>>): nat {
    if |batches| == 0 || IsMeaningful(batches[|batches| - 1]) then 0 else Idle(batches[..|batches| - 1]) + 1
  }

  datatype ProgressState = Moving | Waiting | Warning | Stagnant

  function ProgressOf(batches: seq<seq<Call>>, warning: nat, stall: nat): ProgressState {
    var idle := Idle(batches);
    if idle == 0 then Moving else if idle >= stall then Stagnant else if idle == warning then Warning else Waiting
  }

  class RunProgressMonitor {
    const warningThreshold: nat
    const stallThreshold: nat
    var consecutiveNoProgress: nat
    ghost var history: seq<seq<Call>>

    ghost predicate Valid()
      reads this
    {
      consecutiveNoProgress == Idle(history)
    }

    constructor (warning: nat := 3, stall: nat := 6)
      ensures Valid() && history == [] && warningThreshold == warning && stallThreshold == stall
    {
      warningThreshold, stallThreshold, consecutiveNoProgress, history := warning, stall, 0, [];
    }

    method Observe(calls: seq<Call>) returns (state: ProgressState)
      requires Valid()
      modifies this
      ensures Valid() && history == old(history) + [calls]
      ensures state == ProgressOf(history, warningThreshold, stallThreshold)
    {
      ghost var now := history + [calls];
      assert now[..|history|] == history;
      history := now;
      if IsMeaningful(calls) {
        consecutiveNoProgress := 0;
        return Moving;
      }
      consecutiveNoProgress := consecutiveNoProgress + 1;
      if consecutiveNoProgress >= stallThreshold {
        return Stagnant;
      }
      return if consecutiveNoProgress == warningThreshold then Warning else Waiting;
    }
  }

  // ---- What the counts mean ----

  /** The last `Idle` batches read only, and the one before them, if any, did more. */
  lemma {:induction false} IdleCounts(batches: seq<seq<Call>>)
    ensures Idle(batches) <= |batches|
    ensures forall i :: |batches| - Idle(batches) <= i < |batches| ==> !IsMeaningful(batches[i])
    ensures Idle(batches) < |batches| ==> IsMeaningful(batches[|batches| - Idle(batches) - 1])
    decreases |batches|
  {
    if |batches| > 0 && !IsMeaningful(batches[|batches| - 1]) { IdleCounts(batches[..|batches| - 1]); }
  }

  lemma {:induction false} TrailingCounts(prints: seq<string>)
    ensures Trailing(prints) <= |prints| && (|prints| > 0 ==> Trailing(prints) >= 1)
    ensures forall i :: |prints| - Trailing(prints) <= i < |prints| ==> prints[i] == prints[|prints| - 1]
    ensures Trailing(prints) < |prints| ==> prints[|prints| - Trailing(prints) - 1] != prints[|prints| - 1]
    decreases |prints|
  {
    var n := |prints|;
    if n > 1 && prints[n - 2] == prints[n - 1] { TrailingCounts(prints[..n - 1]); }
  }
}
