/** Running calls with reads side by side: whatever the interleaving, the outcome is that of one call at a time. */
module ToolSchedule {
  import opened CallGateway
  import opened Messages
  import opened Wrappers

  /** What calls do, step by step: a step sees the call's own memory and the workspace and changes both. */
  datatype Machine<!M, !W> = Machine(
    start: Call -> M, steps: Call -> nat, step: (Call, M, W) -> (M, W), content: (Call, M) -> string)

  /** A call whose risk is `read` leaves the workspace alone. */
  ghost predicate ReadsOnly<M(!new), W(!new)>(m: Machine<M, W>, call: Call) {
    forall memory, w :: m.step(call, memory, w).1 == w
  }

  // ---- One call at a time ----

  function AfterSteps<M, W>(m: Machine<M, W>, call: Call, n: nat, w: W): (M, W) {
    if n == 0 then (m.start(call), w)
    else
      var before := AfterSteps(m, call, n - 1, w);
      m.step(call, before.0, before.1)
  }

  /** The workspace after the first `n` calls, one at a time in order. */
  function WorkspaceAfter<M, W>(m: Machine<M, W>, calls: seq<Call>, n: nat, w: W): W
    requires n <= |calls|
  {
    if n == 0 then w else AfterSteps(m, calls[n - 1], m.steps(calls[n - 1]), WorkspaceAfter(m, calls, n - 1, w)).1
  }

  /** The result of call `i` then. */
  function ContentAt<M, W>(m: Machine<M, W>, calls: seq<Call>, i: nat, w: W): string
    requires i < |calls|
  {
    m.content(calls[i], AfterSteps(m, calls[i], m.steps(calls[i]), WorkspaceAfter(m, calls, i, w)).0)
  }

  lemma {:induction false} ReadKeepsWorkspace<M(!new), W(!new)>(m: Machine<M, W>, call: Call, n: nat, w: W)
    requires ReadsOnly(m, call)
    ensures AfterSteps(m, call, n, w).1 == w
    decreases n
  {
    if n > 0 {
      ReadKeepsWorkspace(m, call, n - 1, w);
      var before := AfterSteps(m, call, n - 1, w);
      assert m.step(call, before.0, before.1).1 == before.1;
    }
  }

  /** Reading calls from position `start` on leave the workspace as it is there. */
  lemma {:induction false} ReadsKeepWorkspace<M(!new), W(!new)>(m: Machine<M, W>, calls: seq<Call>, start: nat, n: nat, w: W)
    requires start <= n <= |calls| && forall i :: start <= i < n ==> ReadsOnly(m, calls[i])
    ensures WorkspaceAfter(m, calls, n, w) == WorkspaceAfter(m, calls, start, w)
    decreases n
  {
    if start < n {
      ReadsKeepWorkspace(m, calls, start, n - 1, w);
      ReadKeepsWorkspace(m, calls[n - 1], m.steps(calls[n - 1]), WorkspaceAfter(m, calls, n - 1, w));
    }
  }

  // ---- Any interleaving ----

  function Remaining<M, W>(m: Machine<M, W>, group: seq<Call>, taken: seq<nat>): int
    requires |taken| == |group|
  {
    if |group| == 0 then 0
    else Remaining(m, group[..|group| - 1], taken[..|group| - 1]) + (m.steps(group[|group| - 1]) - taken[|group| - 1])
  }

  lemma {:induction false} OneStepLess<M, W>(m: Machine<M, W>, group: seq<Call>, taken: seq<nat>, i: nat)
    requires |taken| == |group| && i < |group|
    ensures Remaining(m, group, taken[i := taken[i] + 1]) == Remaining(m, group, taken) - 1
    decreases |group|
  {
    var n := |group| - 1;
    if i < n {
      OneStepLess(m, group[..n], taken[..n], i);
      assert taken[i := taken[i] + 1][..n] == taken[..n][i := taken[i] + 1];
    } else {
      assert taken[i := taken[i] + 1][..n] == taken[..n];
    }
  }

  lemma {:induction false} RemainingIsNat<M, W>(m: Machine<M, W>, group: seq<Call>, taken: seq<nat>)
    requires |taken| == |group| && forall i :: 0 <= i < |group| ==> taken[i] <= m.steps(group[i])
    ensures Remaining(m, group, taken) >= 0
    decreases |group|
  {
    if |group| > 0 { RemainingIsNat(m, group[..|group| - 1], taken[..|group| - 1]); }
  }

  predicate Unfinished<M, W>(m: Machine<M, W>, group: seq<Call>, taken: seq<nat>, i: nat)
    requires |taken| == |group|
  {
    i < |group| && taken[i] < m.steps(group[i])
  }

  /** Each call of the group is where its steps so far would have brought it alone. */
  ghost predicate EachAsAlone<M, W>(m: Machine<M, W>, group: seq<Call>, taken: seq<nat>, memories: seq<M>, w: W) {
    && |taken| == |memories| == |group|
    && forall i :: 0 <= i < |group| ==>
         taken[i] <= m.steps(group[i]) && memories[i] == AfterSteps(m, group[i], taken[i], w).0
  }

  lemma {:induction false} StepAsAlone<M(!new), W(!new)>(m: Machine<M, W>, group: seq<Call>, taken: seq<nat>, memories: seq<M>, w: W, i: nat)
    requires EachAsAlone(m, group, taken, memories, w) && Unfinished(m, group, taken, i) && ReadsOnly(m, group[i])
    ensures var next := m.step(group[i], memories[i], w);
            next.1 == w && EachAsAlone(m, group, taken[i := taken[i] + 1], memories[i := next.0], w)
  {
    ReadKeepsWorkspace(m, group[i], taken[i], w);
    ReadKeepsWorkspace(m, group[i], taken[i] + 1, w);
  }

  /** The calls of a group take their steps in any order whatever. */
  method RunTogether<M(!new), W(!new)>(m: Machine<M, W>, group: seq<Call>, workspace: W) returns (contents: seq<string>, w: W)
    requires forall i :: 0 <= i < |group| ==> ReadsOnly(m, group[i])
    ensures w == workspace && |contents| == |group|
    ensures forall i :: 0 <= i < |group| ==>
              contents[i] == m.content(group[i], AfterSteps(m, group[i], m.steps(group[i]), workspace).0)
  {
    hide ReadsOnly, Remaining;
    w := workspace;
    var memories := seq(|group|, i requires 0 <= i < |group| => m.start(group[i]));
    var taken: seq<nat> := seq(|group|, i => 0);
    RemainingIsNat(m, group, taken);
    while exists i: nat :: i < |group| && Unfinished(m, group, taken, i)
      invariant w == workspace && EachAsAlone(m, group, taken, memories, workspace)
      invariant Remaining(m, group, taken) >= 0
      decreases Remaining(m, group, taken)
    {
      var i: nat :| i < |group| && Unfinished(m, group, taken, i);
      StepAsAlone(m, group, taken, memories, w, i);
      OneStepLess(m, group, taken, i);
      var (memory, after) := m.step(group[i], memories[i], w);
      memories, w := memories[i := memory], after;
      taken := taken[i := taken[i] + 1];
      RemainingIsNat(m, group, taken);
    }
    forall i: nat | i < |group| ensures taken[i] == m.steps(group[i]) {
      assert !Unfinished(m, group, taken, i);
    }
    contents := seq(|group|, i requires 0 <= i < |group| => m.content(group[i], memories[i]));
  }

  /** A single call takes its steps alone. */
  method RunAlone<M, W>(m: Machine<M, W>, call: Call, workspace: W) returns (content: string, w: W)
    ensures w == AfterSteps(m, call, m.steps(call), workspace).1
    ensures content == m.content(call, AfterSteps(m, call, m.steps(call), workspace).0)
  {
    var memory := m.start(call);
    w := workspace;
    for n := 0 to m.steps(call)
      invariant (memory, w) == AfterSteps(m, call, n, workspace)
    {
      var next := m.step(call, memory, w);
      memory, w := next.0, next.1;
    }
    content := m.content(call, memory);
  }

  // ---- Scheduling ----

  predicate MayShare(tools: map<string, ToolInfo>, policy: Policy, call: Call) {
    IsIndependentRead(tools, call) && IsAllowedRead(Judge(policy, call))
  }

  /** The messages are the results of the calls run one at a time in order. */
  ghost predicate AsInOrder<M, W>(m: Machine<M, W>, calls: seq<Call>, w: W, out: seq<Message>) {
    && |out| <= |calls|
    && forall i :: 0 <= i < |out| ==> out[i] == ToolMessage(calls[i].id, calls[i].name, ContentAt(m, calls, i, w))
  }

  /** The longest run of shareable reads from position `start` on, within the limit. */
  method TakeReads(tools: map<string, ToolInfo>, policy: Policy, calls: seq<Call>, start: nat, limit: nat) returns (k: nat)
    requires start <= |calls|
    ensures k <= limit && start + k <= |calls| && forall i :: start <= i < start + k ==> MayShare(tools, policy, calls[i])
    ensures k < limit && start + k < |calls| ==> !MayShare(tools, policy, calls[start + k])
  {
    k := 0;
    while k < limit && start + k < |calls|
      invariant k <= limit && start + k <= |calls| && forall i :: start <= i < start + k ==> MayShare(tools, policy, calls[i])
    {
      if !MayShare(tools, policy, calls[start + k]) {
        break;
      }
      k := k + 1;
    }
  }

  /** Calls from `from` to `to` run together: one call, or shareable reads within the limit. */
  predicate IsGroup(tools: map<string, ToolInfo>, policy: Policy, calls: seq<Call>, from: nat, to: nat, maxParallelReads: int) {
    && from < to <= |calls| && to - from <= (if maxParallelReads < 1 then 1 else maxParallelReads)
    && (to - from > 1 ==> forall i :: from <= i < to ==> MayShare(tools, policy, calls[i]))
  }

  /** So far everything is as if the calls had been run one at a time in order. */
  ghost predicate InOrder<M, W>(m: Machine<M, W>, calls: seq<Call>, start: W, out: seq<Message>, w: W) {
    AsInOrder(m, calls, start, out) && w == WorkspaceAfter(m, calls, |out|, start)
  }

  /** A group of reads from where the calls stand. */
  method RunReads<M(!new), W(!new)>(m: Machine<M, W>, calls: seq<Call>, k: nat, out: seq<Message>, now: W, ghost start: W)
    returns (next: seq<Message>, w: W)
    requires InOrder(m, calls, start, out, now) && |out| + k <= |calls|
    requires forall i :: |out| <= i < |out| + k ==> ReadsOnly(m, calls[i])
    ensures InOrder(m, calls, start, next, w) && |next| == |out| + k
  {
    hide ReadsOnly, AfterSteps, WorkspaceAfter, ContentAt;
    var n := |out|;
    var group := calls[n..n + k];
    forall i | 0 <= i < k ensures ReadsOnly(m, group[i]) {
      assert group[i] == calls[n + i];
    }
    var contents;
    contents, w := RunTogether(m, group, now);
    ReadsKeepWorkspace(m, calls, n, n + k, start);
    var made := seq(k, i requires 0 <= i < k => ToolMessage(group[i].id, group[i].name, contents[i]));
    next := out + made;
    forall i | 0 <= i < k ensures made[i] == ToolMessage(calls[n + i].id, calls[n + i].name, ContentAt(m, calls, n + i, start)) {
      ReadsKeepWorkspace(m, calls, n, n + i, start);
      ContentIs(m, calls, n + i, start, now);
    }
    assert forall i :: n <= i < n + k ==> next[i] == made[i - n];
  }

  lemma {:induction false} ContentIs<M, W>(m: Machine<M, W>, calls: seq<Call>, i: nat, start: W, now: W)
    requires i < |calls| && WorkspaceAfter(m, calls, i, start) == now
    ensures ContentAt(m, calls, i, start) == m.content(calls[i], AfterSteps(m, calls[i], m.steps(calls[i]), now).0)
  {
  }

  lemma {:induction false} WorkspaceIs<M, W>(m: Machine<M, W>, calls: seq<Call>, i: nat, start: W, now: W)
    requires i < |calls| && WorkspaceAfter(m, calls, i, start) == now
    ensures WorkspaceAfter(m, calls, i + 1, start) == AfterSteps(m, calls[i], m.steps(calls[i]), now).1
  {
  }

  /** The next call by itself. */
  method RunNext<M, W>(m: Machine<M, W>, calls: seq<Call>, out: seq<Message>, now: W, ghost start: W) returns (next: seq<Message>, w: W)
    requires InOrder(m, calls, start, out, now) && |out| < |calls|
    ensures InOrder(m, calls, start, next, w) && |next| == |out| + 1
  {
    hide ReadsOnly, AfterSteps, ContentAt, WorkspaceAfter;
    var call := calls[|out|];
    var content;
    content, w := RunAlone(m, call, now);
    next := out + [ToolMessage(call.id, call.name, content)];
    ContentIs(m, calls, |out|, start, now);
    WorkspaceIs(m, calls, |out|, start, now);
    assert forall i :: 0 <= i < |out| ==> next[i] == out[i];
  }

  /**
   * Messages and workspace are those of running the calls one at a time in order, up to the first call that the policy
   * does not let through or to an abort, which both make the run fail.
   */
  method ExecuteScheduledToolCalls<M(!new), W(!new)>(m: Machine<M, W>, tools: map<string, ToolInfo>, policy: Policy,
                                                      calls: seq<Call>, maxParallelReads: int, workspace: W)
    returns (out: seq<Message>, w: W, ok: bool, ghost groups: seq<nat>)
    requires forall i :: 0 <= i < |calls| && IsAllowedRead(Judge(policy, calls[i])) ==> ReadsOnly(m, calls[i])
    ensures InOrder(m, calls, workspace, out, w)
    ensures ok ==> |out| == |calls|
    ensures AreGroups(tools, policy, calls, groups, |out|, maxParallelReads)
  {
    hide ReadsOnly, AfterSteps, WorkspaceAfter, ContentAt;
    out, w, groups := [], workspace, [0];
    NothingRun(m, calls, workspace);
    var limit := if maxParallelReads < 1 then 1 else maxParallelReads;
    while |out| < |calls|
      invariant |out| <= |calls| && InOrder(m, calls, workspace, out, w)
      invariant AreGroups(tools, policy, calls, groups, |out|, maxParallelReads)
      decreases |calls| - |out|
    {
      ghost var from := |out|;
      if * {
        return out, w, false, groups;
      }
      var k := TakeReads(tools, policy, calls, |out|, limit);
      if k > 0 {
        out, w := RunReads(m, calls, k, out, w, workspace);
      } else {
        if !Judge(policy, calls[|out|]).action.Allow? {
          return out, w, false, groups;
        }
        out, w := RunNext(m, calls, out, w, workspace);
      }
      assert IsGroup(tools, policy, calls, from, |out|, maxParallelReads);
      groups := groups + [|out|];
    }
    ok := true;
  }

  lemma {:induction false} NothingRun<M, W>(m: Machine<M, W>, calls: seq<Call>, w: W)
    ensures InOrder(m, calls, w, [], w)
  {
  }

  /** The groups follow each other from the first call to position `n`. */
  ghost predicate AreGroups(tools: map<string, ToolInfo>, policy: Policy, calls: seq<Call>, groups: seq<nat>, n: nat, maxParallelReads: int) {
    && |groups| > 0 && groups[0] == 0 && groups[|groups| - 1] == n
    && forall g :: 0 < g < |groups| ==> IsGroup(tools, policy, calls, groups[g - 1], groups[g], maxParallelReads)
  }
}
