/** Where tool calls are judged and run. Results, and the errors that stop a call, are the environment's choice. */
module CallGateway {
  import opened Messages
  import opened Wrappers

  datatype Risk = ReadRisk | WriteRisk | ExecuteRisk | NetworkRisk

  datatype Action = Allow | Deny | Ask

  datatype Inspection = Inspection(risk: Risk, action: Action)

  /** The approval policy: what inspecting a call gives. Calls it does not list are never made. */
  type Policy = map<Call, Inspection>

  function Judge(policy: Policy, call: Call): Inspection {
    if call in policy then policy[call] else Inspection(NetworkRisk, Ask)
  }

  datatype ToolInfo = ToolInfo(risk: Risk, category: Option<string>)

  /** Stopped: an error came out, an abort or any other; whether the call had its effect is unknown. */
  datatype RunResult = Done(content: string) | Denied | NeedsApproval | Stopped

  /** A read whose category is neither an MCP server's nor a process. */
  predicate IsIndependentRead(tools: map<string, ToolInfo>, call: Call) {
    && call.name in tools && tools[call.name].risk.ReadRisk?
    && (tools[call.name].category.Some? ==>
          !("mcp:" <= tools[call.name].category.value) && tools[call.name].category.value != "process")
  }

  predicate IsAllowedRead(inspection: Inspection) {
    inspection.risk.ReadRisk? && inspection.action.Allow?
  }

  function Times(s: seq<Call>, c: Call): nat {
    if |s| == 0 then 0 else Times(s[..|s| - 1], c) + if s[|s| - 1] == c then 1 else 0
  }

  lemma {:induction false} TimesInParts(a: seq<Call>, b: seq<Call>, c: Call)
    ensures Times(a + b, c) == Times(a, c) + Times(b, c)
    decreases |b|
  {
    if |b| == 0 {
      assert a + b == a;
    } else {
      assert (a + b)[..|a + b| - 1] == a + b[..|b| - 1];
      TimesInParts(a, b[..|b| - 1], c);
    }
  }

  /** No call appears in `s` more often than in `cs`. */
  ghost predicate PickedFrom(s: seq<Call>, cs: seq<Call>) {
    forall c :: Times(s, c) <= Times(cs, c)
  }

  lemma {:induction false} PickedInParts(s: seq<Call>, u: seq<Call>, a: seq<Call>, b: seq<Call>)
    requires PickedFrom(s, a) && PickedFrom(u, b)
    ensures PickedFrom(s + u, a + b)
  {
    forall c ensures Times(s + u, c) <= Times(a + b, c) {
      TimesInParts(s, u, c);
      TimesInParts(a, b, c);
    }
  }

  predicate AllAllowed(calls: seq<Call>, policy: Policy) {
    forall i :: 0 <= i < |calls| ==> Judge(policy, calls[i]).action.Allow?
  }

  class Gateway {
    const policy: Policy
    var executed: seq<Call>

    constructor (p: Policy)
      ensures executed == [] && policy == p
    {
      policy, executed := p, [];
    }

    method Run(call: Call, approved: bool) returns (r: RunResult)
      modifies this
      ensures Judge(policy, call).action.Deny? <==> r.Denied?
      ensures Judge(policy, call).action.Ask? && !approved <==> r.NeedsApproval?
      ensures r.Done? ==> executed == old(executed) + [call]
      ensures r.Denied? || r.NeedsApproval? ==> executed == old(executed)
      ensures r.Stopped? ==> executed == old(executed) || executed == old(executed) + [call]
    {
      var inspection := Judge(policy, call);
      if inspection.action.Deny? {
        return Denied;
      }
      if inspection.action.Ask? && !approved {
        return NeedsApproval;
      }
      if * {
        return Stopped;
      }
      executed := executed + [call];
      if * {
        return Stopped;
      }
      var content: string := *;
      return Done(content);
    }

    /** Allowed calls started together; one error loses the results of all. */
    method RunTogether(calls: seq<Call>) returns (contents: seq<string>, stopped: bool, ghost ran: seq<Call>)
      requires AllAllowed(calls, policy)
      modifies this
      ensures executed == old(executed) + ran && AllAllowed(ran, policy)
      ensures if stopped then PickedFrom(ran, calls) else ran == calls && |contents| == |calls|
    {
      contents, stopped, ran := [], false, [];
      for i := 0 to |calls|
        invariant executed == old(executed) + ran && |contents| == i && AllAllowed(ran, policy)
        invariant PickedFrom(ran, calls[..i]) && (!stopped ==> ran == calls[..i])
      {
        assert calls[..i + 1] == calls[..i] + [calls[i]];
        assert old(executed) + ran + [calls[i]] == old(executed) + (ran + [calls[i]]);
        PickedInParts(ran, [calls[i]], calls[..i], [calls[i]]);
        PickedInParts(ran, [], calls[..i], [calls[i]]);
        assert ran + [] == ran;
        var r := Run(calls[i], false);
        if executed != old(executed) + ran {
          ran := ran + [calls[i]];
        }
        match r {
          case Done(content) => contents := contents + [content];
          case _ => stopped, contents := true, contents + [""];
        }
      }
      assert calls[..|calls|] == calls;
    }
  }
}
