/** The tool registry: registration, and replacing one category namespace in a single step. */
module ToolGateway {
  import opened Wrappers

  datatype Tool = Tool(name: string, category: Option<string>, body: nat)

  type Tools = map<string, Tool>

  predicate InCategory(t: Tool, prefix: string) {
    t.category.Some? && prefix <= t.category.value
  }

  /** Tools are filed under their own names. */
  predicate Filed(tools: Tools) {
    forall n :: n in tools ==> tools[n].name == n
  }

  predicate DistinctNames(defs: seq<Tool>) {
    forall i, j :: 0 <= i < j < |defs| ==> defs[i].name != defs[j].name
  }

  /** No incoming name belongs to a tool outside the category. */
  predicate NoCollision(tools: Tools, prefix: string, defs: seq<Tool>) {
    forall d :: d in defs && d.name in tools ==> InCategory(tools[d.name], prefix)
  }

  /** The registry after a replacement that was allowed. */
  function Replaced(tools: Tools, prefix: string, defs: seq<Tool>): Tools {
    AddAll(OutsideCategory(tools, prefix), defs)
  }

  function OutsideCategory(tools: Tools, prefix: string): (r: Tools)
    ensures forall n :: n in r <==> n in tools && !InCategory(tools[n], prefix)
    ensures forall n :: n in r ==> r[n] == tools[n]
  {
    map n | n in tools && !InCategory(tools[n], prefix) :: tools[n]
  }

  function AddAll(tools: Tools, defs: seq<Tool>): Tools {
    if |defs| == 0 then tools else AddAll(tools, defs[..|defs| - 1])[defs[|defs| - 1].name := defs[|defs| - 1]]
  }

  function ByCategory(tools: Tools, prefix: string): set<Tool> {
    set n | n in tools && InCategory(tools[n], prefix) :: tools[n]
  }

  lemma {:induction false} AddAllHolds(tools: Tools, defs: seq<Tool>)
    requires DistinctNames(defs)
    ensures forall d :: d in defs ==> d.name in AddAll(tools, defs) && AddAll(tools, defs)[d.name] == d
    ensures forall n :: n in AddAll(tools, defs) ==> n in tools || exists d :: d in defs && d.name == n
    ensures forall n :: n in tools && (forall d :: d in defs ==> d.name != n) ==> n in AddAll(tools, defs) && AddAll(tools, defs)[n] == tools[n]
    decreases |defs|
  {
    if |defs| > 0 {
      var init, x := defs[..|defs| - 1], defs[|defs| - 1];
      assert defs == init + [x];
      AddAllHolds(tools, init);
    }
  }

  /**
   * After a replacement by tools of the category, the category holds exactly those tools and everything
   * outside it is untouched.
   */
  lemma {:induction false} ReplacementIsExact(tools: Tools, prefix: string, defs: seq<Tool>)
    requires DistinctNames(defs) && NoCollision(tools, prefix, defs)
    requires forall d :: d in defs ==> InCategory(d, prefix)
    ensures var r := Replaced(tools, prefix, defs);
            && ByCategory(r, prefix) == (set d | d in defs)
            && OutsideCategory(r, prefix) == OutsideCategory(tools, prefix)
            && (Filed(tools) ==> Filed(r))
  {
    var kept, r := OutsideCategory(tools, prefix), Replaced(tools, prefix, defs);
    AddAllHolds(kept, defs);
    forall n | n in kept ensures n in r && r[n] == kept[n] {
      assert forall d :: d in defs ==> d.name != n;
    }
    forall n | n in r ensures (n in kept && r[n] == kept[n]) || (exists d :: d in defs && d.name == n && r[n] == d) {
    }
    forall d | d in defs ensures d in ByCategory(r, prefix) {
      assert r[d.name] == d;
    }
  }

  class Gateway {
    var tools: Tools

    constructor ()
      ensures tools == map[]
    {
      tools := map[];
    }

    method Register(definition: Tool) returns (ok: bool)
      modifies this
      ensures ok <==> definition.name !in old(tools)
      ensures tools == if ok then old(tools)[definition.name := definition] else old(tools)
    {
      ok := definition.name !in tools;
      if ok {
        tools := tools[definition.name := definition];
      }
    }

    /** Validates every incoming definition before touching the registry. */
    method ReplaceCategory(prefix: string, defs: seq<Tool>) returns (ok: bool)
      modifies this
      ensures ok <==> DistinctNames(defs) && NoCollision(old(tools), prefix, defs)
      ensures tools == if ok then Replaced(old(tools), prefix, defs) else old(tools)
    {
      var incoming: set<string> := {};
      for i := 0 to |defs|
        invariant incoming == set k | 0 <= k < i :: defs[k].name
        invariant DistinctNames(defs[..i]) && NoCollision(tools, prefix, defs[..i]) && tools == old(tools)
      {
        assert defs[..i + 1] == defs[..i] + [defs[i]];
        if defs[i].name in incoming {
          return false;
        }
        incoming := incoming + {defs[i].name};
        if defs[i].name in tools && !InCategory(tools[defs[i].name], prefix) {
          assert defs[i] in defs;
          return false;
        }
      }
      assert defs[..|defs|] == defs;
      tools := map n | n in tools && !InCategory(tools[n], prefix) :: tools[n];
      assert tools == OutsideCategory(old(tools), prefix);
      for i := 0 to |defs|
        invariant tools == AddAll(OutsideCategory(old(tools), prefix), defs[..i])
      {
        assert defs[..i + 1][..i] == defs[..i];
        tools := tools[defs[i].name := defs[i]];
      }
      ok := true;
    }
  }
}
