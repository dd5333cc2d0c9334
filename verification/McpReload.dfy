/** Generations of connections: reload swaps them, drains close them, over every interleaving. */
module McpReload {
  import opened ToolGateway
  import opened Wrappers

  // ---- One generation's drain ----

  /** `idle`: the promise the closing of resources waits for is resolved; `closes`: how often they were closed. */
  datatype Drain = Drain(active: nat, closing: bool, waiting: bool, idle: bool, closes: nat)

  const OPEN := Drain(0, false, false, false, 0)

  predicate DrainInvariant(d: Drain) {
    && d.closes <= 1
    && (d.closes == 1 ==> d.idle)
    && (d.idle ==> d.closing && d.active == 0)
    && (d.waiting <==> d.closing && d.active > 0)
    && (d.closing && d.active == 0 ==> d.idle)
  }

  function BeginSpec(d: Drain): Drain {
    if d.closing then d else d.(active := d.active + 1)
  }

  function EndSpec(d: Drain): Drain
    requires d.active > 0
  {
    if d.active == 1 then d.(active := 0, idle := d.idle || d.waiting, waiting := false)
    else d.(active := d.active - 1)
  }

  function CloseSpec(d: Drain): Drain {
    if d.closing then d
    else if d.active == 0 then d.(closing := true, idle := true)
    else d.(closing := true, waiting := true)
  }

  /** The continuation of the resolved idle promise; it runs once. */
  function ReleaseSpec(d: Drain): Drain {
    d.(closes := d.closes + 1)
  }

  class OperationDrain {
    var active: nat
    var closing: bool
    var closePromise: bool
    var resolveIdle: bool
    var idle: bool
    var closes: nat

    ghost function View(): Drain
      reads this
    {
      Drain(active, closing, resolveIdle, idle, closes)
    }

    ghost predicate Valid()
      reads this
    {
      DrainInvariant(View()) && closing == closePromise
    }

    constructor ()
      ensures Valid() && View() == OPEN
    {
      active, closing, closePromise, resolveIdle, idle, closes := 0, false, false, false, false, 0;
    }

    /** The part of `run` before the operation. */
    method Begin() returns (accepted: bool)
      requires Valid()
      modifies this
      ensures Valid() && View() == BeginSpec(old(View())) && accepted == !old(closing)
      ensures accepted ==> closes == 0
    {
      if closing {
        return false;
      }
      active := active + 1;
      accepted := true;
    }

    /** The part of `run` after the operation, however it ended. */
    method End()
      requires Valid() && active > 0
      modifies this
      ensures Valid() && View() == EndSpec(old(View()))
    {
      active := active - 1;
      if active == 0 {
        if resolveIdle {
          idle := true;
        }
        resolveIdle := false;
      }
    }

    method Close()
      requires Valid()
      modifies this
      ensures Valid() && View() == CloseSpec(old(View()))
    {
      closing := true;
      if !closePromise {
        closePromise := true;
        if active == 0 {
          idle := true;
        } else {
          resolveIdle := true;
        }
      }
    }

    method Release()
      requires Valid() && idle && closes == 0
      modifies this
      ensures Valid() && View() == ReleaseSpec(old(View())) && active == 0
    {
      closes := closes + 1;
    }
  }

  // ---- The host-level manager ----

  const PREFIX := "mcp:"

  datatype Generation = Generation(drain: Drain, tools: seq<Tool>)

  /** A rejected reload stays pending until the generation it prepared is closed. */
  datatype Reload = NoReload | Preparing | Rejecting(gen: nat)

  datatype Closing = NotCalled | AwaitingReload | Cleared

  datatype Manager = Manager(gens: seq<Generation>, current: nat, gateway: Tools, reload: Reload, closing: Closing)

  datatype Event =
    | OperationBegins(gen: nat)                              // through the manager, or a tool definition held since before a swap
    | OperationEnds(gen: nat)
    | ResourcesReleased(gen: nat)
    | HostRegisters(tool: Tool)
    | ReloadCalled
    | PrepareResolved(tools: seq<Tool>, failures: bool)
    | PrepareFailed
    | RejectionSettled
    | CloseCalled
    | CloseContinues

  /** What a staging registry hands over: distinct names, all in the category. */
  predicate Staged(tools: seq<Tool>) {
    DistinctNames(tools) && forall d :: d in tools ==> InCategory(d, PREFIX)
  }

  predicate Enabled(m: Manager, e: Event) {
    match e
    case OperationBegins(g) => g < |m.gens|
    case OperationEnds(g) => g < |m.gens| && m.gens[g].drain.active > 0
    case ResourcesReleased(g) => g < |m.gens| && m.gens[g].drain.idle && m.gens[g].drain.closes == 0
    case HostRegisters(t) => !InCategory(t, PREFIX)
    case ReloadCalled => true
    case PrepareResolved(tools, _) => m.reload.Preparing? && Staged(tools)
    case PrepareFailed => m.reload.Preparing?
    case RejectionSettled => m.reload.Rejecting? && m.reload.gen < |m.gens| && m.gens[m.reload.gen].drain.closes == 1
    case CloseCalled => true
    case CloseContinues => m.closing.AwaitingReload? && m.reload.NoReload?
  }

  function WithDrain(m: Manager, g: nat, d: Drain): Manager
    requires g < |m.gens|
  {
    m.(gens := m.gens[g := m.gens[g].(drain := d)])
  }

  /** Clears the category, then starts closing the current generation. */
  function Clear(m: Manager): Manager
    requires m.current < |m.gens|
  {
    WithDrain(m.(gateway := Replaced(m.gateway, PREFIX, []), closing := Cleared), m.current, CloseSpec(m.gens[m.current].drain))
  }

  predicate Accepts(m: Manager, tools: seq<Tool>, failures: bool) {
    !failures && m.closing.NotCalled? && DistinctNames(tools) && NoCollision(m.gateway, PREFIX, tools)
  }

  function Next(m: Manager, e: Event): Manager
    requires Enabled(m, e) && m.current < |m.gens|
  {
    match e
    case OperationBegins(g) => WithDrain(m, g, BeginSpec(m.gens[g].drain))
    case OperationEnds(g) => WithDrain(m, g, EndSpec(m.gens[g].drain))
    case ResourcesReleased(g) => WithDrain(m, g, ReleaseSpec(m.gens[g].drain))
    case HostRegisters(t) => if t.name in m.gateway then m else m.(gateway := m.gateway[t.name := t])
    case ReloadCalled => if m.closing.NotCalled? && m.reload.NoReload? then m.(reload := Preparing) else m
    case PrepareResolved(tools, failures) =>
      var g := |m.gens|;
      var added := m.(gens := m.gens + [Generation(OPEN, tools)]);
      if Accepts(m, tools, failures) then
        WithDrain(added.(gateway := Replaced(m.gateway, PREFIX, tools), current := g, reload := NoReload),
                  m.current, CloseSpec(m.gens[m.current].drain))
      else
        WithDrain(added.(reload := Rejecting(g)), g, CloseSpec(OPEN))
    case PrepareFailed => m.(reload := NoReload)
    case RejectionSettled => m.(reload := NoReload)
    case CloseCalled =>
      if !m.closing.NotCalled? then m else if m.reload.NoReload? then Clear(m) else m.(closing := AwaitingReload)
    case CloseContinues => Clear(m)
  }

  ghost predicate Invariant(m: Manager) {
    && m.current < |m.gens|
    && (forall g :: 0 <= g < |m.gens| ==> DrainInvariant(m.gens[g].drain))
    && (forall g :: 0 <= g < |m.gens| && g != m.current ==> m.gens[g].drain.closing)
    && (m.gens[m.current].drain.closing <==> m.closing.Cleared?)
    && ByCategory(m.gateway, PREFIX) == (if m.closing.Cleared? then {} else set d | d in m.gens[m.current].tools)
    && (m.closing.Cleared? ==> m.reload.NoReload?)
    && (m.reload.Rejecting? ==> m.reload.gen < |m.gens|)
    && Filed(m.gateway)
  }

  lemma {:induction false} ClearKeepsInvariant(m: Manager)
    requires Invariant(m) && m.reload.NoReload? && !m.closing.Cleared?
    ensures Invariant(Clear(m)) && OutsideCategory(Clear(m).gateway, PREFIX) == OutsideCategory(m.gateway, PREFIX)
  {
    ReplacementIsExact(m.gateway, PREFIX, []);
  }

  lemma {:induction false} StepKeepsInvariant(m: Manager, e: Event)
    requires Invariant(m) && Enabled(m, e)
    ensures Invariant(Next(m, e))
  {
    match e
    case HostRegisters(t) =>
      var r := Next(m, e).gateway;
      forall n | n in r && InCategory(r[n], PREFIX) ensures n in m.gateway && m.gateway[n] == r[n] {
      }
      assert ByCategory(r, PREFIX) == ByCategory(m.gateway, PREFIX);
    case PrepareResolved(tools, failures) =>
      if Accepts(m, tools, failures) { ReplacementIsExact(m.gateway, PREFIX, tools); }
    case CloseCalled =>
      if m.closing.NotCalled? && m.reload.NoReload? { ClearKeepsInvariant(m); }
    case CloseContinues => ClearKeepsInvariant(m);
    case _ =>
  }

  // ---- Safety over whole runs ----

  ghost predicate IsRun(m: Manager, events: seq<Event>)
    decreases |events|
  {
    m.current < |m.gens| &&
    (|events| == 0 || (Enabled(m, events[0]) && IsRun(Next(m, events[0]), events[1..])))
  }

  ghost function After(m: Manager, events: seq<Event>): Manager
    requires IsRun(m, events)
    decreases |events|
  {
    if |events| == 0 then m else After(Next(m, events[0]), events[1..])
  }

  /** A connected manager: one open generation whose tools are in the registry. */
  predicate Connected(m: Manager, before: Tools, tools: seq<Tool>) {
    && Staged(tools) && Filed(before) && ByCategory(before, PREFIX) == {} && NoCollision(before, PREFIX, tools)
    && m == Manager([Generation(OPEN, tools)], 0, Replaced(before, PREFIX, tools), NoReload, NotCalled)
  }

  lemma {:induction false} ConnectedIsSafe(m: Manager, before: Tools, tools: seq<Tool>)
    requires Connected(m, before, tools)
    ensures Invariant(m)
  {
    ReplacementIsExact(before, PREFIX, tools);
  }

  lemma {:induction false} RunsKeepInvariant(m: Manager, events: seq<Event>)
    requires Invariant(m) && IsRun(m, events)
    ensures Invariant(After(m, events))
    decreases |events|
  {
    if |events| > 0 {
      StepKeepsInvariant(m, events[0]);
      RunsKeepInvariant(Next(m, events[0]), events[1..]);
    }
  }

  /**
   * At every moment of every run: no operation is active on released connections and none can start there;
   * each generation is released at most once, only when idle, and once it is closing and idle its release is
   * due; the category holds exactly the current generation's tools, and nothing once the manager is closed.
   */
  lemma {:induction false} ReloadAndDrainAreSafe(m: Manager, before: Tools, tools: seq<Tool>, events: seq<Event>, g: nat)
    requires Connected(m, before, tools) && IsRun(m, events) && g < |After(m, events).gens|
    ensures var s := After(m, events);
            var d := s.gens[g].drain;
            && (d.closes > 0 ==> d.active == 0 && BeginSpec(d) == d)
            && d.closes <= 1
            && (d.closing && d.active == 0 && d.closes == 0 ==> Enabled(s, ResourcesReleased(g)))
            && (g != s.current ==> d.closing)
            && s.current < |s.gens|
            && ByCategory(s.gateway, PREFIX) == (if s.closing.Cleared? then {} else set t | t in s.gens[s.current].tools)
  {
    ConnectedIsSafe(m, before, tools);
    RunsKeepInvariant(m, events);
  }

  /** Only the host changes tools outside the category; a rejected swap changes no tool at all. */
  lemma {:induction false} SwapsTouchOnlyTheirCategory(m: Manager, e: Event)
    requires Invariant(m) && Enabled(m, e)
    ensures !e.HostRegisters? ==> OutsideCategory(Next(m, e).gateway, PREFIX) == OutsideCategory(m.gateway, PREFIX)
    ensures e.PrepareResolved? && !Accepts(m, e.tools, e.failures) ==>
              var s := Next(m, e);
              s.gateway == m.gateway && s.current == m.current && s.gens[..|m.gens|] == m.gens
  {
    match e
    case PrepareResolved(tools, failures) =>
      if Accepts(m, tools, failures) { ReplacementIsExact(m.gateway, PREFIX, tools); }
    case CloseCalled =>
      if m.closing.NotCalled? && m.reload.NoReload? { ClearKeepsInvariant(m); }
    case CloseContinues => ClearKeepsInvariant(m);
    case _ =>
  }

  /** Once cleared, the registry stays free of the category whatever happens. */
  lemma {:induction false} ClosedStaysClosed(m: Manager, events: seq<Event>)
    requires Invariant(m) && m.closing.Cleared? && IsRun(m, events)
    ensures After(m, events).closing.Cleared? && ByCategory(After(m, events).gateway, PREFIX) == {}
    decreases |events|
  {
    RunsKeepInvariant(m, events);
    if |events| > 0 {
      StepKeepsInvariant(m, events[0]);
      ClosedStaysClosed(Next(m, events[0]), events[1..]);
    }
  }

  /** How often `e` occurs. */
  function Count(events: seq<Event>, e: Event): nat {
    if events == [] then 0 else (if events[0] == e then 1 else 0) + Count(events[1..], e)
  }

  /** What one event does to a generation: its own events count, and any other may at most start its closing. */
  lemma {:induction false} StepOnGeneration(m: Manager, e: Event, g: nat)
    requires Invariant(m) && Enabled(m, e) && g < |m.gens|
    ensures Invariant(Next(m, e)) && g < |Next(m, e).gens| && Next(m, e).gens[g].tools == m.gens[g].tools
    ensures var d, later := m.gens[g].drain, Next(m, e).gens[g].drain;
            if e == OperationBegins(g) then later == BeginSpec(d)
            else if e == OperationEnds(g) then d.active > 0 && later == EndSpec(d)
            else if e == ResourcesReleased(g) then d.idle && d.closes == 0 && later == ReleaseSpec(d)
            else later == d || later == CloseSpec(d)
  {
    StepKeepsInvariant(m, e);
  }

  lemma ActiveMeans(m: Manager, g: nat)
    requires Invariant(m) && g < |m.gens| && m.gens[g].drain.active > 0
    ensures m.gens[g].drain.closes == 0 && Enabled(m, OperationEnds(g)) && !Enabled(m, ResourcesReleased(g))
  {
  }

  /** Over any run: while fewer operations of a generation have ended than were active, its connections stay open for the rest. */
  lemma {:induction false} ActiveOperationsOutlive(m: Manager, events: seq<Event>, g: nat)
    requires Invariant(m) && IsRun(m, events) && g < |m.gens| && Count(events, OperationEnds(g)) < m.gens[g].drain.active
    ensures var s := After(m, events);
            && g < |s.gens| && s.gens[g].tools == m.gens[g].tools
            && s.gens[g].drain.active >= m.gens[g].drain.active - Count(events, OperationEnds(g))
            && s.gens[g].drain.closes == 0 && Enabled(s, OperationEnds(g)) && !Enabled(s, ResourcesReleased(g))
    decreases |events|
  {
    hide Invariant, Next, Enabled, NoCollision;
    if |events| == 0 {
      ActiveMeans(m, g);
    } else {
      StepOnGeneration(m, events[0], g);
      ActiveMeans(m, g);
      ActiveOperationsOutlive(Next(m, events[0]), events[1..], g);
    }
  }

  /** Over any run: a closing generation counts its operations down to the last, which alone makes its one release due. */
  lemma {:induction false} ClosingCountsDown(m: Manager, events: seq<Event>, g: nat)
    requires Invariant(m) && IsRun(m, events) && g < |m.gens| && m.gens[g].drain.closing && m.gens[g].drain.closes == 0
    ensures CountedDown(m.gens[g].drain.active, After(m, events), events, g)
    decreases |events|
  {
    hide Invariant, Next, NoCollision;
    ReleaseDue(m, g);
    if |events| > 0 {
      StepOnGeneration(m, events[0], g);
      var next := Next(m, events[0]);
      if events[0] == ResourcesReleased(g) {
        ReleasedStays(next, events[1..], g);
      } else {
        ClosingCountsDown(next, events[1..], g);
      }
    }
  }

  lemma ReleaseDue(m: Manager, g: nat)
    requires Invariant(m) && g < |m.gens| && m.gens[g].drain.closing && m.gens[g].drain.closes == 0
    ensures Enabled(m, ResourcesReleased(g)) <==> m.gens[g].drain.active == 0
  {
  }

  /** Generation `g`, closing with `before` operations active, after the events `events`. */
  ghost predicate CountedDown(before: nat, s: Manager, events: seq<Event>, g: nat) {
    && g < |s.gens| && s.gens[g].drain.closing && s.gens[g].drain.active == before - Count(events, OperationEnds(g))
    && s.gens[g].drain.closes == Count(events, ResourcesReleased(g)) <= 1
    && (Enabled(s, ResourcesReleased(g)) <==> Count(events, OperationEnds(g)) == before && Count(events, ResourcesReleased(g)) == 0)
  }

  lemma ReleasedMeans(m: Manager, g: nat)
    requires Invariant(m) && g < |m.gens| && m.gens[g].drain.closes == 1
    ensures m.gens[g].drain.closing && m.gens[g].drain.active == 0
  {
  }

  lemma {:induction false} ReleasedStays(m: Manager, events: seq<Event>, g: nat)
    requires Invariant(m) && IsRun(m, events) && g < |m.gens| && m.gens[g].drain.closes == 1
    ensures g < |After(m, events).gens| && After(m, events).gens[g].drain == m.gens[g].drain && m.gens[g].drain.active == 0
    ensures Count(events, OperationEnds(g)) == Count(events, ResourcesReleased(g)) == 0
    decreases |events|
  {
    hide Invariant, Next, NoCollision;
    ReleasedMeans(m, g);
    if |events| > 0 {
      StepOnGeneration(m, events[0], g);
      ReleasedStays(Next(m, events[0]), events[1..], g);
    }
  }

  /**
   * A swap never cuts off work. Whatever happens after it, the connections of an operation begun before it stay open
   * until that operation ends; the generation that was swapped out takes no new ones and is released once, after the
   * last has ended.
   */
  lemma {:induction false} SwapKeepsActiveOperations(m: Manager, tools: seq<Tool>, failures: bool, events: seq<Event>, g: nat)
    requires Invariant(m) && Enabled(m, PrepareResolved(tools, failures)) && g < |m.gens| && m.gens[g].drain.active > 0
    requires IsRun(Next(m, PrepareResolved(tools, failures)), events)
    ensures var s := After(Next(m, PrepareResolved(tools, failures)), events);
            var before, ended := m.gens[g].drain.active, Count(events, OperationEnds(g));
            && g < |s.gens| && s.gens[g].tools == m.gens[g].tools
            && (ended < before ==> s.gens[g].drain.closes == 0 && Enabled(s, OperationEnds(g)) && !Enabled(s, ResourcesReleased(g)))
            && (g != m.current || Accepts(m, tools, failures) ==> CountedDown(before, s, events, g))
  {
    var next := Next(m, PrepareResolved(tools, failures));
    StepKeepsInvariant(m, PrepareResolved(tools, failures));
    ToolsStay(next, events, g);
    if Count(events, OperationEnds(g)) < m.gens[g].drain.active {
      ActiveOperationsOutlive(next, events, g);
    }
    if g != m.current || Accepts(m, tools, failures) {
      ClosingCountsDown(next, events, g);
    }
  }

  lemma {:induction false} ToolsStay(m: Manager, events: seq<Event>, g: nat)
    requires Invariant(m) && IsRun(m, events) && g < |m.gens|
    ensures g < |After(m, events).gens| && After(m, events).gens[g].tools == m.gens[g].tools
    decreases |events|
  {
    hide Invariant, Next, NoCollision;
    if |events| > 0 {
      StepOnGeneration(m, events[0], g);
      ToolsStay(Next(m, events[0]), events[1..], g);
    }
  }
}
