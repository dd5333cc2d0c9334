/** The lifecycle-hook dispatcher: a fixed-window rate limit in front of a bounded set of pending jobs. */
module LifecycleHooks {

  /** Clock readings in milliseconds. */
  type Time = real

  const WINDOW: Time := 1000.0

  datatype Verdict = Dispatched | DroppedByRate | DroppedByBacklog | Ignored

  // ---- The rate limit as a function of the window ----

  datatype Limiter = Limiter(startedAt: Time, events: nat)

  function Rolled(l: Limiter, now: Time): Limiter {
    if now - l.startedAt >= WINDOW then Limiter(now, 0) else l
  }

  predicate Admits(l: Limiter, max: nat, now: Time) {
    Rolled(l, now).events < max
  }

  function Observe(l: Limiter, max: nat, now: Time): Limiter {
    var r := Rolled(l, now);
    if r.events < max then r.(events := r.events + 1) else r
  }

  class Dispatcher {
    const hooks: nat
    const maxPending: nat
    const maxEvents: nat
    var windowStartedAt: Time
    var windowEvents: nat
    var pending: nat
    var closed: bool

    function Window(): Limiter
      reads this
    {
      Limiter(windowStartedAt, windowEvents)
    }

    predicate Valid()
      reads this
    {
      pending <= maxPending && windowEvents <= maxEvents
    }

    constructor (hookCount: nat, pendingLimit: nat, rateLimit: nat, now: Time)
      ensures Valid() && Window() == Limiter(now, 0) && pending == 0 && !closed
      ensures hooks == hookCount && maxPending == pendingLimit && maxEvents == rateLimit
    {
      hooks, maxPending, maxEvents := hookCount, pendingLimit, rateLimit;
      windowStartedAt, windowEvents, pending, closed := now, 0, 0, false;
    }

    method AcceptRateLimit(now: Time) returns (ok: bool)
      requires Valid()
      modifies this`windowStartedAt, this`windowEvents
      ensures Valid() && ok == Admits(old(Window()), maxEvents, now) && Window() == Observe(old(Window()), maxEvents, now)
    {
      if now - windowStartedAt >= WINDOW {
        windowStartedAt := now;
        windowEvents := 0;
      }
      if windowEvents >= maxEvents {
        return false;
      }
      windowEvents := windowEvents + 1;
      ok := true;
    }

    /** The rate is charged before the backlog is looked at. `relevant`: the trace maps to a lifecycle event. */
    method Notify(relevant: bool, now: Time) returns (v: Verdict)
      requires Valid()
      modifies this
      ensures Valid() && closed == old(closed)
      ensures v == if old(closed) || hooks == 0 || !relevant then Ignored
                   else if !Admits(old(Window()), maxEvents, now) then DroppedByRate
                   else if old(pending) >= maxPending then DroppedByBacklog
                   else Dispatched
      ensures Window() == if v.Ignored? then old(Window()) else Observe(old(Window()), maxEvents, now)
      ensures pending == old(pending) + if v.Dispatched? then 1 else 0
    {
      if closed || hooks == 0 || !relevant {
        return Ignored;
      }
      var admitted := AcceptRateLimit(now);
      if !admitted {
        return DroppedByRate;
      }
      if pending >= maxPending {
        return DroppedByBacklog;
      }
      pending := pending + 1;
      v := Dispatched;
    }

    /** A job settled. */
    method Settle()
      requires Valid() && pending > 0
      modifies this`pending
      ensures Valid() && pending == old(pending) - 1
    {
      pending := pending - 1;
    }

    method Close()
      requires Valid()
      modifies this`closed
      ensures Valid() && closed
    {
      closed := true;
    }
  }

  // ---- How many events any span can let through ----

  predicate NonDecreasing(start: Time, times: seq<Time>) {
    && (|times| > 0 ==> start <= times[0])
    && forall i, j :: 0 <= i < j < |times| ==> times[i] <= times[j]
  }

  /** Accepted events among `times` that fall in [from, to). */
  function AcceptedIn(l: Limiter, max: nat, times: seq<Time>, from: Time, to: Time): nat
    decreases |times|
  {
    if |times| == 0 then 0
    else (if Admits(l, max, times[0]) && from <= times[0] < to then 1 else 0)
         + AcceptedIn(Observe(l, max, times[0]), max, times[1..], from, to)
  }

  lemma RestIsNonDecreasing(l: Limiter, max: nat, times: seq<Time>)
    requires |times| > 0 && NonDecreasing(l.startedAt, times)
    ensures NonDecreasing(times[0], times[1..]) && Observe(l, max, times[0]).startedAt <= times[0]
    ensures NonDecreasing(Observe(l, max, times[0]).startedAt, times[1..])
  {
  }

  lemma {:induction false} NothingAfterTheSpan(l: Limiter, max: nat, times: seq<Time>, from: Time, to: Time)
    requires NonDecreasing(l.startedAt, times) && (|times| > 0 ==> to <= times[0])
    ensures AcceptedIn(l, max, times, from, to) == 0
    decreases |times|
  {
    if |times| > 0 {
      RestIsNonDecreasing(l, max, times);
      NothingAfterTheSpan(Observe(l, max, times[0]), max, times[1..], from, to);
    }
  }

  /** Before the window ends, no more than what it has left; until a second after that, at most one window more. */
  lemma {:induction false} WindowBound(l: Limiter, max: nat, times: seq<Time>, from: Time, to: Time)
    requires NonDecreasing(l.startedAt, times) && l.events <= max
    ensures to <= l.startedAt + WINDOW ==> AcceptedIn(l, max, times, from, to) <= max - l.events
    ensures to <= l.startedAt + WINDOW + WINDOW ==> AcceptedIn(l, max, times, from, to) <= max - l.events + max
    ensures to - from <= WINDOW ==> AcceptedIn(l, max, times, from, to) <= 2 * max
    decreases |times|
  {
    if |times| > 0 {
      var now, next := times[0], Observe(l, max, times[0]);
      RestIsNonDecreasing(l, max, times);
      WindowBound(next, max, times[1..], from, to);
      if to <= now { NothingAfterTheSpan(l, max, times, from, to); }
      if from <= now < to && to - from <= WINDOW {
        assert to <= now + WINDOW <= next.startedAt + WINDOW + WINDOW;
      }
    }
  }

  // ---- The most any second can let through ----

  /**
   * The window that is open when the span begins lets its rest through; one opened inside the span lets all
   * its events through; and both may fall into one span. A window opened between the limiter's own and the
   * span has let through at least the event that opened it.
   */
  function MostIn(l: Limiter, max: nat, from: Time, to: Time): nat
    requires l.events <= max
  {
    if to <= l.startedAt + WINDOW then max - l.events
    else if from < l.startedAt + WINDOW then max - l.events + max
    else if to <= l.startedAt + WINDOW + WINDOW || max == 0 then max
    else 2 * max - 1
  }

  /** `from`, `to` lie within one second, not before the limiter's window. */
  predicate IsSpan(l: Limiter, from: Time, to: Time) {
    l.startedAt <= from < to <= from + WINDOW
  }

  lemma {:induction false} MostIsBound(l: Limiter, max: nat, times: seq<Time>, from: Time, to: Time)
    requires NonDecreasing(l.startedAt, times) && l.events <= max && IsSpan(l, from, to)
    ensures AcceptedIn(l, max, times, from, to) <= MostIn(l, max, from, to)
    decreases |times|
  {
    WindowBound(l, max, times, from, to);
    if |times| > 0 && from >= l.startedAt + WINDOW {
      var now, next := times[0], Observe(l, max, times[0]);
      RestIsNonDecreasing(l, max, times);
      WindowBound(next, max, times[1..], from, to);
      if now < from { MostIsBound(next, max, times[1..], from, to); }
    }
  }

  function Repeat(n: nat, t: Time): (r: seq<Time>)
    ensures |r| == n && forall i :: 0 <= i < n ==> r[i] == t
  {
    seq(n, _ => t)
  }

  /** As many events at once as the window has left are all accepted. */
  lemma {:induction false} BurstIsAccepted(l: Limiter, max: nat, n: nat, t: Time, rest: seq<Time>, from: Time, to: Time)
    requires l.startedAt <= t < l.startedAt + WINDOW && l.events + n == max && from <= t < to
    ensures AcceptedIn(l, max, Repeat(n, t) + rest, from, to) == n + AcceptedIn(Limiter(l.startedAt, max), max, rest, from, to)
    decreases n
  {
    var times := Repeat(n, t) + rest;
    if n == 0 {
      assert times == rest;
    } else {
      assert times[1..] == Repeat(n - 1, t) + rest;
      BurstIsAccepted(l.(events := l.events + 1), max, n - 1, t, rest, from, to);
    }
  }

  /** So is a whole window's worth once the old window is over. */
  lemma {:induction false} FreshBurstIsAccepted(l: Limiter, max: nat, t: Time, from: Time, to: Time)
    requires l.startedAt + WINDOW <= t && from <= t < to
    ensures AcceptedIn(l, max, Repeat(max, t), from, to) == max
  {
    if max > 0 {
      assert Repeat(max, t)[1..] == Repeat(max - 1, t) + [];
      BurstIsAccepted(Limiter(t, 1), max, max - 1, t, [], from, to);
    }
  }

  /** One event opens a window before the span, the span uses up that window and then a whole new one. */
  lemma {:induction false} StraddlingWindow(l: Limiter, max: nat, since: Time, from: Time, to: Time)
    requires max > 0 && l.startedAt + WINDOW <= since < from < since + WINDOW < to
    ensures var times := [since] + (Repeat(max - 1, from) + Repeat(max, since + WINDOW));
            NonDecreasing(l.startedAt, times) && AcceptedIn(l, max, times, from, to) == 2 * max - 1
  {
    var again := Repeat(max, since + WINDOW);
    var times := [since] + (Repeat(max - 1, from) + again);
    assert times[1..] == Repeat(max - 1, from) + again;
    assert Observe(l, max, since) == Limiter(since, 1);
    BurstIsAccepted(Limiter(since, 1), max, max - 1, from, again, from, to);
    FreshBurstIsAccepted(Limiter(since, max), max, since + WINDOW, from, to);
  }

  lemma {:induction false} MostIsReached(l: Limiter, max: nat, from: Time, to: Time) returns (times: seq<Time>)
    requires l.events <= max && IsSpan(l, from, to)
    ensures NonDecreasing(l.startedAt, times) && AcceptedIn(l, max, times, from, to) == MostIn(l, max, from, to)
  {
    var end := l.startedAt + WINDOW;
    if to <= end {
      times := Repeat(max - l.events, from);
      assert times + [] == times;
      BurstIsAccepted(l, max, max - l.events, from, [], from, to);
    } else if from < end {
      times := Repeat(max - l.events, from) + Repeat(max, end);
      BurstIsAccepted(l, max, max - l.events, from, Repeat(max, end), from, to);
      FreshBurstIsAccepted(Limiter(l.startedAt, max), max, end, from, to);
    } else if to <= end + WINDOW || max == 0 {
      times := Repeat(max, from);
      FreshBurstIsAccepted(l, max, from, from, to);
    } else {
      var earliest := if end < from - WINDOW then from - WINDOW else end;
      var since := (earliest + to - WINDOW) / 2.0;
      StraddlingWindow(l, max, since, from, to);
      times := [since] + (Repeat(max - 1, from) + Repeat(max, since + WINDOW));
    }
  }

  /**
   * Whether a span of up to a second is held to the limit, whatever arrives: when the limit is zero, the span
   * ends with the open window, that window is used up, no window can end inside the span, or the limit is one.
   */
  lemma {:induction false} LimitHoldsExactly(l: Limiter, max: nat, from: Time, to: Time)
    requires l.events <= max && IsSpan(l, from, to)
    ensures var end := l.startedAt + WINDOW;
            (forall times :: NonDecreasing(l.startedAt, times) ==> AcceptedIn(l, max, times, from, to) <= max) <==>
            || max == 0
            || to <= end
            || (from < end && l.events == max)
            || (from >= end && (to <= end + WINDOW || max == 1))
  {
    forall times | NonDecreasing(l.startedAt, times)
      ensures AcceptedIn(l, max, times, from, to) <= MostIn(l, max, from, to)
    {
      MostIsBound(l, max, times, from, to);
    }
    var worst := MostIsReached(l, max, from, to);
  }

  /** Any span up to a second lets through at most twice the per-second limit. */
  lemma {:induction false} AnySpanIsBounded(start: Time, max: nat, times: seq<Time>, from: Time, to: Time)
    requires NonDecreasing(start, times) && to - from <= WINDOW
    ensures AcceptedIn(Limiter(start, 0), max, times, from, to) <= 2 * max
  {
    WindowBound(Limiter(start, 0), max, times, from, to);
  }

  /** Twice the limit passes within two milliseconds, for every positive limit, at the end of the first window. */
  lemma {:induction false} BoundIsReached(start: Time, max: nat)
    requires max > 0
    ensures exists times :: NonDecreasing(start, times) &&
              AcceptedIn(Limiter(start, 0), max, times, start + 999.0, start + 1001.0) == 2 * max > max
  {
    var times := MostIsReached(Limiter(start, 0), max, start + 999.0, start + 1001.0);
  }
}
