/** How long a poll may hold its call, and what a client that cuts calls teaches. Times are milliseconds. */
module PollWindow {
  import opened Options

  const MAX_LONG_POLL_WAIT_MS := 3_600_000.0
  const SDK_DEFAULT_TOOL_TIMEOUT_MS := 60_000.0
  const POLL_WINDOW_MARGIN_MS := 5_000.0
  const MIN_POLL_WINDOW_MS := 1_000.0

  /** What the environment says: a usable `MCP_TOOL_TIMEOUT`, and the default of a client that named none. */
  datatype Window = Window(declaredMs: Option<real>, clientDefaultMs: Option<real>, observedMs: Option<real>)

  function FromEnvironment(toolTimeout: Option<real>, claudeCode: bool): Window {
    Window(if toolTimeout.Some? && toolTimeout.value > 0.0 then toolTimeout else None,
           if claudeCode then None else Some(SDK_DEFAULT_TOOL_TIMEOUT_MS), None)
  }

  function Ceiling(w: Window): Option<real> {
    if w.observedMs.Some? then w.observedMs
    else if w.declaredMs.Some? then w.declaredMs
    else w.clientDefaultMs
  }

  function Budget(w: Window): real {
    if Ceiling(w).None? then MAX_LONG_POLL_WAIT_MS
    else if Ceiling(w).value - POLL_WINDOW_MARGIN_MS >= MIN_POLL_WINDOW_MS then Ceiling(w).value - POLL_WINDOW_MARGIN_MS
    else 0.0
  }

  function Min(x: real, y: real): real { if x < y then x else y }

  /** The window a poll asking for `waitMs` is held for; none answers at once. */
  function Granted(w: Window, waitMs: real): Option<real> {
    if waitMs > 0.0 && Budget(w) > 0.0 then Some(Min(Min(waitMs, MAX_LONG_POLL_WAIT_MS), Budget(w))) else None
  }

  function Cut(w: Window, heldMs: real, timedOut: bool): Window {
    if !timedOut || heldMs <= 0.0 then w
    else if w.observedMs.None? || heldMs < w.observedMs.value then w.(observedMs := Some(heldMs))
    else w
  }

  /** A call that ended in a cut: how long it asked for, how long it was held, and whether the client timed out. */
  datatype Call = Call(waitMs: real, heldMs: real, timedOut: bool)

  /** The server answers a call inside the window it granted, so a call still held is held no longer than that. */
  ghost predicate HeldInside(w: Window, c: Call) {
    Granted(w, c.waitMs).Some? && c.heldMs <= Granted(w, c.waitMs).value
  }

  ghost predicate AllHeldInside(w: Window, calls: seq<Call>)
    decreases |calls|
  {
    calls == [] ||
    (HeldInside(w, calls[0]) && AllHeldInside(Cut(w, calls[0].heldMs, calls[0].timedOut), calls[1..]))
  }

  predicate Teaches(c: Call) { c.timedOut && c.heldMs > 0.0 }

  function Taught(calls: seq<Call>): nat {
    if calls == [] then 0 else (if Teaches(calls[0]) then 1 else 0) + Taught(calls[1..])
  }

  /** What was measured outranks what was declared, and that the default; a client that names no usable timeout gets
      one minute, and one known to wait gets none. */
  lemma MeasuredOutranksDeclared(w: Window, toolTimeout: Option<real>, claudeCode: bool)
    ensures w.observedMs.Some? ==> Ceiling(w) == w.observedMs
    ensures w.observedMs.None? && w.declaredMs.Some? ==> Ceiling(w) == w.declaredMs
    ensures w.observedMs.None? && w.declaredMs.None? ==> Ceiling(w) == w.clientDefaultMs
    ensures Ceiling(FromEnvironment(toolTimeout, claudeCode))
         == if toolTimeout.Some? && toolTimeout.value > 0.0 then toolTimeout
            else if claudeCode then None else Some(60000.0)
  {}

  /** A poll may hold its call this long: no longer than it asked for, an hour, or five seconds short of the ceiling. */
  ghost predicate MayHold(w: Window, waitMs: real, ms: real) {
    ms <= waitMs && ms <= 3600000.0 && (Ceiling(w).Some? ==> ms <= Ceiling(w).value - 5000.0)
  }

  /** The window granted is the longest there is, and a poll that waits gets one exactly if the ceiling leaves it a
      second. */
  lemma GrantedIsTheLongest(w: Window, waitMs: real)
    ensures Granted(w, waitMs).Some? <==> waitMs > 0.0 && (Ceiling(w).Some? ==> Ceiling(w).value >= 6000.0)
    ensures Granted(w, waitMs).Some? ==>
              MayHold(w, waitMs, Granted(w, waitMs).value)
              && forall ms: real :: MayHold(w, waitMs, ms) ==> ms <= Granted(w, waitMs).value
  {}

  function CutAll(w: Window, calls: seq<Call>): Window
    decreases |calls|
  {
    if calls == [] then w else CutAll(Cut(w, calls[0].heldMs, calls[0].timedOut), calls[1..])
  }

  /** What calls teach a fresh window, in whatever order: the shortest time a client let one be held. */
  lemma {:induction false} ShortestTimeoutIsMeasured(w: Window, calls: seq<Call>)
    ensures var t := CutAll(w, calls);
            && t.declaredMs == w.declaredMs && t.clientDefaultMs == w.clientDefaultMs
            && (forall c :: c in calls && c.timedOut && c.heldMs > 0.0 ==>
                  t.observedMs.Some? && t.observedMs.value <= c.heldMs)
            && (w.observedMs.Some? ==> t.observedMs.Some? && t.observedMs.value <= w.observedMs.value)
            && (t.observedMs == w.observedMs
                || exists c :: c in calls && c.timedOut && c.heldMs > 0.0 && t.observedMs == Some(c.heldMs))
    decreases |calls|
  {
    if calls != [] {
      var first, next := calls[0], Cut(w, calls[0].heldMs, calls[0].timedOut);
      ShortestTimeoutIsMeasured(next, calls[1..]);
      assert calls == [first] + calls[1..];
      if CutAll(w, calls).observedMs == next.observedMs != w.observedMs {
        assert first in calls && next.observedMs == Some(first.heldMs);
      }
    }
  }

  /** A cut inside the window lowers a known ceiling by the margin at least, and gives an unknown one a bound. */
  lemma CutLowersCeiling(w: Window, c: Call)
    requires HeldInside(w, c) && Teaches(c)
    ensures var t := Cut(w, c.heldMs, c.timedOut);
            && t.observedMs == Some(c.heldMs) && Ceiling(t) == Some(c.heldMs)
            && c.heldMs <= MAX_LONG_POLL_WAIT_MS
            && (Ceiling(w).Some? ==>
                  c.heldMs <= Ceiling(w).value - POLL_WINDOW_MARGIN_MS
                  && Ceiling(w).value >= POLL_WINDOW_MARGIN_MS + MIN_POLL_WINDOW_MS)
  {}

  lemma {:induction false} CutsCostMargins(w: Window, calls: seq<Call>)
    requires AllHeldInside(w, calls) && w.observedMs.Some?
    requires 0.0 < w.observedMs.value <= MAX_LONG_POLL_WAIT_MS
    ensures (Taught(calls) as real) * POLL_WINDOW_MARGIN_MS <= w.observedMs.value
    ensures Taught(calls) > 0 ==>
              (Taught(calls) as real) * POLL_WINDOW_MARGIN_MS <= w.observedMs.value - MIN_POLL_WINDOW_MS
    decreases |calls|
  {
    if calls != [] {
      var t := Cut(w, calls[0].heldMs, calls[0].timedOut);
      if Teaches(calls[0]) {
        CutLowersCeiling(w, calls[0]);
        CutsCostMargins(t, calls[1..]);
        assert (Taught(calls) as real) == 1.0 + (Taught(calls[1..]) as real);
      } else {
        CutsCostMargins(w, calls[1..]);
      }
    }
  }

  /** The window converges: whatever the environment declared, a client's timeouts teach it 720 times at most. */
  lemma {:induction false} WindowConverges(w: Window, calls: seq<Call>)
    requires AllHeldInside(w, calls) && w.observedMs.None?
    ensures Taught(calls) <= 720
    decreases |calls|
  {
    if calls != [] {
      var t := Cut(w, calls[0].heldMs, calls[0].timedOut);
      if Teaches(calls[0]) {
        CutLowersCeiling(w, calls[0]);
        CutsCostMargins(t, calls[1..]);
      } else {
        WindowConverges(w, calls[1..]);
      }
    }
  }

  /** A budget once zero stays zero: nothing is held for a client to cut. */
  lemma NoBudgetNoCut(w: Window, calls: seq<Call>)
    requires Budget(w) == 0.0 && AllHeldInside(w, calls)
    ensures calls == []
  {}

  /** No call inside its window widens the next one. */
  lemma BudgetNeverGrows(w: Window, c: Call)
    requires HeldInside(w, c)
    ensures Budget(Cut(w, c.heldMs, c.timedOut)) <= Budget(w)
  {}

  /** Outside that, a cut can raise the ceiling: exactly a first timeout longer than the ceiling the client or the
      SDK declared, since what was measured outranks it. */
  lemma CeilingRisesExactlyOnLateFirstCut(w: Window, heldMs: real, timedOut: bool)
    ensures (Ceiling(w).Some? && Ceiling(Cut(w, heldMs, timedOut)).value > Ceiling(w).value)
       <==> timedOut && heldMs > 0.0 && w.observedMs.None? && Ceiling(w).Some? && heldMs > Ceiling(w).value
  {}

  class PollWindow {
    const declaredMs: Option<real>
    const clientDefaultMs: Option<real>
    var observedMs: Option<real>

    function Now(): Window reads this { Window(declaredMs, clientDefaultMs, observedMs) }

    constructor (toolTimeout: Option<real>, claudeCode: bool)
      ensures Now() == FromEnvironment(toolTimeout, claudeCode)
    {
      declaredMs := if toolTimeout.Some? && toolTimeout.value > 0.0 then toolTimeout else None;
      clientDefaultMs := if claudeCode then None else Some(SDK_DEFAULT_TOOL_TIMEOUT_MS);
      observedMs := None;
    }

    method RecordCut(heldMs: real, timedOut: bool)
      modifies this
      ensures Now() == Cut(old(Now()), heldMs, timedOut)
    {
      if !timedOut || heldMs <= 0.0 { return; }
      if observedMs.None? || heldMs < observedMs.value { observedMs := Some(heldMs); }
    }
  }
}
