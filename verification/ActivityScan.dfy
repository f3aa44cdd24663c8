/** What the activity scanner decides on a text: which openers it enters and what becomes of each. */
module ActivityScan {
  import opened Text

  const MAX_ACTIVITY_LENGTH := 120
  const ACTIVITY_SCAN_LIMIT := 480

  /** What became of one opener the scanner entered. */
  datatype Verdict = Kept(body: string) | GivenUp

  datatype State = State(pending: string, inMarker: bool)

  /** The verdicts reached so far, oldest first, and the state the scanner stands in. */
  datatype Scan = Scan(verdicts: seq<Verdict>, state: State)

  const Fresh := Scan([], State("", false))

  /** A closing sentinel stands in the body before any line break. */
  predicate Closes(body: string) {
    0 <= IndexOf(body, Closer) &&
    (FirstBreak(body) == -1 || IndexOf(body, Closer) < FirstBreak(body))
  }

  predicate Keeps(body: string) {
    Closes(body) && IndexOf(body, Closer) <= ACTIVITY_SCAN_LIMIT
  }

  predicate Disowns(body: string) {
    !Keeps(body) && (FirstBreak(body) != -1 || |body| > ACTIVITY_SCAN_LIMIT)
  }

  /** The tail in which an opener cut across two deltas can live. */
  function Tail(s: string): string {
    if |s| <= Opener.Length() - 1 then s else s[|s| - (Opener.Length() - 1)..]
  }

  function AfterOpener(s: string): string
    requires 0 <= IndexOf(s, Opener)
  {
    s[IndexOf(s, Opener) + Opener.Length()..]
  }

  function AfterClose(body: string): string
    requires Keeps(body)
  {
    body[IndexOf(body, Closer) + Closer.Length()..]
  }

  function Body(body: string): string
    requires Keeps(body)
  {
    body[..IndexOf(body, Closer)]
  }

  /** Nothing can be decided until more text arrives. */
  predicate Undecided(st: State) {
    if st.inMarker then !Keeps(st.pending) && !Disowns(st.pending)
    else IndexOf(st.pending, Opener) == -1 && |st.pending| < Opener.Length()
  }

  /** Decide what can be decided of the text held, adding the verdicts to those reached before. */
  function Run(reached: seq<Verdict>, st: State): Scan
    decreases |st.pending|, st.inMarker
  {
    var p := st.pending;
    if !st.inMarker then
      if IndexOf(p, Opener) == -1 then Scan(reached, State(Tail(p), false))
      else Run(reached, State(AfterOpener(p), true))
    else if Keeps(p) then Run(reached + [Kept(Body(p))], State(AfterClose(p), false))
    else if Disowns(p) then Run(reached + [GivenUp], State(p, false))
    else Scan(reached, st)
  }

  /** One more delta; an empty one decides nothing. */
  function Feed(s: Scan, delta: string): Scan {
    if delta == "" then s else Run(s.verdicts, State(s.state.pending + delta, s.state.inMarker))
  }

  /** A stream of deltas, oldest first. */
  function FeedAll(s: Scan, deltas: seq<string>): Scan
    decreases |deltas|
  {
    if deltas == [] then s else FeedAll(Feed(s, deltas[0]), deltas[1..])
  }

  /** The line a kept body is reported as: trimmed, and cut to the cap. */
  function LineOf(body: string): string {
    var line := Trim(body);
    if |line| <= MAX_ACTIVITY_LENGTH then line else line[..MAX_ACTIVITY_LENGTH]
  }

  /** What one verdict reports; a blank body reports nothing. */
  function LineIfAny(v: Verdict): seq<string> {
    if v.Kept? && LineOf(v.body) != "" then [LineOf(v.body)] else []
  }

  /** The lines a run of verdicts reports, oldest first. */
  function Lines(verdicts: seq<Verdict>): seq<string> {
    if verdicts == [] then []
    else Lines(verdicts[..|verdicts| - 1]) + LineIfAny(verdicts[|verdicts| - 1])
  }

  lemma LinesExtend(reached: seq<Verdict>, v: Verdict)
    ensures Lines(reached + [v]) == Lines(reached) + LineIfAny(v)
  {
    assert (reached + [v])[..|reached|] == reached;
  }

  /** A scan stops only where nothing more can be decided, so what it holds stays bounded. */
  lemma {:induction false} RunEndsUndecided(reached: seq<Verdict>, st: State)
    ensures Undecided(Run(reached, st).state)
    decreases |st.pending|, st.inMarker
  {
    var p := st.pending;
    if !st.inMarker {
      if IndexOf(p, Opener) == -1 {
        forall j: nat | j + 12 <= |Tail(p)| ensures !OccursAt(Tail(p), Opener, j) {}
      } else {
        RunEndsUndecided(reached, State(AfterOpener(p), true));
      }
    } else if Keeps(p) {
      RunEndsUndecided(reached + [Kept(Body(p))], State(AfterClose(p), false));
    } else if Disowns(p) {
      RunEndsUndecided(reached + [GivenUp], State(p, false));
    }
  }

  /** Whatever the stream, at most 11 characters are held outside a marker and at most 480 inside one. */
  lemma {:induction false} FeedAllStaysBounded(s: Scan, deltas: seq<string>)
    requires Undecided(s.state)
    ensures var end := FeedAll(s, deltas).state;
            Undecided(end) && |end.pending| <= (if end.inMarker then ACTIVITY_SCAN_LIMIT else 11)
    decreases |deltas|
  {
    if deltas != [] {
      if deltas[0] != "" { RunEndsUndecided(s.verdicts, State(s.state.pending + deltas[0], s.state.inMarker)); }
      FeedAllStaysBounded(Feed(s, deltas[0]), deltas[1..]);
    }
  }
}
