/** From the tokens of a message to the line a poll reports: the last marker stands. */
module ActivityLine {
  import opened Options
  import opened ActivityScan
  import opened ActivityCuts
  import opened ActivityReference
  import opened Sequences
  import SessionState

  /** A line with the instant its delta came. */
  datatype Stamped = Stamped(line: string, at: int)

  /** The line standing after some lines on top of what stood before them. */
  function Standing(before: Option<SessionState.Activity>, lines: seq<Stamped>): Option<SessionState.Activity> {
    if lines == [] then before
    else Some(SessionState.Activity(lines[|lines| - 1].line, lines[|lines| - 1].at, false))
  }

  /** What one delta adds to the lines of a stream. */
  function NewLines(s: Scan, delta: string): seq<string> {
    var before, after := Lines(s.verdicts), Lines(Feed(s, delta).verdicts);
    if |before| <= |after| then after[|before|..] else []
  }

  /** What happens to a session while a message comes in: its deltas, each at its instant, and what is between. */
  datatype Happening = Token(delta: string, at: int) | Between(event: SessionState.Event)

  function Deltas(happenings: seq<Happening>): seq<string> {
    if happenings == [] then []
    else (if happenings[0].Token? then [happenings[0].delta] else []) + Deltas(happenings[1..])
  }

  function Events(s: Scan, happenings: seq<Happening>): seq<SessionState.Event>
    decreases |happenings|
  {
    if happenings == [] then []
    else
      match happenings[0]
      case Token(delta, at) =>
        [SessionState.NotificationCame(SessionState.Delta(NewLines(s, delta)), at)]
        + Events(Feed(s, delta), happenings[1..])
      case Between(event) => [event] + Events(s, happenings[1..])
  }

  function Stamps(lines: seq<string>, at: int): (r: seq<Stamped>)
    ensures |r| == |lines| && forall i :: 0 <= i < |r| ==> r[i] == Stamped(lines[i], at)
  {
    seq(|lines|, i requires 0 <= i < |lines| => Stamped(lines[i], at))
  }

  /** The lines the deltas complete, each stamped with the instant of the delta that completed it. */
  function StampedLines(s: Scan, happenings: seq<Happening>): seq<Stamped>
    decreases |happenings|
  {
    if happenings == [] then []
    else
      match happenings[0]
      case Token(delta, at) => Stamps(NewLines(s, delta), at) + StampedLines(Feed(s, delta), happenings[1..])
      case Between(_) => StampedLines(s, happenings[1..])
  }

  function LinesOf(stamped: seq<Stamped>): (r: seq<string>)
    ensures |r| == |stamped| && forall i :: 0 <= i < |r| ==> r[i] == stamped[i].line
  {
    seq(|stamped|, i requires 0 <= i < |stamped| => stamped[i].line)
  }

  /** Neither a delta, a new turn, a hook's line nor a reviewer's verdict. */
  predicate SparesActivity(e: SessionState.Event) {
    e.NotificationCame? ==>
      !e.note.Delta? && !e.note.TurnStarted? && !e.note.HookRan? && (e.note.Reviewed? ==> e.note.verdict.None?)
  }

  ghost predicate AllSpare(happenings: seq<Happening>) {
    forall i :: 0 <= i < |happenings| && happenings[i].Between? ==> SparesActivity(happenings[i].event)
  }

  lemma {:induction false} LinesOfMore(reached: seq<Verdict>, more: seq<Verdict>)
    ensures Lines(reached) <= Lines(reached + more)
    decreases |more|
  {
    if more == [] {
      assert reached + more == reached;
    } else {
      var rest, all := more[..|more| - 1], reached + more;
      LinesOfMore(reached, rest);
      assert all[..|all| - 1] == reached + rest;
    }
  }

  lemma DeltaAddsLines(s: Scan, delta: string)
    ensures Lines(Feed(s, delta).verdicts) == Lines(s.verdicts) + NewLines(s, delta)
  {
    hide Lines, Run;
    var after := Feed(s, delta).verdicts;
    if delta != "" { RunOnlyAdds(s.verdicts, Extended(s.state, delta)); }
    LinesOfMore(s.verdicts, after[|s.verdicts|..]);
    assert s.verdicts + after[|s.verdicts|..] == after;
  }

  lemma DeltaStands(w: SessionState.World, lines: seq<string>, at: int)
    ensures SessionState.Step(w, SessionState.NotificationCame(SessionState.Delta(lines), at)).session.activity
         == Standing(w.session.activity, Stamps(lines, at))
  {
    hide SessionState.SignalOf, SessionState.DoneAll;
  }

  lemma {:induction false} ClosingSparesActivity(s: SessionState.Session, failing: set<SessionState.Rpc>)
    ensures SessionState.CloseAll(s, failing).activity == s.activity
    decreases |s.open|
  {
    if s.open != [] { ClosingSparesActivity(SessionState.CloseFirst(s, failing), failing); }
  }

  lemma Spared(w: SessionState.World, e: SessionState.Event)
    requires SparesActivity(e)
    ensures SessionState.Step(w, e).session.activity == w.session.activity
  {
    hide SessionState.SignalOf, SessionState.DoneAll, SessionState.CloseAll, SessionState.Without,
         SessionState.ThreadStatusAsks, SessionState.Unresolved;
    if e.CancelCalled? { ClosingSparesActivity(w.session.(status := SessionState.Cancelled), e.failing); }
    if e.ProcessLost? || e.SessionEvicted? { ClosingSparesActivity(w.session, e.failing); }
  }

  lemma StandingOnTop(before: Option<SessionState.Activity>, lines: seq<Stamped>, more: seq<Stamped>)
    ensures Standing(Standing(before, lines), more) == Standing(before, lines + more)
  {
    if more == [] { assert lines + more == lines; }
  }

  /** After anything that happens while a message comes in, the last line of the message so far stands, as of the
      delta that completed it. */
  lemma {:induction false} StreamStands(w: SessionState.World, s: Scan, happenings: seq<Happening>)
    requires AllSpare(happenings)
    ensures SessionState.RunAll(w, Events(s, happenings)).session.activity
         == Standing(w.session.activity, StampedLines(s, happenings))
    decreases |happenings|
  {
    hide Feed, SessionState.Step, NewLines, Standing, SparesActivity;
    if happenings == [] {
      NothingStands(w.session.activity);
    } else {
      var events, rest := Events(s, happenings), happenings[1..];
      var t := SessionState.Step(w, events[0]);
      match happenings[0]
      case Token(delta, at) =>
        var lines := NewLines(s, delta);
        assert events[1..] == Events(Feed(s, delta), rest);
        DeltaStands(w, lines, at);
        StreamStands(t, Feed(s, delta), rest);
        StandingOnTop(w.session.activity, Stamps(lines, at), StampedLines(Feed(s, delta), rest));
      case Between(event) =>
        assert events[1..] == Events(s, rest);
        Spared(w, event);
        StreamStands(t, s, rest);
    }
  }

  lemma NothingStands(before: Option<SessionState.Activity>)
    ensures Standing(before, []) == before
  {}

  lemma LinesOfJoins(a: seq<Stamped>, b: seq<Stamped>)
    ensures LinesOf(a + b) == LinesOf(a) + LinesOf(b)
  {}

  lemma LinesOfStamps(lines: seq<string>, at: int)
    ensures LinesOf(Stamps(lines, at)) == lines
  {}

  /** The lines stamped are those of the deltas. */
  lemma {:induction false} StampedAreTheLines(s: Scan, happenings: seq<Happening>)
    ensures Lines(FeedAll(s, Deltas(happenings)).verdicts) == Lines(s.verdicts) + LinesOf(StampedLines(s, happenings))
    decreases |happenings|
  {
    hide Lines, Feed, NewLines, LinesOf, Stamps;
    if happenings == [] {
      assert LinesOf([]) == [];
      assert Lines(s.verdicts) + [] == Lines(s.verdicts);
    } else {
      var rest, deltas := happenings[1..], Deltas(happenings);
      match happenings[0]
      case Token(delta, at) =>
        var t := Feed(s, delta);
        assert deltas[0] == delta && deltas[1..] == Deltas(rest);
        DeltaAddsLines(s, delta);
        StampedAreTheLines(t, rest);
        LinesOfJoins(Stamps(NewLines(s, delta), at), StampedLines(t, rest));
        LinesOfStamps(NewLines(s, delta), at);
        Associates(Lines(s.verdicts), NewLines(s, delta), LinesOf(StampedLines(t, rest)));
      case Between(_) =>
        assert deltas == Deltas(rest);
        StampedAreTheLines(s, rest);
    }
  }

  /** However the tokens of a message were cut and whatever came between them, the activity a poll reports at its
      end is the last marker of its text, as of the token that completed it, or what stood before where the text
      has none. */
  lemma StandingLineIsTheLastMarker(w: SessionState.World, happenings: seq<Happening>)
    requires AllSpare(happenings) && Steady(State(Concat(Deltas(happenings)), false))
    ensures var stamped := StampedLines(Fresh, happenings);
            && LinesOf(stamped) == LinesOfBodies(Markers([], Concat(Deltas(happenings))))
            && SessionState.RunAll(w, Events(Fresh, happenings)).session.activity
            == Standing(w.session.activity, stamped)
  {
    hide Markers, LinesOfBodies, FeedAll, Events, SessionState.RunAll, Steady, AllSpare, Standing, StampedLines,
         LinesOf;
    StreamReportsTheMarkers(Deltas(happenings));
    StampedAreTheLines(Fresh, happenings);
    var stamped := LinesOf(StampedLines(Fresh, happenings));
    assert Lines(Fresh.verdicts) == [] && [] + stamped == stamped;
    StreamStands(w, Fresh, happenings);
  }
}
