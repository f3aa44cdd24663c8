/** Markers written into a text and read back: which bodies the scanner keeps, and as which lines it reports them. */
module ActivityRoundTrip {
  import opened Text
  import opened ActivityScan
  import opened ActivityCuts
  import opened Sequences

  /** A marker as its author writes it, with the text in front of it. */
  datatype Marked = Marked(before: string, body: string)

  function Written(marked: seq<Marked>, after: string): string {
    if marked == [] then after
    else marked[0].before + ("%%%ACTIVITY:" + (marked[0].body + ("%%%" + Written(marked[1..], after))))
  }

  function BodiesOf(marked: seq<Marked>): (bodies: seq<string>)
    ensures |bodies| == |marked| && forall i :: 0 <= i < |bodies| ==> bodies[i] == marked[i].body
  {
    seq(|marked|, i requires 0 <= i < |marked| => marked[i].body)
  }

  /** One line of at most 478 characters that its closing sentinel ends, behind text that opens no marker itself. */
  ghost predicate WellMarked(m: Marked) {
    && IndexOf(m.before + "%%%ACTIVITY:", Opener) == |m.before|
    && IndexOf(m.body + "%%%", Closer) == |m.body| <= 478
    && forall i :: 0 <= i < |m.body| ==> !IsBreak(m.body[i])
  }

  ghost predicate WellWritten(marked: seq<Marked>, after: string) {
    (forall i :: 0 <= i < |marked| ==> WellMarked(marked[i])) && IndexOf(after, Opener) == -1
  }

  function Verdicts(bodies: seq<string>): (verdicts: seq<Verdict>)
    ensures |verdicts| == |bodies| && forall i :: 0 <= i < |bodies| ==> verdicts[i] == Kept(bodies[i])
  {
    seq(|bodies|, i requires 0 <= i < |bodies| => Kept(bodies[i]))
  }

  /** Behind the opener of a written marker its body is read, and what follows the marker stands behind it. */
  lemma MarkerReads(m: Marked, rest: string)
    requires WellMarked(m)
    ensures var text := m.before + ("%%%ACTIVITY:" + (m.body + ("%%%" + rest)));
            && IndexOf(text, Opener) != -1
            && var body := AfterOpener(text);
               Keeps(body) && !OnBoundary(body) && Body(body) == m.body && AfterClose(body) == rest
  {
    var tail := m.body + ("%%%" + rest);
    var text := m.before + ("%%%ACTIVITY:" + tail);
    Associates(m.before, "%%%ACTIVITY:", tail);
    IndexInPrefix(m.before + "%%%ACTIVITY:", tail, Opener);
    DropFront(m.before + "%%%ACTIVITY:", tail);
    Associates(m.body, "%%%", rest);
    IndexInPrefix(m.body + "%%%", rest, Closer);
    DropFront(m.body + "%%%", rest);
    assert (m.body + "%%%" + rest)[..|m.body|] == m.body;
    forall j: nat | j < |m.body| ensures !BreakAt(tail, j) { assert tail[j] == m.body[j]; }
    assert tail[|m.body|] == '%';
    assert !BreakAt(tail, |m.body|);
  }

  lemma {:induction false} ScanReadsWritten(reached: seq<Verdict>, marked: seq<Marked>, after: string)
    requires WellWritten(marked, after)
    ensures var st := State(Written(marked, after), false);
            && Run(reached, st) == Scan(reached + Verdicts(BodiesOf(marked)), State(Tail(after), false))
            && Steady(st)
    decreases |marked|
  {
    hide IndexOf, Keeps, OnBoundary, Tail, WellMarked, Body, AfterClose, AfterOpener, Disowns;
    if marked == [] {
      assert reached + Verdicts([]) == reached;
    } else {
      var m, rest := marked[0], Written(marked[1..], after);
      var text := Written(marked, after);
      MarkerReads(m, rest);
      var body := AfterOpener(text);
      ScanReadsWritten(reached + [Kept(m.body)], marked[1..], after);
      assert [Kept(m.body)] + Verdicts(BodiesOf(marked[1..])) == Verdicts(BodiesOf(marked));
      Associates(reached, [Kept(m.body)], Verdicts(BodiesOf(marked[1..])));
      KeptIsNotDisowned(body);
    }
  }

  lemma KeptIsNotDisowned(body: string)
    requires Keeps(body)
    ensures !Disowns(body)
  {}

  /** Reading undoes writing: however the text is cut into deltas, the scanner keeps exactly the bodies written, gives
      nothing up and holds at most the tail an opener can begin in. */
  lemma WrittenMarkersAreKept(marked: seq<Marked>, after: string, deltas: seq<string>)
    requires WellWritten(marked, after) && Concat(deltas) == Written(marked, after)
    ensures FeedAll(Fresh, deltas)
         == Scan(Verdicts(BodiesOf(marked)), State(if |after| <= 11 then after else after[|after| - 11..], false))
  {
    hide Run, Steady, Written, Undecided;
    var text := Written(marked, after);
    ScanReadsWritten([], marked, after);
    assert [] + Verdicts(BodiesOf(marked)) == Verdicts(BodiesOf(marked));
    assert Extended(Fresh.state, text) == State(text, false);
    FreshIsUndecided();
    FeedAllIsWhole(Fresh, deltas);
    if text == "" { NothingWritten(marked, after); }
  }

  lemma FreshIsUndecided()
    ensures Undecided(Fresh.state)
  {}

  lemma NothingWritten(marked: seq<Marked>, after: string)
    requires Written(marked, after) == ""
    ensures marked == [] && after == ""
  {}

  // The lines.

  predicate Spaces(s: string) { forall i :: 0 <= i < |s| ==> IsSpace(s[i]) }

  /** `core` is `s` without the white space at its ends. */
  ghost predicate Core(core: string, s: string) {
    && (core != "" ==> !IsSpace(core[0]) && !IsSpace(core[|core| - 1]))
    && exists front, back :: Spaces(front) && Spaces(back) && s == front + core + back
  }

  /** A body is reported as the first 120 characters of what stands between the white space at its ends. */
  ghost predicate ReportedAs(line: string, body: string) {
    exists core :: Core(core, body) && core != "" && line == if |core| <= 120 then core else core[..120]
  }

  /** The lines are those of the bodies, in order; a blank body has none. */
  ghost predicate Report(lines: seq<string>, bodies: seq<string>)
    decreases |bodies|
  {
    if bodies == [] then lines == []
    else
      var rest, last := bodies[..|bodies| - 1], bodies[|bodies| - 1];
      if Spaces(last) then Report(lines, rest)
      else lines != [] && ReportedAs(lines[|lines| - 1], last) && Report(lines[..|lines| - 1], rest)
  }

  lemma {:induction false} TrimStartCuts(s: string) returns (front: string)
    ensures Spaces(front) && s == front + TrimStart(s)
    ensures TrimStart(s) != "" ==> !IsSpace(TrimStart(s)[0])
    decreases |s|
  {
    hide IsSpace;
    if s == [] || !IsSpace(s[0]) {
      front := "";
      assert "" + s == s;
    } else {
      var rest := TrimStartCuts(s[1..]);
      front := [s[0]] + rest;
      Associates([s[0]], rest, TrimStart(s[1..]));
      assert s == [s[0]] + s[1..];
    }
  }

  lemma {:induction false} TrimEndCuts(s: string) returns (back: string)
    ensures Spaces(back) && s == TrimEnd(s) + back && |TrimEnd(s)| <= |s|
    ensures TrimEnd(s) != "" ==> TrimEnd(s)[0] == s[0] && !IsSpace(TrimEnd(s)[|TrimEnd(s)| - 1])
    decreases |s|
  {
    hide IsSpace;
    if s == [] || !IsSpace(s[|s| - 1]) {
      back := "";
      assert s + "" == s;
    } else {
      var front, last := s[..|s| - 1], s[|s| - 1];
      var rest := TrimEndCuts(front);
      back := rest + [last];
      Associates(TrimEnd(front), rest, [last]);
      assert s == front + [last];
    }
  }

  lemma TrimLeavesCore(s: string)
    ensures Core(Trim(s), s)
  {
    hide IsSpace, TrimStart, TrimEnd, Spaces;
    var front := TrimStartCuts(s);
    var back := TrimEndCuts(TrimStart(s));
    Associates(front, Trim(s), back);
    assert Spaces(front) && Spaces(back) && s == front + Trim(s) + back;
  }

  lemma CoreOfBlank(core: string, s: string)
    requires Core(core, s)
    ensures core == "" <==> Spaces(s)
  {
    hide IsSpace;
    var front, back :| Spaces(front) && Spaces(back) && s == front + core + back;
    if core != "" { assert s[|front|] == core[0]; }
  }

  lemma {:induction false} LinesReport(bodies: seq<string>)
    ensures Report(Lines(Verdicts(bodies)), bodies)
    decreases |bodies|
  {
    hide Spaces, Lines, LineIfAny, LineOf, ReportedAs;
    if bodies == [] {
      NoLines();
    } else {
      var rest, last := bodies[..|bodies| - 1], bodies[|bodies| - 1];
      LinesReport(rest);
      assert Verdicts(bodies) == Verdicts(rest) + [Kept(last)];
      LinesExtend(Verdicts(rest), Kept(last));
      LineReports(last);
      var before, line := Lines(Verdicts(rest)), LineIfAny(Kept(last));
      if Spaces(last) {
        assert before + [] == before;
      } else {
        assert (before + line)[..|before|] == before && (before + line)[|before|] == LineOf(last);
      }
    }
  }

  lemma NoLines()
    ensures Lines([]) == []
  {}

  lemma LineReports(body: string)
    ensures LineIfAny(Kept(body)) == if Spaces(body) then [] else [LineOf(body)]
    ensures !Spaces(body) ==> ReportedAs(LineOf(body), body)
  {
    hide IsSpace, Trim, Core, Spaces;
    TrimLeavesCore(body);
    CoreOfBlank(Trim(body), body);
  }

  /** The lines a stream of written markers reports are those of their bodies, wherever it is cut. */
  lemma WrittenMarkersAreReported(marked: seq<Marked>, after: string, deltas: seq<string>)
    requires WellWritten(marked, after) && Concat(deltas) == Written(marked, after)
    ensures Report(Lines(FeedAll(Fresh, deltas).verdicts), BodiesOf(marked))
  {
    WrittenMarkersAreKept(marked, after, deltas);
    LinesReport(BodiesOf(marked));
  }
}
