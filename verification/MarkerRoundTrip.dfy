/** Markers written into an answer and stripped again: which text comes back. */
module MarkerRoundTrip {
  import opened Options
  import opened Text
  import opened ActivityScan
  import opened MarkerStripping
  import opened MarkerContent
  import opened MarkerTidying
  import opened ActivityRoundTrip
  import opened Sequences

  /** A marker inside a line, with the text behind it. */
  datatype Mark = Mark(body: string, after: string)

  /** One line of an answer as written: prose with markers in it, the last perhaps never closed; a closed marker with
      a line of its own; or one never closed. */
  datatype Part =
    | Prose(text: string, marks: seq<Mark>, open: Option<string>, end: string)
    | Own(lead: string, body: string, trail: string, end: string)
    | OwnOpen(lead: string, tail: string, end: string)

  const OPEN := "%%%ACTIVITY:"
  const CLOSE := "%%%"

  /** How far the strip has come. */
  datatype Stage = AsWritten | LinesCut | MarkersCut | OpenLinesCut | AllCut

  function MarksThen(marks: seq<Mark>, rest: string): string {
    if marks == [] then rest
    else OPEN + (marks[0].body + (CLOSE + (marks[0].after + MarksThen(marks[1..], rest))))
  }

  /** The text a line keeps. */
  function Kept(marks: seq<Mark>): string {
    if marks == [] then "" else marks[0].after + Kept(marks[1..])
  }

  function OpenThen(open: Option<string>, rest: string): string {
    if open.None? then rest else OPEN + (open.value + rest)
  }

  /** A line at a stage, with what follows it. */
  function LineAt(stage: Stage, p: Part, rest: string): string {
    match p
    case Prose(text, marks, open, end) =>
      if stage.AsWritten? || stage.LinesCut? then text + MarksThen(marks, OpenThen(open, end + rest))
      else if stage.AllCut? then text + (Kept(marks) + (end + rest))
      else text + (Kept(marks) + OpenThen(open, end + rest))
    case Own(lead, body, trail, end) =>
      if stage.AsWritten? then lead + (OPEN + (body + (CLOSE + (trail + (end + rest))))) else rest
    case OwnOpen(lead, tail, end) =>
      if stage.OpenLinesCut? || stage.AllCut? then rest else lead + (OPEN + (tail + (end + rest)))
  }

  function TextAt(stage: Stage, parts: seq<Part>): string {
    if parts == [] then "" else LineAt(stage, parts[0], TextAt(stage, parts[1..]))
  }

  /** The answer as written, and without the markers. */
  function AnswerWritten(parts: seq<Part>): string { TextAt(AsWritten, parts) }

  function AnswerMeant(parts: seq<Part>): string {
    if parts == [] then ""
    else (if parts[0].Prose? then parts[0].text + Kept(parts[0].marks) + parts[0].end else "") + AnswerMeant(parts[1..])
  }

  predicate OneLine(s: string) { forall i :: 0 <= i < |s| ==> !IsTerminator(s[i]) }

  predicate Blanks(s: string) { forall i :: 0 <= i < |s| ==> IsBlank(s[i]) }

  /** One line of at most 480 characters that its closing sentinel ends. */
  predicate Closed(body: string) { OneLine(body) && IndexOf(body + CLOSE, Closer) == |body| <= 480 }

  predicate NeverCloses(tail: string) { OneLine(tail) && IndexOf(tail, Closer) == -1 }

  predicate Ends(end: string, last: bool) { end == "\n" || end == "\r\n" || (last && end == "") }

  /** Prose opens no marker of its own, not even once the markers in it are gone, and starts with text before one. */
  ghost predicate WellMade(p: Part, last: bool) {
    && Ends(p.end, last)
    && match p
       case Prose(text, marks, open, _) =>
         && OneLine(text + Kept(marks)) && IndexOf(text + Kept(marks), Opener) == -1
         && (marks != [] || open.Some? ==> !Blanks(text))
         && (forall i :: 0 <= i < |marks| ==> Closed(marks[i].body))
         && (open.Some? ==> NeverCloses(open.value))
       case Own(lead, body, trail, _) => Blanks(lead) && Closed(body) && Blanks(trail)
       case OwnOpen(lead, tail, _) => Blanks(lead) && NeverCloses(tail)
  }

  ghost predicate AllWellMade(parts: seq<Part>) {
    forall i :: 0 <= i < |parts| ==> WellMade(parts[i], i == |parts| - 1)
  }

  // No opener where none is written.

  predicate NoOpenerIn(front: string, rest: string) {
    forall i: nat | i < |front| :: !OccursAt(front + rest, Opener, i)
  }

  lemma NoOpenerAtFence(front: string, rest: string)
    requires IndexOf(front, Opener) == -1
    requires rest == "" || IsBreak(rest[0]) || OccursAt(rest, Opener, 0)
    ensures NoOpenerIn(front, rest)
  {
    forall i: nat | i < |front| ensures !OccursAt(front + rest, Opener, i) {
      assert !OccursAt(front, Opener, i);
      assert rest != "" ==> (front + rest)[|front|] == rest[0];
    }
  }

  lemma PieceUnopened(whole: string, from: nat, to: nat)
    requires from <= to <= |whole| && IndexOf(whole, Opener) == -1
    ensures IndexOf(whole[from..to], Opener) == -1
  {
    var piece := whole[from..to];
    forall j: nat ensures !OccursAt(piece, Opener, j) {
      assert !OccursAt(whole, Opener, from + j);
    }
  }

  /** A text no opener starts in is passed by the patterns that match inside a line. */
  lemma PiecePassed(pass: Pass, b: bool, front: string, rest: string)
    requires WithinLine(pass) && NoOpenerIn(front, rest)
    ensures Replace(pass, b, front + rest) == front + Replace(pass, true, rest)
  {
    hide Replace;
    forall i: nat | i < |front| ensures Match(pass, BolAt(b, front, i), front[i..] + rest) == 0 {
      DropInFront(front, rest, i);
      assert OccursAt(front[i..] + rest, Opener, 0) == OccursAt(front + rest, Opener, i);
    }
    NothingMatches(pass, b, front, rest);
    BolIdle(pass, BolAt(b, front, |front|), true, rest);
  }

  lemma OpensHere(rest: string)
    ensures |OPEN + rest| >= 12 && OccursAt(OPEN + rest, Opener, 0) && (OPEN + rest)[12..] == rest
  {
    OccursAtMeansText(OPEN + rest, Opener, 0);
  }

  /** A closed marker is matched up to its closing sentinel. */
  lemma ClosedMatches(body: string, rest: string)
    requires Closed(body)
    ensures var s := OPEN + (body + (CLOSE + rest));
            ClosedRun(s) == 12 + |body| + 3 && s[12 + |body| + 3..] == rest
  {
    var tail := body + (CLOSE + rest);
    OpensHere(tail);
    Associates(body, CLOSE, rest);
    IndexInPrefix(body + CLOSE, rest, Closer);
    forall j: nat | j < |body| ensures !BreakAt(tail, j) { assert tail[j] == body[j]; }
    DropFront(OPEN + (body + CLOSE), rest);
    Associates(OPEN, body + CLOSE, rest);
  }

  /** One never closed on its line is no closed marker. */
  lemma OpenDoesNotClose(tail: string, rest: string)
    requires NeverCloses(tail) && (rest == "" || IsBreak(rest[0]))
    ensures ClosedRun(OPEN + (tail + rest)) == 0
  {
    var s := tail + rest;
    OpensHere(s);
    forall j: nat | j < |tail| ensures !OccursAt(s, Closer, j) {
      assert !OccursAt(tail, Closer, j);
      assert s[j] == tail[j];
      assert rest != "" ==> s[|tail|] == rest[0];
    }
    if rest != "" { assert s[|tail|] == rest[0] && BreakAt(s, |tail|); }
  }

  // The passes, line by line.

  lemma EndPassed(pass: Pass, b: bool, end: string, rest: string)
    requires (WithinLine(pass) || WithLine(pass)) && Ends(end, rest == "")
    ensures Replace(pass, b, end + rest) == end + Replace(pass, true, rest)
  {
    hide Replace;
    var s := end + rest;
    if end == "" {
      assert s == "";
      ReplaceNothing(pass, b);
      ReplaceNothing(pass, true);
    } else {
      BreakPassed(pass, b, s);
      if end == "\n" {
        assert s[1..] == rest;
      } else {
        assert s[1..] == "\n" + rest && ("\n" + rest)[1..] == rest;
        BreakPassed(pass, true, "\n" + rest);
        Associates("\r", "\n", Replace(pass, true, rest));
        assert "\r" + "\n" == end;
      }
    }
  }

  /** A line a whole-line pattern does not match is passed. */
  lemma LinePassed(pass: Pass, line: string, end: string, rest: string)
    requires WithLine(pass) && OneLine(line) && Ends(end, rest == "")
    requires Match(pass, true, line + (end + rest)) == 0
    ensures Replace(pass, true, line + (end + rest)) == line + (end + Replace(pass, true, rest))
  {
    hide Replace;
    var behind := end + rest;
    forall i: nat | i < |line| ensures Match(pass, BolAt(true, line, i), line[i..] + behind) == 0 {
      if i == 0 { assert line[0..] == line; } else { assert !IsTerminator(line[i - 1]); }
    }
    NothingMatches(pass, true, line, behind);
    EndPassed(pass, BolAt(true, line, |line|), end, rest);
  }

  lemma NoOpenerAtLineStart(text: string, rest: string)
    requires NoOpenerIn(text, rest) && (!Blanks(text) || rest == "" || IsBreak(rest[0]))
    ensures Match(FullLine, true, text + rest) == 0 && Match(FullLineUnclosed, true, text + rest) == 0
  {
    var s := text + rest;
    var b := BlankRun(s);
    assert !OccursAt(s, Opener, b) by {
      if Blanks(text) {
        BlanksRun(text, rest);
        assert rest != "" ==> s[|text|] == rest[0];
      } else {
        var i :| 0 <= i < |text| && !IsBlank(text[i]);
        assert s[i] == text[i];
      }
    }
    assert OccursAt(s[b..], Opener, 0) == OccursAt(s, Opener, b);
  }

  lemma {:induction false} MarksThenMore(marks: seq<Mark>, rest: string, more: string)
    ensures MarksThen(marks, rest + more) == MarksThen(marks, rest) + more
    decreases |marks|
  {
    if marks != [] {
      var m, behind := marks[0], MarksThen(marks[1..], rest);
      MarksThenMore(marks[1..], rest, more);
      Associates(m.after, behind, more);
      Associates(CLOSE, m.after + behind, more);
      Associates(m.body, CLOSE + (m.after + behind), more);
      Associates(OPEN, m.body + (CLOSE + (m.after + behind)), more);
    }
  }

  lemma {:induction false} MarksAreOneLine(marks: seq<Mark>, rest: string)
    requires OneLine(Kept(marks)) && OneLine(rest) && forall i :: 0 <= i < |marks| ==> Closed(marks[i].body)
    ensures OneLine(MarksThen(marks, rest))
    decreases |marks|
  {
    if marks != [] {
      hide Closed;
      var m := marks[0];
      assert Kept(marks) == m.after + Kept(marks[1..]);
      OneLineParts(m.after, Kept(marks[1..]));
      MarksAreOneLine(marks[1..], rest);
      assert OneLine(m.body) by { ClosedIsOneLine(m.body); }
      OpenIsOneLine();
      OneLineJoins(m.after, MarksThen(marks[1..], rest));
      OneLineJoins(CLOSE, m.after + MarksThen(marks[1..], rest));
      OneLineJoins(m.body, CLOSE + (m.after + MarksThen(marks[1..], rest)));
      OneLineJoins(OPEN, m.body + (CLOSE + (m.after + MarksThen(marks[1..], rest))));
    }
  }

  lemma ClosedIsOneLine(body: string)
    requires Closed(body)
    ensures OneLine(body)
  {}

  lemma OneLineParts(a: string, b: string)
    requires OneLine(a + b)
    ensures OneLine(a) && OneLine(b)
  {
    forall i | 0 <= i < |a| ensures !IsTerminator(a[i]) { assert (a + b)[i] == a[i]; }
    forall i | 0 <= i < |b| ensures !IsTerminator(b[i]) { assert (a + b)[|a| + i] == b[i]; }
  }

  lemma OneLineJoins(a: string, b: string)
    requires OneLine(a) && OneLine(b)
    ensures OneLine(a + b)
  {}

  /** What stands behind a line's text: a marker or its end. */
  lemma BehindText(marks: seq<Mark>, open: Option<string>, end: string, rest: string)
    requires Ends(end, rest == "")
    ensures var behind := MarksThen(marks, OpenThen(open, end + rest));
            && (behind == "" || IsBreak(behind[0]) || OccursAt(behind, Opener, 0))
            && (marks == [] && open.None? ==> behind == "" || IsBreak(behind[0]))
  {
    if marks != [] {
      OpensHere(marks[0].body + (CLOSE + (marks[0].after + MarksThen(marks[1..], OpenThen(open, end + rest)))));
    } else if open.Some? {
      OpensHere(open.value + (end + rest));
    }
  }

  lemma TextUnopened(text: string, more: string)
    requires IndexOf(text + more, Opener) == -1
    ensures IndexOf(text, Opener) == -1 && IndexOf(more, Opener) == -1
  {
    PieceUnopened(text + more, 0, |text|);
    PieceUnopened(text + more, |text|, |text + more|);
    assert (text + more)[0..|text|] == text && (text + more)[|text|..|text + more|] == more;
  }

  /** The first pass takes the closed markers with a line of their own and no other line. */
  lemma FirstPassOnLine(p: Part, rest: string)
    requires WellMade(p, rest == "")
    ensures Replace(FullLine, true, LineAt(AsWritten, p, rest)) == LineAt(LinesCut, p, Replace(FullLine, true, rest))
  {
    hide Replace, Match, OccursAt, IndexOf, IsTerminator, IsBreak;
    match p
    case Prose(text, marks, open, end) =>
      var behind := end + rest;
      var line := text + MarksThen(marks, OpenThen(open, ""));
      ProseLine(p, rest);
      BehindText(marks, open, end, rest);
      TextUnopened(text, Kept(marks));
      NoOpenerAtFence(text, MarksThen(marks, OpenThen(open, behind)));
      NoOpenerAtLineStart(text, MarksThen(marks, OpenThen(open, behind)));
      LinePassed(FullLine, line, end, rest);
      ProseLineThen(p, Replace(FullLine, true, rest));
    case Own(lead, body, trail, end) => OwnLineTaken(lead, body, trail, end, rest);
    case OwnOpen(lead, tail, end) =>
      var line := lead + (OPEN + tail);
      OwnOpenLine(lead, tail, end, rest);
      LinePassed(FullLine, line, end, rest);
      OwnOpenThen(lead, tail, end + Replace(FullLine, true, rest));
  }

  lemma ProseLineThen(p: Part, rest: string)
    requires p.Prose?
    ensures LineAt(LinesCut, p, rest) == p.text + MarksThen(p.marks, OpenThen(p.open, "")) + (p.end + rest)
    ensures LineAt(AsWritten, p, rest) == LineAt(LinesCut, p, rest)
  {
    var more := p.end + rest;
    MarksThenMore(p.marks, OpenThen(p.open, ""), more);
    assert OpenThen(p.open, "") + more == OpenThen(p.open, more) by {
      if p.open.Some? {
        assert p.open.value + "" == p.open.value;
        Associates(OPEN, p.open.value, more);
      }
    }
    Associates(p.text, MarksThen(p.marks, OpenThen(p.open, "")), more);
  }

  lemma ProseLine(p: Part, rest: string)
    requires p.Prose? && WellMade(p, rest == "")
    ensures var line := p.text + MarksThen(p.marks, OpenThen(p.open, ""));
            OneLine(line) && LineAt(AsWritten, p, rest) == line + (p.end + rest)
  {
    hide IsTerminator, IndexOf;
    ProseLineThen(p, rest);
    OneLineParts(p.text, Kept(p.marks));
    assert OneLine(OpenThen(p.open, "")) by {
      if p.open.Some? {
        assert p.open.value + "" == p.open.value;
        assert OneLine(OPEN) by { OpenIsOneLine(); }
        OneLineJoins(OPEN, p.open.value);
      }
    }
    MarksAreOneLine(p.marks, OpenThen(p.open, ""));
    OneLineJoins(p.text, MarksThen(p.marks, OpenThen(p.open, "")));
  }

  lemma OpenIsOneLine()
    ensures OneLine(OPEN) && OneLine(CLOSE)
  {}

  lemma BlanksBefore(lead: string, rest: string)
    requires Blanks(lead) && (rest == "" || !IsBlank(rest[0]))
    ensures BlankRun(lead + rest) == |lead| && (lead + rest)[|lead|..] == rest
  {
    BlanksRun(lead, rest);
    DropFront(lead, rest);
  }

  lemma EndRuns(end: string, rest: string)
    requires Ends(end, rest == "")
    ensures BreakRun(end + rest) == |end| && (end + rest)[|end|..] == rest
    ensures AtLineEnd(end + rest)
    ensures end + rest == "" || (IsBreak((end + rest)[0]) && !IsBlank((end + rest)[0]))
    ensures end != "" ==> IsTerminator((end + rest)[|end| - 1])
  {
    DropFront(end, rest);
    if end == "" { assert end + rest == ""; }
    else if end == "\r\n" { assert (end + rest)[0] == '\r' && (end + rest)[1] == '\n'; }
    else { assert (end + rest)[0] == '\n'; }
  }

  /** A match that ends with its line's end leaves the rest at a line start. */
  lemma TakenWhole(pass: Pass, s: string, k: nat, end: string, rest: string)
    requires (pass.FullLine? || pass.FullLineUnclosed?) && Ends(end, rest == "")
    requires k + |end| <= |s| && 0 < k && Match(pass, true, s) == k + |end|
    requires s[k..] == end + rest && s[k + |end|..] == rest
    ensures Replace(pass, true, s) == Replace(pass, true, rest)
  {
    hide Match, Replace;
    MatchTaken(pass, true, s);
    EndRuns(end, rest);
    if end == "" {
      ReplaceNothing(pass, true);
      ReplaceNothing(pass, IsTerminator(s[k - 1]));
    } else {
      assert s[k + |end| - 1] == s[k..][|end| - 1];
    }
  }

  /** Where a match of blanks, a marker, blanks and a line end stops. */
  lemma RunsAdd(s: string, lead: nat, a: string, m: nat, b: string, trail: nat, end: string, rest: string)
    requires lead <= |s| && s[lead..] == a && m <= |a| && a[m..] == b && trail <= |b| && b[trail..] == end + rest
    ensures var n := lead + m + trail + |end|;
            n <= |s| && s[lead + m + trail..] == end + rest && s[n..] == rest && s[lead + m..] == b
  {
    SliceOfSlice(s, lead, m);
    SliceOfSlice(s, lead + m, trail);
    var behind := s[lead + m + trail..];
    assert |behind| == |end| + |rest|;
    SliceOfSlice(s, lead + m + trail, |end|);
    DropFront(end, rest);
  }

  lemma ClosedLineMatches(s: string, lead: nat, a: string, m: nat, b: string, trail: nat, end: string, rest: string)
    requires lead <= |s| && s[lead..] == a && 0 < m <= |a| && a[m..] == b && trail <= |b| && b[trail..] == end + rest
    requires BlankRun(s) == lead && ClosedRun(a) == m && BlankRun(b) == trail && BreakRun(end + rest) == |end|
    ensures Match(FullLine, true, s) == lead + m + trail + |end|
  {
    hide *;
    RunsAdd(s, lead, a, m, b, trail, end, rest);
    ClosedLineRunIs(s, lead, m, trail);
    LineMatchIs(s);
  }

  lemma ClosedLineRunIs(s: string, lead: nat, m: nat, trail: nat)
    requires lead <= |s| && BlankRun(s) == lead && ClosedRun(s[lead..]) == m > 0
    requires lead + m <= |s| && BlankRun(s[lead + m..]) == trail && lead + m + trail <= |s|
    ensures ClosedLineRun(s) == lead + m + trail + BreakRun(s[lead + m + trail..])
  {
    hide BlankRun, ClosedRun, BreakRun;
  }

  lemma OpenLineRunIs(s: string, lead: nat, m: nat)
    requires lead <= |s| && BlankRun(s) == lead && UnclosedRun(s[lead..]) == m > 0 && lead + m <= |s|
    ensures UnclosedLineRun(s) == lead + m + BreakRun(s[lead + m..])
  {
    hide BlankRun, UnclosedRun, BreakRun;
  }

  lemma LineMatchIs(s: string)
    ensures Match(FullLine, true, s) == ClosedLineRun(s) && Match(FullLineUnclosed, true, s) == UnclosedLineRun(s)
  {
    hide ClosedLineRun, UnclosedLineRun;
  }

  lemma ClosedLineGoes(s: string, lead: nat, a: string, m: nat, b: string, trail: nat, end: string, rest: string)
    requires lead <= |s| && s[lead..] == a && 0 < m <= |a| && a[m..] == b && trail <= |b| && b[trail..] == end + rest
    requires BlankRun(s) == lead && ClosedRun(a) == m && BlankRun(b) == trail && BreakRun(end + rest) == |end|
    requires Ends(end, rest == "")
    ensures Replace(FullLine, true, s) == Replace(FullLine, true, rest)
  {
    hide *;
    ClosedLineMatches(s, lead, a, m, b, trail, end, rest);
    RunsAdd(s, lead, a, m, b, trail, end, rest);
    TakenWhole(FullLine, s, lead + m + trail, end, rest);
  }

  lemma OpenLineGoes(s: string, lead: nat, a: string, b: string, tail: nat, end: string, rest: string)
    requires lead <= |s| && s[lead..] == a && 12 <= |a| && a[12..] == b && tail <= |b| && b[tail..] == end + rest
    requires BlankRun(s) == lead && OccursAt(a, Opener, 0) && LineRun(b) == tail && BreakRun(end + rest) == |end|
    requires Ends(end, rest == "")
    ensures Replace(FullLineUnclosed, true, s) == Replace(FullLineUnclosed, true, rest)
  {
    hide *;
    OpenLineMatches(s, lead, a, b, tail, end, rest);
    RunsAdd(s, lead, a, 12, b, tail, end, rest);
    TakenWhole(FullLineUnclosed, s, lead + 12 + tail, end, rest);
  }

  lemma ClosedLineTaken(lead: string, marker: string, m: nat, trail: string, end: string, rest: string)
    requires Blanks(lead) && Blanks(trail) && Ends(end, rest == "")
    requires 0 < m <= |marker| && !IsBlank(marker[0]) && ClosedRun(marker) == m && marker[m..] == trail + (end + rest)
    ensures Replace(FullLine, true, lead + marker) == Replace(FullLine, true, rest)
  {
    hide *;
    var s, behind := lead + marker, end + rest;
    BlanksBefore(lead, marker);
    EndRuns(end, rest);
    BlanksBefore(trail, behind);
    ClosedLineGoes(s, |lead|, marker, m, trail + behind, |trail|, end, rest);
  }

  lemma OwnLineTaken(lead: string, body: string, trail: string, end: string, rest: string)
    requires Blanks(lead) && Closed(body) && Blanks(trail) && Ends(end, rest == "")
    ensures Replace(FullLine, true, lead + (OPEN + (body + (CLOSE + (trail + (end + rest))))))
         == Replace(FullLine, true, rest)
  {
    hide *;
    var after := trail + (end + rest);
    OpenIsNotBlank(body + (CLOSE + after));
    ClosedMatches(body, after);
    ClosedLineTaken(lead, OPEN + (body + (CLOSE + after)), 12 + |body| + 3, trail, end, rest);
  }

  lemma OpenIsNotBlank(rest: string)
    ensures !IsBlank((OPEN + rest)[0])
  {}

  lemma OwnOpenThen(lead: string, tail: string, rest: string)
    ensures lead + (OPEN + tail) + rest == lead + (OPEN + (tail + rest))
  {
    Associates(OPEN, tail, rest);
    Associates(lead, OPEN + tail, rest);
  }

  lemma OwnOpenLine(lead: string, tail: string, end: string, rest: string)
    requires Blanks(lead) && NeverCloses(tail) && Ends(end, rest == "")
    ensures var line := lead + (OPEN + tail);
            && OneLine(line) && line + (end + rest) == lead + (OPEN + (tail + (end + rest)))
            && Match(FullLine, true, line + (end + rest)) == 0
  {
    hide IndexOf, OccursAt, BlankRun, BreakRun, ClosedRun;
    var behind := end + rest;
    OwnOpenThen(lead, tail, behind);
    assert OneLine(lead);
    OpenIsOneLine();
    OneLineJoins(OPEN, tail);
    OneLineJoins(lead, OPEN + tail);
    OpenIsNotBlank(tail + behind);
    BlanksBefore(lead, OPEN + (tail + behind));
    EndRuns(end, rest);
    OpenDoesNotClose(tail, behind);
  }

  lemma OpenLineMatches(s: string, lead: nat, a: string, b: string, tail: nat, end: string, rest: string)
    requires lead <= |s| && s[lead..] == a && 12 <= |a| && a[12..] == b && tail <= |b| && b[tail..] == end + rest
    requires BlankRun(s) == lead && OccursAt(a, Opener, 0) && LineRun(b) == tail && BreakRun(end + rest) == |end|
    ensures Match(FullLineUnclosed, true, s) == lead + 12 + tail + |end|
  {
    hide *;
    RunsAdd(s, lead, a, 12, b, tail, end, rest);
    UnclosedRunIs(a, tail);
    OpenLineRunIs(s, lead, 12 + tail);
    LineMatchIs(s);
  }

  lemma UnclosedRunIs(a: string, tail: nat)
    requires 12 <= |a| && OccursAt(a, Opener, 0) && LineRun(a[12..]) == tail
    ensures UnclosedRun(a) == 12 + tail
  {
    hide LineRun, OccursAt;
  }

  lemma OpenLineTaken(lead: string, marker: string, tail: string, end: string, rest: string)
    requires Blanks(lead) && Unbroken(tail) && Ends(end, rest == "")
    requires |marker| >= 12 && !IsBlank(marker[0]) && OccursAt(marker, Opener, 0) && marker[12..] == tail + (end + rest)
    ensures Replace(FullLineUnclosed, true, lead + marker) == Replace(FullLineUnclosed, true, rest)
  {
    hide *;
    var s, behind := lead + marker, end + rest;
    BlanksBefore(lead, marker);
    EndRuns(end, rest);
    LineRunOnLine(tail, behind);
    DropFront(tail, behind);
    OpenLineGoes(s, |lead|, marker, tail + behind, |tail|, end, rest);
  }

  lemma NeverClosesIsUnbroken(tail: string)
    requires NeverCloses(tail)
    ensures Unbroken(tail)
  {}

  lemma OwnOpenTaken(lead: string, tail: string, end: string, rest: string)
    requires Blanks(lead) && NeverCloses(tail) && Ends(end, rest == "")
    ensures Replace(FullLineUnclosed, true, lead + (OPEN + (tail + (end + rest))))
         == Replace(FullLineUnclosed, true, rest)
  {
    hide *;
    var behind := tail + (end + rest);
    OpenIsNotBlank(behind);
    OpensHere(behind);
    NeverClosesIsUnbroken(tail);
    OpenLineTaken(lead, OPEN + behind, tail, end, rest);
  }

  /** An opener left open is passed by the pattern of a closed marker, and so is its line. */
  lemma OpenPassed(b: bool, tail: string, end: string, rest: string)
    requires NeverCloses(tail) && Ends(end, rest == "")
    ensures Replace(Inline, b, OPEN + (tail + (end + rest))) == OPEN + (tail + (end + Replace(Inline, true, rest)))
  {
    hide Replace, ClosedRun;
    var behind := end + rest;
    var front := OPEN + tail;
    Associates(OPEN, tail, behind);
    EndRuns(end, rest);
    OpenDoesNotClose(tail, behind);
    forall i: nat | i < |front| ensures Match(Inline, BolAt(b, front, i), front[i..] + behind) == 0 {
      DropInFront(front, behind, i);
      if i == 0 {
        assert front[0..] == front;
      } else {
        OpenerOnlyInFront(tail, behind, i);
        NoClosedRun((front + behind)[i..]);
      }
    }
    NothingMatches(Inline, b, front, behind);
    EndPassed(Inline, BolAt(b, front, |front|), end, rest);
    Associates(OPEN, tail, end + Replace(Inline, true, rest));
  }

  lemma NoClosedRun(s: string)
    requires !OccursAt(s, Opener, 0)
    ensures ClosedRun(s) == 0 && UnclosedRun(s) == 0
  {}

  lemma OpenerOnlyInFront(tail: string, behind: string, i: nat)
    requires IndexOf(tail, Closer) == -1 && 0 < i < 12 + |tail| && (behind == "" || IsBreak(behind[0]))
    ensures !OccursAt((OPEN + tail + behind)[i..], Opener, 0)
  {
    var s := OPEN + tail + behind;
    assert OccursAt(s[i..], Opener, 0) == OccursAt(s, Opener, i);
    if i >= 12 {
      assert !OccursAt(tail, Closer, i - 12);
      assert behind != "" ==> s[12 + |tail|] == behind[0];
      assert forall j :: 0 <= j < |tail| ==> s[12 + j] == tail[j];
    } else {
      assert s[0] == '%' && s[1] == '%' && s[2] == '%' && s[3] == 'A' && s[4] == 'C' && s[5] == 'T' && s[6] == 'I';
      assert s[7] == 'V' && s[8] == 'I' && s[9] == 'T' && s[10] == 'Y' && s[11] == ':';
    }
  }

  lemma MarkGoes(b: bool, body: string, rest: string)
    requires Closed(body)
    ensures Replace(Inline, b, OPEN + (body + (CLOSE + rest))) == Replace(Inline, true, rest)
  {
    hide Replace, ClosedRun, IndexOf;
    var s := OPEN + (body + (CLOSE + rest));
    ClosedMatches(body, rest);
    InlineTaken(b, s);
    BolIdle(Inline, IsTerminator(s[12 + |body| + 3 - 1]), true, rest);
  }

  lemma InlineTaken(b: bool, s: string)
    requires ClosedRun(s) > 0
    ensures Replace(Inline, b, s) == Replace(Inline, IsTerminator(s[ClosedRun(s) - 1]), s[ClosedRun(s)..])
  {
    hide ClosedRun;
  }

  /** The inline pass takes the markers of a line and leaves its text. */
  lemma {:induction false} MarksGo(text: string, marks: seq<Mark>, open: Option<string>, end: string, rest: string)
    requires IndexOf(text + Kept(marks), Opener) == -1 && Ends(end, rest == "")
    requires (forall i :: 0 <= i < |marks| ==> Closed(marks[i].body)) && (open.Some? ==> NeverCloses(open.value))
    ensures Replace(Inline, true, text + MarksThen(marks, OpenThen(open, end + rest)))
         == text + (Kept(marks) + OpenThen(open, end + Replace(Inline, true, rest)))
    decreases |marks|
  {
    hide Replace, IndexOf, Closed, OccursAt, NeverCloses, IsBreak;
    var behind := OpenThen(open, end + rest);
    BehindText(marks, open, end, rest);
    TextUnopened(text, Kept(marks));
    NoOpenerAtFence(text, MarksThen(marks, behind));
    PiecePassed(Inline, true, text, MarksThen(marks, behind));
    if marks == [] {
      if open.Some? { OpenPassed(true, open.value, end, rest); } else { EndPassed(Inline, true, end, rest); }
      assert Kept(marks) + OpenThen(open, end + Replace(Inline, true, rest))
          == OpenThen(open, end + Replace(Inline, true, rest));
    } else {
      var m, others := marks[0], marks[1..];
      MarkGoes(true, m.body, m.after + MarksThen(others, behind));
      TextUnopened(text, Kept(marks));
      MarksGo(m.after, others, open, end, rest);
      Associates(m.after, Kept(others), OpenThen(open, end + Replace(Inline, true, rest)));
    }
  }

  lemma SecondPassOnLine(p: Part, rest: string)
    requires WellMade(p, rest == "")
    ensures Replace(Inline, true, LineAt(LinesCut, p, rest)) == LineAt(MarkersCut, p, Replace(Inline, true, rest))
  {
    hide Replace, Match, OccursAt, IndexOf, IsTerminator, IsBreak;
    match p
    case Prose(text, marks, open, end) => MarksGo(text, marks, open, end, rest);
    case Own(_, _, _, _) =>
    case OwnOpen(lead, tail, end) =>
      OpensHere(tail + (end + rest));
      BlanksUnopened(lead);
      NoOpenerAtFence(lead, OPEN + (tail + (end + rest)));
      PiecePassed(Inline, true, lead, OPEN + (tail + (end + rest)));
      OpenPassed(true, tail, end, rest);
  }

  lemma BlanksUnopened(lead: string)
    requires Blanks(lead)
    ensures IndexOf(lead, Opener) == -1
  {
    forall j: nat ensures !OccursAt(lead, Opener, j) {}
  }

  lemma ThirdPassOnLine(p: Part, rest: string)
    requires WellMade(p, rest == "")
    ensures Replace(FullLineUnclosed, true, LineAt(MarkersCut, p, rest))
         == LineAt(OpenLinesCut, p, Replace(FullLineUnclosed, true, rest))
  {
    hide Replace, Match, OccursAt, IndexOf, IsTerminator, IsBreak;
    match p
    case Prose(text, marks, open, end) =>
      var kept := text + Kept(marks);
      var line := kept + OpenThen(open, "");
      KeptLine(p, rest);
      BehindText([], open, end, rest);
      NoOpenerAtFence(kept, OpenThen(open, end + rest));
      if marks != [] || open.Some? { TextIsNotBlank(text, Kept(marks)); } else { assert text + "" == text; }
      NoOpenerAtLineStart(kept, OpenThen(open, end + rest));
      LinePassed(FullLineUnclosed, line, end, rest);
      KeptLineThen(p, Replace(FullLineUnclosed, true, rest));
    case Own(_, _, _, _) =>
    case OwnOpen(lead, tail, end) => OwnOpenTaken(lead, tail, end, rest);
  }

  lemma TextIsNotBlank(text: string, more: string)
    requires !Blanks(text)
    ensures !Blanks(text + more)
  {
    var i :| 0 <= i < |text| && !IsBlank(text[i]);
    assert (text + more)[i] == text[i];
  }

  lemma KeptLineThen(p: Part, rest: string)
    requires p.Prose?
    ensures var kept := p.text + Kept(p.marks);
            && LineAt(OpenLinesCut, p, rest) == kept + OpenThen(p.open, "") + (p.end + rest)
            && LineAt(MarkersCut, p, rest) == LineAt(OpenLinesCut, p, rest)
            && LineAt(OpenLinesCut, p, rest) == kept + OpenThen(p.open, p.end + rest)
  {
    var more := p.end + rest;
    assert OpenThen(p.open, "") + more == OpenThen(p.open, more) by {
      if p.open.Some? {
        assert p.open.value + "" == p.open.value;
        Associates(OPEN, p.open.value, more);
      }
    }
    Associates(p.text, Kept(p.marks), OpenThen(p.open, more));
    Associates(p.text + Kept(p.marks), OpenThen(p.open, ""), more);
  }

  lemma KeptLine(p: Part, rest: string)
    requires p.Prose? && WellMade(p, rest == "")
    ensures var kept := p.text + Kept(p.marks); var line := kept + OpenThen(p.open, "");
            && OneLine(line) && LineAt(MarkersCut, p, rest) == line + (p.end + rest)
            && line + (p.end + rest) == kept + OpenThen(p.open, p.end + rest)
  {
    hide IsTerminator, IndexOf;
    KeptLineThen(p, rest);
    assert OneLine(OpenThen(p.open, "")) by {
      if p.open.Some? {
        assert p.open.value + "" == p.open.value;
        OpenIsOneLine();
        OneLineJoins(OPEN, p.open.value);
      }
    }
    OneLineJoins(p.text + Kept(p.marks), OpenThen(p.open, ""));
  }

  lemma OpenGoes(tail: string, end: string, rest: string)
    requires NeverCloses(tail) && Ends(end, rest == "")
    ensures Replace(InlineUnclosed, true, OPEN + (tail + (end + rest))) == end + Replace(InlineUnclosed, true, rest)
  {
    hide Replace, LineRun, IndexOf, OccursAt;
    var behind := end + rest;
    var s := OPEN + (tail + behind);
    OpensHere(tail + behind);
    EndRuns(end, rest);
    NeverClosesIsUnbroken(tail);
    LineRunOnLine(tail, behind);
    UnclosedRunIs(s, |tail|);
    SliceOfSlice(s, 12, |tail|);
    DropFront(tail, behind);
    UnclosedTaken(true, s);
    EndPassed(InlineUnclosed, IsTerminator(s[12 + |tail| - 1]), end, rest);
  }

  lemma UnclosedTaken(b: bool, s: string)
    requires UnclosedRun(s) > 0
    ensures Replace(InlineUnclosed, b, s)
         == Replace(InlineUnclosed, IsTerminator(s[UnclosedRun(s) - 1]), s[UnclosedRun(s)..])
  {
    hide UnclosedRun;
  }

  lemma FourthPassOnLine(p: Part, rest: string)
    requires WellMade(p, rest == "")
    ensures Replace(InlineUnclosed, true, LineAt(OpenLinesCut, p, rest))
         == LineAt(AllCut, p, Replace(InlineUnclosed, true, rest))
  {
    hide Replace, Match, OccursAt, IndexOf, IsTerminator, IsBreak;
    match p
    case Prose(text, marks, open, end) =>
      var kept := text + Kept(marks);
      KeptLineThen(p, rest);
      BehindText([], open, end, rest);
      NoOpenerAtFence(kept, OpenThen(open, end + rest));
      PiecePassed(InlineUnclosed, true, kept, OpenThen(open, end + rest));
      if open.Some? { OpenGoes(open.value, end, rest); } else { EndPassed(InlineUnclosed, true, end, rest); }
      Associates(text, Kept(marks), end + Replace(InlineUnclosed, true, rest));
    case _ =>
  }

  // The whole answer.

  /** The pass that takes a text from one stage to the next. */
  function PassFrom(stage: Stage): Pass {
    match stage
    case AsWritten => FullLine
    case LinesCut => Inline
    case MarkersCut => FullLineUnclosed
    case _ => InlineUnclosed
  }

  function Next(stage: Stage): Stage {
    match stage
    case AsWritten => LinesCut
    case LinesCut => MarkersCut
    case MarkersCut => OpenLinesCut
    case _ => AllCut
  }

  lemma PassOnLine(stage: Stage, p: Part, rest: string)
    requires WellMade(p, rest == "") && !stage.AllCut?
    ensures Replace(PassFrom(stage), true, LineAt(stage, p, rest))
         == LineAt(Next(stage), p, Replace(PassFrom(stage), true, rest))
  {
    hide Replace, LineAt, WellMade;
    match stage
    case AsWritten => FirstPassOnLine(p, rest);
    case LinesCut => SecondPassOnLine(p, rest);
    case MarkersCut => ThirdPassOnLine(p, rest);
    case OpenLinesCut => FourthPassOnLine(p, rest);
  }

  /** Only the last line may lack its end, and then nothing follows it. */
  lemma WellMadeBefore(p: Part, last: bool, rest: string)
    requires WellMade(p, last) && (last ==> rest == "")
    ensures WellMade(p, rest == "")
  {
    hide OneLine, Closed, NeverCloses, Blanks, IndexOf;
  }

  lemma {:induction false} PassOnText(stage: Stage, parts: seq<Part>)
    requires AllWellMade(parts) && !stage.AllCut?
    ensures Replace(PassFrom(stage), true, TextAt(stage, parts)) == TextAt(Next(stage), parts)
    decreases |parts|
  {
    hide Replace, LineAt, WellMade;
    if parts == [] {
      ReplaceNothing(PassFrom(stage), true);
    } else {
      var p, rest := parts[0], TextAt(stage, parts[1..]);
      assert WellMade(p, |parts| == 1);
      WellMadeBefore(p, |parts| == 1, rest);
      PassOnLine(stage, p, rest);
      forall i | 0 <= i < |parts[1..]| ensures WellMade(parts[1..][i], i == |parts[1..]| - 1) {
        assert WellMade(parts[i + 1], i + 1 == |parts| - 1);
      }
      PassOnText(stage, parts[1..]);
    }
  }

  lemma {:induction false} AllCutIsMeant(parts: seq<Part>)
    ensures TextAt(AllCut, parts) == AnswerMeant(parts)
    decreases |parts|
  {
    if parts != [] {
      AllCutIsMeant(parts[1..]);
      if parts[0].Prose? {
        Associates(parts[0].text, Kept(parts[0].marks), parts[0].end + AnswerMeant(parts[1..]));
        Associates(parts[0].text + Kept(parts[0].marks), parts[0].end, AnswerMeant(parts[1..]));
      } else {
        assert "" + AnswerMeant(parts[1..]) == AnswerMeant(parts[1..]);
      }
    }
  }

  /** Cutting undoes writing: of an answer with markers written into it exactly the markers go, with their line where
      they have one of their own. */
  lemma CuttingUndoesWriting(parts: seq<Part>)
    requires AllWellMade(parts)
    ensures CutMarkers(AnswerWritten(parts)) == AnswerMeant(parts)
  {
    hide Replace, TextAt, AllWellMade;
    PassOnText(AsWritten, parts);
    PassOnText(LinesCut, parts);
    PassOnText(MarkersCut, parts);
    PassOnText(OpenLinesCut, parts);
    AllCutIsMeant(parts);
  }

  /** An answer without an opener is returned as it came. */
  lemma UnmarkedAnswerStays(text: string)
    requires forall i: nat :: !OccursAt(text, Opener, i)
    ensures StripActivityMarkers(text) == text
  {}

  /** The answer meant, as lines without the blanks behind them, and those as paragraphs: what the strip gives back is
      the latter with at most one empty line between two, and no white space at either end. */
  lemma StripUndoesWriting(parts: seq<Part>, lines: seq<Line>, stretches: seq<Stretch>)
    requires AllWellMade(parts) && HasOpener(AnswerWritten(parts))
    requires AreLines(lines) && Lined(lines) == AnswerMeant(parts)
    requires Stretches(stretches) && Stretched(stretches) == Lined(Unblanked(lines))
    ensures Core(StripActivityMarkers(AnswerWritten(parts)), Stretched(Capped(stretches)))
  {
    hide Replace, AllWellMade, AnswerMeant, AnswerWritten, AreLines, Stretches, Lined, Stretched, Trim, Core,
         CutMarkers;
    CuttingUndoesWriting(parts);
    LineEndsGo(true, lines);
    ParagraphsStay(true, stretches);
    TrimLeavesCore(Stretched(Capped(stretches)));
  }

  /** No blanks before a line's end, nor two empty lines in a row. */
  ghost predicate Tidy(s: string) {
    && (forall i: nat | i < |s| :: IsBlank(s[i]) ==> i + 1 < |s| && !IsTerminator(s[i + 1]))
    && (forall i: nat | i + 2 < |s| :: !(s[i] == '\n' && s[i + 1] == '\n' && s[i + 2] == '\n'))
  }

  lemma TidyBehind(s: string)
    requires s != "" && Tidy(s)
    ensures Tidy(s[1..])
  {
    hide IsBlank, IsTerminator;
    var rest := s[1..];
    forall i: nat | i < |rest| ensures IsBlank(rest[i]) ==> i + 1 < |rest| && !IsTerminator(rest[i + 1]) {
      assert rest[i] == s[i + 1];
    }
    forall i: nat | i + 2 < |rest| ensures !(rest[i] == '\n' && rest[i + 1] == '\n' && rest[i + 2] == '\n') {
      assert rest[i] == s[i + 1] && rest[i + 1] == s[i + 2] && rest[i + 2] == s[i + 3];
    }
  }

  lemma {:induction false} NothingToTidy(pass: Pass, b: bool, s: string)
    requires (pass.TrailingBlanks? || pass.ExtraNewlines?) && Tidy(s)
    ensures Replace(pass, b, s) == s
    decreases |s|
  {
    hide *;
    if s == "" {
      ReplaceNothing(pass, b);
    } else {
      TidyBehind(s);
      TidyStarts(pass, b, s);
      OnePassed(pass, b, s);
      NothingToTidy(pass, IsTerminator(s[0]), s[1..]);
      assert s == [s[0]] + s[1..];
    }
  }

  lemma TidyStarts(pass: Pass, b: bool, s: string)
    requires (pass.TrailingBlanks? || pass.ExtraNewlines?) && s != "" && Tidy(s)
    ensures Match(pass, b, s) == 0
  {
    assert |s| > 2 ==> !(s[0] == '\n' && s[0 + 1] == '\n' && s[0 + 2] == '\n');
    if pass.TrailingBlanks? {
      var n := BlankRun(s);
      if n > 0 { assert IsBlank(s[n - 1]); }
    }
  }

  /** A tidy answer comes back as it was meant, character by character and but for white space at its ends, whatever
      markers were written into it. */
  lemma TidyAnswerComesBack(parts: seq<Part>)
    requires AllWellMade(parts) && Tidy(AnswerMeant(parts)) && HasOpener(AnswerWritten(parts))
    ensures var meant, stripped := AnswerMeant(parts), StripActivityMarkers(AnswerWritten(parts));
            && Core(stripped, meant)
            && (meant != "" && !IsSpace(meant[0]) && !IsSpace(meant[|meant| - 1]) ==> stripped == meant)
  {
    hide Replace, AllWellMade, AnswerMeant, AnswerWritten, CutMarkers, Tidy, IsSpace, Core, Trim;
    var meant := AnswerMeant(parts);
    CuttingUndoesWriting(parts);
    NothingToTidy(TrailingBlanks, true, meant);
    NothingToTidy(ExtraNewlines, true, meant);
    TrimLeavesCore(meant);
    TrimmedAsItIs(meant);
  }

  lemma TrimmedAsItIs(s: string)
    ensures s != "" && !IsSpace(s[0]) && !IsSpace(s[|s| - 1]) ==> Trim(s) == s
  {}
}
