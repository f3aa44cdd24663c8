/** U+2028 and U+2029 start a line for the stripping patterns and not for a marker: where that is harmless, and a
    family of texts of which the strip takes a line too many. */
module MarkerSeparators {
  import opened Text
  import opened ActivityScan
  import opened MarkerStripping
  import opened MarkerContent
  import opened Sequences

  predicate IsSeparator(c: char) { c == '\U{2028}' || c == '\U{2029}' }

  predicate PercentAhead(s: string) { BlankRun(s) < |s| && s[BlankRun(s)] == '%' }

  /** No separator is followed, blanks apart, by a percent sign. */
  predicate Spaced(s: string) {
    s == "" || ((IsSeparator(s[0]) ==> !PercentAhead(s[1..])) && Spaced(s[1..]))
  }

  lemma {:induction false} SpacedBehind(s: string, n: nat)
    requires Spaced(s) && n <= |s|
    ensures Spaced(s[n..])
    decreases n
  {
    if n == 0 {
      assert s[0..] == s;
    } else {
      SpacedBehind(s[1..], n - 1);
      SliceOfSlice(s, 1, n - 1);
    }
  }

  lemma WholeLineNeedsPercent(pass: Pass, b: bool, s: string)
    requires WithLine(pass) && Match(pass, b, s) > 0
    ensures b && PercentAhead(s)
  {
    assert OccursAt(s[BlankRun(s)..], Opener, 0);
  }

  lemma {:induction false} SpacedIsUndisturbed(pass: Pass, b: bool, standing: bool, s: string)
    requires WithLine(pass) && Spaced(s) && (b && standing ==> !PercentAhead(s))
    ensures Undisturbed(pass, b, standing, s)
    decreases |s|
  {
    hide Match, PercentAhead;
    if s != "" {
      var n := Match(pass, b, s);
      if n > 0 {
        WholeLineNeedsPercent(pass, b, s);
        SpacedBehind(s, n);
        SpacedIsUndisturbed(pass, IsTerminator(s[n - 1]), false, s[n..]);
      } else {
        SpacedIsUndisturbed(pass, IsTerminator(s[0]), StaysOpen(standing, s), s[1..]);
      }
    }
  }

  lemma PercentStarts(pass: Pass, b: bool, s: string)
    requires (pass.FullLine? || pass.Inline?) && !PercentAhead(s)
    ensures Match(pass, b, s) == 0
  {
    assert s[0..] == s;
  }

  lemma AheadBehind(s: string)
    requires s != "" && !PercentAhead(s)
    ensures s[0] != '%' && (IsBlank(s[0]) ==> !PercentAhead(s[1..]))
  {}

  lemma AheadJoins(c: char, rest: string)
    requires c != '%' && (IsBlank(c) ==> !PercentAhead(rest))
    ensures !PercentAhead([c] + rest)
  {
    assert ([c] + rest)[1..] == rest;
  }

  lemma {:induction false} AheadStays(pass: Pass, b: bool, s: string)
    requires (pass.FullLine? || pass.Inline?) && !PercentAhead(s)
    ensures !PercentAhead(Replace(pass, b, s))
    decreases |s|
  {
    hide Match, Replace, PercentAhead, IsTerminator, IsBlank;
    if s == "" {
      ReplaceNothing(pass, b);
    } else {
      PercentStarts(pass, b, s);
      OnePassed(pass, b, s);
      AheadBehind(s);
      if IsBlank(s[0]) { AheadStays(pass, IsTerminator(s[0]), s[1..]); }
      AheadJoins(s[0], Replace(pass, IsTerminator(s[0]), s[1..]));
    }
  }

  lemma CutAtMatch(pass: Pass, b: bool, s: string)
    requires !pass.ExtraNewlines? && s != "" && Match(pass, b, s) > 0
    ensures var n := Match(pass, b, s); Replace(pass, b, s) == Replace(pass, IsTerminator(s[n - 1]), s[n..])
  {
    hide Match;
  }

  lemma {:induction false} SpacedStays(pass: Pass, b: bool, s: string)
    requires (pass.FullLine? || pass.Inline?) && Spaced(s)
    ensures Spaced(Replace(pass, b, s))
    decreases |s|
  {
    hide Match, Replace, Spaced, PercentAhead, IsSeparator, IsTerminator;
    if s == "" {
      ReplaceNothing(pass, b);
      NothingSpaced();
    } else {
      SpacedBehind(s, 1);
      var n := Match(pass, b, s);
      if n > 0 {
        SpacedBehind(s, n);
        SpacedStays(pass, IsTerminator(s[n - 1]), s[n..]);
        CutAtMatch(pass, b, s);
      } else {
        OnePassed(pass, b, s);
        SpacedStays(pass, IsTerminator(s[0]), s[1..]);
        if IsSeparator(s[0]) {
          SeparatorSpaced(s);
          AheadStays(pass, IsTerminator(s[0]), s[1..]);
        }
        SpacedJoins(s[0], Replace(pass, IsTerminator(s[0]), s[1..]));
      }
    }
  }

  lemma NothingSpaced()
    ensures Spaced("")
  {}

  lemma SpacedJoins(c: char, rest: string)
    requires Spaced(rest) && (IsSeparator(c) ==> !PercentAhead(rest))
    ensures Spaced([c] + rest)
  {
    hide PercentAhead, IsSeparator;
    assert ([c] + rest)[1..] == rest;
  }

  lemma SeparatorSpaced(s: string)
    requires s != "" && Spaced(s) && IsSeparator(s[0])
    ensures !PercentAhead(s[1..])
  {
    hide PercentAhead;
  }

  /** Read off the text alone: with no percent sign behind a separator the strip keeps what it should. */
  lemma SpacedTextIsKept(text: string)
    requires Spaced(text)
    ensures KeepsToItsLines(text) && Ink(StripActivityMarkers(text)) == Ink(MarkersOut(text))
  {
    hide Replace, Undisturbed, Spaced, StripActivityMarkers, MarkersOut;
    SpacedIsUndisturbed(FullLine, true, false, text);
    SpacedStays(FullLine, true, text);
    SpacedStays(Inline, true, Replace(FullLine, true, text));
    SpacedIsUndisturbed(FullLineUnclosed, true, false, ClosedCutOut(text));
    VisibleTextKept(text);
  }

  // A line too many.

  /** Text without a percent sign. */
  predicate NoPercent(s: string) { forall i | 0 <= i < |s| :: s[i] != '%' }

  predicate OneLine(s: string) { forall i | 0 <= i < |s| :: !IsTerminator(s[i]) }

  const Open := "%%%ACTIVITY:"

  const Close := "%%%\n"

  lemma OpenIsOpener(rest: string)
    ensures OccursAt(Open + rest, Opener, 0) && (Open + rest)[12..] == rest
  {
    var s := Open + rest;
    assert forall k | 0 <= k < 12 :: s[k] == Open[k];
  }

  lemma NoOpenerWithoutPercent(s: string, i: nat)
    requires i < |s| ==> s[i] != '%'
    ensures !OccursAt(s, Opener, i)
  {}

  lemma {:induction false} NothingMatchesWithoutPercent(pass: Pass, b: bool, s: string)
    requires (WithinLine(pass) || WithLine(pass)) && NoPercent(s)
    ensures Replace(pass, b, s) == s
    decreases |s|
  {
    if s != "" {
      assert s[0..] == s;
      assert Match(pass, b, s) == 0;
      NothingMatchesWithoutPercent(pass, IsTerminator(s[0]), s[1..]);
    }
  }

  /** A first line of which no percent sign is part, and not all blanks, is passed by every pass. */
  lemma PlainFrontPassed(pass: Pass, b: bool, p: string, rest: string)
    requires WithinLine(pass) || WithLine(pass)
    requires NoPercent(p) && OneLine(p) && BlankRun(p) < |p|
    ensures Replace(pass, b, p + rest) == p + Replace(pass, false, rest)
  {
    forall i: nat | i < |p| ensures Match(pass, BolAt(b, p, i), p[i..] + rest) == 0 {
      var x := p[i..] + rest;
      assert x[0] == p[i] != '%';
      if i == 0 {
        assert p[0..] == p;
        BlankRunBeforeInk(p, rest);
        assert x[BlankRun(x)..][0] == p[BlankRun(p)];
      }
    }
    NothingMatches(pass, b, p, rest);
  }

  lemma {:induction false} BlankRunBeforeInk(p: string, rest: string)
    requires BlankRun(p) < |p|
    ensures BlankRun(p + rest) == BlankRun(p)
    decreases |p|
  {
    if IsBlank(p[0]) {
      DropInFront(p, rest, 1);
      BlankRunBeforeInk(p[1..], rest);
    }
  }

  lemma ClosesAt(body: string, rest: string)
    requires NoPercent(body) && Unbroken(body) && |body| <= ACTIVITY_SCAN_LIMIT
    ensures Keeps(body + "%%%" + rest) && IndexOf(body + "%%%" + rest, Closer) == |body|
  {
    var s := body + "%%%" + rest;
    assert s[|body|] == '%' && s[|body| + 1] == '%' && s[|body| + 2] == '%';
    assert OccursAt(s, Closer, |body|);
    forall j: nat | j < |body| ensures !OccursAt(s, Closer, j) && !BreakAt(s, j) { assert s[j] == body[j]; }
    assert !BreakAt(s, |body|);
  }

  lemma MarkerRun(body: string, rest: string)
    requires NoPercent(body) && Unbroken(body) && |body| <= ACTIVITY_SCAN_LIMIT
    ensures var s := Open + (body + "%%%" + rest);
            ClosedRun(s) == |body| + 15 && s[|body| + 15..] == rest
  {
    var after := body + "%%%" + rest;
    OpenIsOpener(after);
    ClosesAt(body, rest);
    assert after[|body| + 3..] == rest;
  }

  lemma NeverCloses(rest: string)
    requires NoPercent(rest)
    ensures ClosedRun(Open + rest) == 0
  {
    OpenIsOpener(rest);
    assert forall j: nat :: !OccursAt(rest, Closer, j);
  }

  lemma OpenTail(i: nat, rest: string)
    requires 0 < i < 12
    ensures !OccursAt(Open[i..] + rest, Opener, 0)
  {
    var s := Open[i..] + rest;
    assert s[0] == Open[i];
    if i + 2 < 12 { assert s[2] == Open[i + 2]; }
  }

  /** A marker left open behind such a front. */
  lemma OpenMarkerPassed(pass: Pass, p: string, inner: string, rest: string)
    requires pass.FullLineUnclosed? || pass.Inline?
    requires NoPercent(p) && OneLine(p) && BlankRun(p) < |p|
    requires inner != "" && NoPercent(inner) && OneLine(inner[..|inner| - 1]) && NoPercent(rest)
    ensures Replace(pass, true, p + (Open + (inner + rest))) == p + (Open + (inner + rest))
  {
    hide Replace;
    var tail := inner + rest;
    PlainFrontPassed(pass, true, p, Open + tail);
    if pass.Inline? {
      forall i: nat | i < 12 ensures Match(pass, BolAt(false, Open, i), Open[i..] + tail) == 0 {
        if i == 0 { assert Open[0..] == Open; NeverCloses(tail); } else { OpenTail(i, tail); }
      }
      NothingMatches(pass, false, Open, tail);
      NothingMatchesWithoutPercent(pass, BolAt(false, Open, 12), tail);
    } else {
      NoLineStartsIn(pass, inner, rest);
      NothingMatchesWithoutPercent(pass, IsTerminator(inner[|inner| - 1]), rest);
      Associates(Open, inner, rest);
    }
  }

  lemma MarkerIsOneLine(inner: string, i: nat)
    requires inner != "" && OneLine(inner[..|inner| - 1]) && i < 11 + |inner|
    ensures !IsTerminator((Open + inner)[i])
  {
    if i < 12 { assert (Open + inner)[i] == Open[i]; }
    else { assert (Open + inner)[i] == inner[..|inner| - 1][i - 12]; }
  }

  /** Up to the last of its characters no line starts in a marker. */
  lemma NoLineStartsIn(pass: Pass, inner: string, rest: string)
    requires WithLine(pass) && inner != "" && OneLine(inner[..|inner| - 1])
    ensures Replace(pass, false, Open + (inner + rest))
         == (Open + inner) + Replace(pass, IsTerminator(inner[|inner| - 1]), rest)
  {
    hide Replace;
    var front := Open + inner;
    forall i: nat | i < |front| ensures Match(pass, BolAt(false, front, i), front[i..] + rest) == 0 {
      if i > 0 { MarkerIsOneLine(inner, i - 1); }
    }
    NothingMatches(pass, false, front, rest);
    Associates(Open, inner, rest);
    assert front[|front| - 1] == inner[|inner| - 1];
  }

  lemma ClosedLineGoes(v: string, rest: string)
    requires NoPercent(v) && Unbroken(v) && |v| <= ACTIVITY_SCAN_LIMIT && NoPercent(rest)
    ensures Replace(FullLine, true, Open + (v + "%%%" + ("\n" + rest))) == rest
  {
    hide Replace, Match, ClosedRun, NoPercent, Unbroken;
    var behind := "\n" + rest;
    var s, n := Open + (v + "%%%" + behind), |v| + 15;
    MarkerRun(v, behind);
    assert s[0] == '%';
    LineWithMarker(s, n, rest);
    MatchTaken(FullLine, true, s);
    SliceOfSlice(s, n, 1);
    assert s[n] == s[n..][0];
    NothingMatchesWithoutPercent(FullLine, true, rest);
  }

  /** A line of nothing but a marker of `n` characters. */
  lemma LineWithMarker(s: string, n: nat, rest: string)
    requires s != "" && !IsBlank(s[0]) && 0 < n < |s| && ClosedRun(s) == n && s[n..] == "\n" + rest
    ensures Match(FullLine, true, s) == n + 1 && s[n..][1..] == rest
  {
    hide ClosedRun;
    var behind := s[n..];
    assert s[0..] == s && BlankRun(s) == 0 && behind[0] == '\n' && BlankRun(behind) == 0;
    assert behind[0..] == behind && BreakRun(behind) == 1;
    assert s[0 + n..] == behind && s[0 + n + 0..] == behind;
  }

  lemma OpenMarkerTakesItsLine(inner: string, rest: string)
    requires Unbroken(inner) && NoPercent(rest)
    ensures Replace(InlineUnclosed, false, Open + (inner + rest)) == rest[LineRun(rest)..]
  {
    hide Replace, LineRun;
    var k := LineRun(rest);
    var line, behind := Open + (inner + rest[..k]), rest[k..];
    assert rest == rest[..k] + behind;
    assert Open + (inner + rest) == line + behind;
    OpenIsOpener(inner + rest[..k]);
    assert Unbroken(Open);
    UnclosedRunOnLine(line, behind);
    UnclosedToEnd(line);
    var s := line + behind;
    DropFront(line, behind);
    CutAtMatch(InlineUnclosed, false, s);
    NothingMatchesWithoutPercent(InlineUnclosed, IsTerminator(s[|line| - 1]), behind);
  }

  /** The opener on the line is closed by the percent signs of the one behind the separator ... */
  lemma SecondOpenerCloses(inner: string, v: string, rest: string)
    requires NoPercent(inner) && Unbroken(inner) && |inner| <= ACTIVITY_SCAN_LIMIT
    requires NoPercent(v) && NoPercent(rest)
    ensures var after := "ACTIVITY:" + (v + "%%%" + ("\n" + rest));
            && Replace(Inline, false, Open + (inner + (Open + (v + "%%%" + ("\n" + rest))))) == after
            && Replace(InlineUnclosed, false, after) == after
  {
    hide Replace;
    var end := v + "%%%" + ("\n" + rest);
    var after := "ACTIVITY:" + end;
    var s := Open + (inner + "%%%" + after);
    OpenSplits(end);
    Associates(inner, "%%%", after);
    MarkerRun(inner, after);
    CutAtMatch(Inline, false, s);
    forall i: nat ensures !OccursAt(after, Opener, i) { OneCloserOnly(v, rest, i); }
    NothingToCut(Inline, IsTerminator(s[|inner| + 14]), after);
    NothingToCut(InlineUnclosed, false, after);
  }

  lemma OpenSplits(end: string)
    ensures Open + end == "%%%" + ("ACTIVITY:" + end)
  {
    Associates("%%%", "ACTIVITY:", end);
    assert "%%%" + "ACTIVITY:" == Open;
  }

  lemma OneCloserOnly(v: string, rest: string, i: nat)
    requires NoPercent(v) && NoPercent(rest)
    ensures !OccursAt("ACTIVITY:" + (v + "%%%" + ("\n" + rest)), Opener, i)
  {
    var end := "\n" + rest;
    var k := 9 + |v|;
    var after := "ACTIVITY:" + (v + "%%%" + end);
    if i < 9 { assert after[i] == "ACTIVITY:"[i]; }
    else if i < k { assert after[i] == v[i - 9]; }
    else if i < k + 3 { assert after[k + 3] == '\n'; }
    else if i < |after| { assert after[i] == end[i - k - 3]; }
  }

  /** ... so a whole-line match behind a separator takes visible text with it: of every text of this shape the strip
      keeps less than cutting the markers by themselves. */
  lemma LineBehindSeparatorIsLost(p: string, u: string, sep: char, v: string, rest: string)
    requires NoPercent(p) && NoPercent(u) && NoPercent(v) && NoPercent(rest)
    requires OneLine(p) && OneLine(u) && Unbroken(v) && IsSeparator(sep) && BlankRun(p) < |p|
    requires |u| < ACTIVITY_SCAN_LIMIT && |v| <= ACTIVITY_SCAN_LIMIT
    ensures var text := p + (Open + (u + [sep] + (Open + (v + "%%%" + ("\n" + rest)))));
            |Ink(StripActivityMarkers(text))| < |Ink(MarkersOut(text))|
  {
    hide Replace, Ink, StripActivityMarkers;
    var inner := u + [sep];
    var second := Open + (v + "%%%" + ("\n" + rest));
    var after := "ACTIVITY:" + (v + "%%%" + ("\n" + rest));
    var text := p + (Open + (inner + second));
    assert inner[..|inner| - 1] == u && inner[|inner| - 1] == sep;
    StripLeaves(p, inner, v, rest);
    SecondOpenerCloses(inner, v, rest);
    PlainFrontPassed(Inline, true, p, Open + (inner + second));
    PlainFrontPassed(InlineUnclosed, true, p, after);
    assert MarkersOut(text) == p + after;
    InkJoins(p, after);
    InkJoins(p, rest[LineRun(rest)..]);
    LeftoverIsVisible(v, rest);
  }

  lemma LeftoverIsVisible(v: string, rest: string)
    ensures |Ink("ACTIVITY:" + (v + "%%%" + ("\n" + rest)))| > |Ink(rest[LineRun(rest)..])|
  {
    hide Ink, LineRun;
    var k, x, end := LineRun(rest), v + "%%%", "\n" + rest;
    InkJoins("ACTIVITY:", x + end);
    FirstShows("ACTIVITY:");
    InkJoins(x, end);
    InkJoins("\n", rest);
    assert rest == rest[..k] + rest[k..];
    InkJoins(rest[..k], rest[k..]);
  }

  lemma FirstShows(s: string)
    requires s != "" && !IsSpace(s[0])
    ensures Ink(s) != ""
  {}

  lemma StripLeaves(p: string, inner: string, v: string, rest: string)
    requires NoPercent(p) && NoPercent(inner) && NoPercent(v) && NoPercent(rest)
    requires OneLine(p) && BlankRun(p) < |p| && Unbroken(v) && |v| <= ACTIVITY_SCAN_LIMIT
    requires inner != "" && OneLine(inner[..|inner| - 1]) && IsSeparator(inner[|inner| - 1])
    ensures var text := p + (Open + (inner + (Open + (v + "%%%" + ("\n" + rest)))));
            Ink(StripActivityMarkers(text)) == Ink(p + rest[LineRun(rest)..])
  {
    hide Replace, Ink, StripActivityMarkers, LineRun;
    var second := Open + (v + "%%%" + ("\n" + rest));
    var text := p + (Open + (inner + second));
    PlainFrontPassed(FullLine, true, p, Open + (inner + second));
    NoLineStartsIn(FullLine, inner, second);
    ClosedLineGoes(v, rest);
    Associates(Open, inner, rest);
    OpenMarkerPassed(Inline, p, inner, rest);
    OpenMarkerPassed(FullLineUnclosed, p, inner, rest);
    PlainFrontPassed(InlineUnclosed, true, p, Open + (inner + rest));
    assert Unbroken(inner) by {
      forall i | 0 <= i < |inner| ensures !IsBreak(inner[i]) {
        if i < |inner| - 1 { assert inner[..|inner| - 1][i] == inner[i]; }
      }
    }
    OpenMarkerTakesItsLine(inner, rest);
    assert CutMarkers(text) == p + rest[LineRun(rest)..];
    HoldsOpener(p, inner + second);
    StripKeepsInkOfCut(text);
  }

  lemma HoldsOpener(p: string, tail: string)
    ensures HasOpener(p + (Open + tail))
  {
    OpenIsOpener(tail);
    var s := p + (Open + tail);
    assert forall k | 0 <= k < 12 :: s[|p| + k] == Open[k];
    assert OccursAt(s, Opener, |p|);
  }

  // An opener that a deletion joins.

  const HalfOpen := "%%%ACTIV"

  lemma TooFarToClose(inner: string, rest: string)
    requires NoPercent(inner) && |inner| > ACTIVITY_SCAN_LIMIT
    ensures ClosedRun(Open + (inner + rest)) == 0
  {
    var tail := inner + rest;
    OpenIsOpener(tail);
    forall j: nat | j < |inner| ensures !OccursAt(tail, Closer, j) { assert tail[j] == inner[j]; }
  }

  lemma HalfIsNoOpener(rest: string, i: nat)
    requires i < 8
    ensures !OccursAt(HalfOpen[i..] + (Open + rest), Opener, 0)
  {
    var s := HalfOpen[i..] + (Open + rest);
    assert s[0] == HalfOpen[i];
    if i == 0 { assert s[8] == Open[0]; }
    else if i < 3 { assert s[3 - i] == HalfOpen[3]; }
  }

  /** The inline pass cuts the closed marker and joins the halves of an opener around it. */
  lemma InlineJoinsHalves(p: string, inner: string, v: string, tail: string)
    requires NoPercent(p) && OneLine(p) && BlankRun(p) < |p| && NoPercent(inner) && |inner| > ACTIVITY_SCAN_LIMIT
    requires NoPercent(v) && Unbroken(v) && |v| <= ACTIVITY_SCAN_LIMIT && NoPercent(tail)
    ensures Replace(Inline, true, p + (Open + (inner + (HalfOpen + (Open + (v + "%%%" + ("ITY:" + tail)))))))
         == p + (Open + (inner + (Open + tail)))
  {
    hide Replace;
    var after := "ITY:" + tail;
    var second := Open + (v + "%%%" + after);
    var front := Open + (inner + HalfOpen);
    PlainFrontPassed(Inline, true, p, Open + (inner + (HalfOpen + second)));
    Nests(Open, inner, HalfOpen, second);
    forall i: nat | i < |front| ensures Match(Inline, BolAt(false, front, i), front[i..] + second) == 0 {
      HalvesDoNotMatch(inner, v, after, i);
    }
    NothingMatches(Inline, false, front, second);
    MarkerRun(v, after);
    CutAtMatch(Inline, BolAt(false, front, |front|), second);
    NothingMatchesWithoutPercent(Inline, IsTerminator(second[|v| + 14]), after);
    Nests(Open, inner, HalfOpen, after);
    HalvesJoin(tail);
  }

  lemma HalvesJoin(tail: string)
    ensures HalfOpen + ("ITY:" + tail) == Open + tail
  {
    Associates(HalfOpen, "ITY:", tail);
    assert HalfOpen + "ITY:" == Open;
  }

  lemma HalvesDoNotMatch(inner: string, v: string, after: string, i: nat)
    requires NoPercent(inner) && |inner| > ACTIVITY_SCAN_LIMIT && i < 12 + |inner| + 8
    ensures var front, second := Open + (inner + HalfOpen), Open + (v + "%%%" + after);
            ClosedRun(front[i..] + second) == 0
  {
    hide ClosedRun, OccursAt;
    var half := inner + HalfOpen;
    var front, second := Open + half, Open + (v + "%%%" + after);
    if i == 0 {
      assert front[0..] == front;
      Nests(Open, inner, HalfOpen, second);
      TooFarToClose(inner, HalfOpen + second);
    } else if i < 12 {
      DropInFront(Open, half, i);
      Associates(Open[i..], half, second);
      OpenTail(i, half + second);
      NoOpenerNoMarker(front[i..] + second);
    } else if i < 12 + |inner| {
      assert (front[i..] + second)[0] == half[i - 12] == inner[i - 12];
      NoOpenerWithoutPercent(front[i..] + second, 0);
      NoOpenerNoMarker(front[i..] + second);
    } else {
      var j := i - 12 - |inner|;
      SliceOfSlice(front, 12, |inner| + j);
      DropFront(Open, half);
      SliceOfSlice(half, |inner|, j);
      DropFront(inner, HalfOpen);
      HalfIsNoOpener(v + "%%%" + after, j);
      NoOpenerNoMarker(front[i..] + second);
    }
  }

  lemma NoOpenerNoMarker(s: string)
    requires !OccursAt(s, Opener, 0)
    ensures ClosedRun(s) == 0
  {}

  lemma FullLineSeesNoOpener(p: string, inner: string, v: string, w: string, rest: string)
    requires NoPercent(p) && OneLine(p) && BlankRun(p) < |p| && NoPercent(rest)
    requires inner != "" && OneLine(inner[..|inner| - 1]) && IsSeparator(inner[|inner| - 1]) && OneLine(v) && OneLine(w)
    ensures var text := p + (Open + (inner + (HalfOpen + (Open + (v + "%%%" + ("ITY:" + (w + ("\n" + rest))))))));
            Replace(FullLine, true, text) == text
  {
    hide Replace;
    var behind := HalfOpen + (Open + (v + "%%%" + ("ITY:" + (w + ("\n" + rest)))));
    PlainFrontPassed(FullLine, true, p, Open + (inner + behind));
    NoLineStartsIn(FullLine, inner, behind);
    HalfLinePassed(v, w, rest);
    Associates(Open, inner, behind);
  }

  lemma HalfLinePassed(v: string, w: string, rest: string)
    requires NoPercent(rest) && OneLine(v) && OneLine(w)
    ensures var behind := HalfOpen + (Open + (v + "%%%" + ("ITY:" + (w + ("\n" + rest)))));
            Replace(FullLine, true, behind) == behind
  {
    hide Replace;
    var line, end := HalfOpen + (Open + (v + "%%%" + ("ITY:" + w))), "\n" + rest;
    HalfLineEnds(v, w, end);
    HalfLineStarts(v, w, end);
    forall i | 0 <= i < |line| ensures !IsTerminator(line[i]) { OneLineWhole(v, w, i); }
    LineNotMatched(line, end);
    NothingMatchesWithoutPercent(FullLine, false, end);
  }

  lemma LineNotMatched(line: string, rest: string)
    requires line != "" && OneLine(line) && ClosedLineRun(line[0..] + rest) == 0
    ensures Replace(FullLine, true, line + rest) == line + Replace(FullLine, false, rest)
  {
    hide Replace;
    NothingMatches(FullLine, true, line, rest);
  }

  lemma HalfLineEnds(v: string, w: string, end: string)
    ensures HalfOpen + (Open + (v + "%%%" + ("ITY:" + w))) + end
         == HalfOpen + (Open + (v + "%%%" + ("ITY:" + (w + end))))
  {
    var x := v + "%%%";
    Associates("ITY:", w, end);
    Associates(x, "ITY:" + w, end);
    Nests(HalfOpen, Open, x + ("ITY:" + w), end);
  }

  lemma HalfLineStarts(v: string, w: string, end: string)
    ensures ClosedLineRun((HalfOpen + (Open + (v + "%%%" + ("ITY:" + w))))[0..] + end) == 0
  {
    HalfLineEnds(v, w, end);
    var x := HalfOpen + (Open + (v + "%%%" + ("ITY:" + (w + end))));
    assert x[0] == '%' && x[0..] == x;
    HalfIsNoOpener(v + "%%%" + ("ITY:" + (w + end)), 0);
    assert HalfOpen[0..] == HalfOpen;
  }

  lemma OneLineWhole(v: string, w: string, i: nat)
    requires OneLine(v) && OneLine(w)
    requires i < |HalfOpen + (Open + (v + "%%%" + ("ITY:" + w)))|
    ensures !IsTerminator((HalfOpen + (Open + (v + "%%%" + ("ITY:" + w))))[i])
  {
    var line := HalfOpen + (Open + (v + "%%%" + ("ITY:" + w)));
    var k := 20 + |v|;
    if i < 8 { assert line[i] == HalfOpen[i]; }
    else if i < 20 { assert line[i] == Open[i - 8]; }
    else if i < k { assert line[i] == v[i - 20]; }
    else if i < k + 3 { assert line[i] == '%'; }
    else if i < k + 7 { assert line[i] == "ITY:"[i - k - 3]; }
    else { assert line[i] == w[i - k - 7]; }
  }

  lemma JoinedLineGoes(p: string, inner: string, w: string, rest: string)
    requires NoPercent(p) && OneLine(p) && BlankRun(p) < |p| && NoPercent(rest) && OneLine(w)
    requires inner != "" && OneLine(inner[..|inner| - 1]) && IsSeparator(inner[|inner| - 1])
    ensures Replace(FullLineUnclosed, true, p + (Open + (inner + (Open + (w + ("\n" + rest))))))
         == p + (Open + (inner + rest))
  {
    hide Replace;
    var second := Open + (w + ("\n" + rest));
    PlainFrontPassed(FullLineUnclosed, true, p, Open + (inner + second));
    NoLineStartsIn(FullLineUnclosed, inner, second);
    OpenLineRun(w, rest);
    MatchTaken(FullLineUnclosed, true, second);
    NothingMatchesWithoutPercent(FullLineUnclosed, true, rest);
    Associates(Open, inner, rest);
  }

  lemma OpenLineRun(w: string, rest: string)
    requires OneLine(w)
    ensures var s := Open + (w + ("\n" + rest));
            UnclosedLineRun(s) == |w| + 13 && s[|w| + 12] == '\n' && s[|w| + 13..] == rest
  {
    var line, behind := Open + w, "\n" + rest;
    Associates(Open, w, behind);
    assert forall i | 0 <= i < 12 :: line[i] == Open[i];
    assert line[0] == '%' && BlankRun(line) == 0 && line[0..] == line;
    OpenIsOpener(w);
    UnclosedAtLineStart(line, behind);
    DropFront(line, behind);
    assert (line + behind)[|line| + 1..] == behind[1..];
  }

  /** No separator stands before an opener here, yet the strip takes the visible line `rest` starts with: the inline
      pass makes the opener that the third pass reads behind the separator. */
  lemma JoinedOpenerTakesALine(p: string, u: string, sep: char, v: string, w: string, rest: string)
    requires NoPercent(p) && NoPercent(u) && NoPercent(v) && NoPercent(w) && NoPercent(rest)
    requires OneLine(p) && OneLine(u) && OneLine(v) && OneLine(w) && IsSeparator(sep) && BlankRun(p) < |p|
    requires |u| >= ACTIVITY_SCAN_LIMIT && |v| <= ACTIVITY_SCAN_LIMIT && Ink(rest[..LineRun(rest)]) != ""
    ensures var text :=
              p + (Open + (u + [sep] + (HalfOpen + (Open + (v + "%%%" + ("ITY:" + (w + ("\n" + rest))))))));
            |Ink(StripActivityMarkers(text))| < |Ink(MarkersOut(text))|
  {
    hide Replace, Ink, StripActivityMarkers, LineRun;
    var inner, behind, k := u + [sep], "\n" + rest, LineRun(rest);
    var tail := w + behind;
    var text := p + (Open + (inner + (HalfOpen + (Open + (v + "%%%" + ("ITY:" + tail))))));
    assert inner[..|inner| - 1] == u && inner[|inner| - 1] == sep;
    FullLineSeesNoOpener(p, inner, v, w, rest);
    InlineJoinsHalves(p, inner, v, tail);
    JoinedLineGoes(p, inner, w, rest);
    PlainFrontPassed(InlineUnclosed, true, p, Open + (inner + rest));
    OpenMarkerTakesItsLine(inner, rest);
    assert CutMarkers(text) == p + rest[k..];
    HoldsOpener(p, inner + (HalfOpen + (Open + (v + "%%%" + ("ITY:" + tail)))));
    StripKeepsInkOfCut(text);
    var taken := inner + (Open + w);
    assert inner + (Open + tail) == taken + behind;
    PlainFrontPassed(InlineUnclosed, true, p, Open + (taken + behind));
    assert Unbroken(Open);
    OpenMarkerTakesItsLine(taken, behind);
    LineEndsAtOnce(rest);
    assert MarkersOut(text) == p + behind;
    InkJoins(p, rest[k..]);
    InkJoins(p, behind);
    InkJoins("\n", rest);
    assert rest == rest[..k] + rest[k..];
    InkJoins(rest[..k], rest[k..]);
  }

  lemma LineEndsAtOnce(rest: string)
    ensures LineRun("\n" + rest) == 0 && ("\n" + rest)[0..] == "\n" + rest
  {}
}
