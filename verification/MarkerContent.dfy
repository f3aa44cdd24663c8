/** What stripping keeps: every visible character outside the markers, wherever the whole-line patterns keep to their
    lines. */
module MarkerContent {
  import opened Text
  import opened ActivityScan
  import opened MarkerStripping
  import opened Sequences

  /** The visible characters of a text. */
  function Ink(s: string): string {
    if s == "" then "" else (if IsSpace(s[0]) then "" else [s[0]]) + Ink(s[1..])
  }

  predicate Unbroken(line: string) { forall i | 0 <= i < |line| :: !IsBreak(line[i]) }

  predicate AtLineEnd(rest: string) { rest == "" || IsBreak(rest[0]) }

  predicate WithinLine(pass: Pass) { pass.Inline? || pass.InlineUnclosed? }

  predicate WithLine(pass: Pass) { pass.FullLine? || pass.FullLineUnclosed? }

  /** The markers cut by themselves: the closed ones, then what an opener left open reaches. */
  function MarkersOut(s: string): string {
    Replace(InlineUnclosed, true, Replace(Inline, true, s))
  }

  lemma {:induction false} InkJoins(a: string, b: string)
    ensures Ink(a + b) == Ink(a) + Ink(b)
    decreases |a|
  {
    if a == "" {
      assert a + b == b;
    } else {
      hide IsSpace;
      var rest := a[1..];
      InkJoins(rest, b);
      DropInFront(a, b, 1);
      Associates(if IsSpace(a[0]) then "" else [a[0]], Ink(rest), Ink(b));
    }
  }

  lemma {:induction false} NoInkInSpace(s: string)
    requires forall i | 0 <= i < |s| :: IsSpace(s[i])
    ensures Ink(s) == ""
  {
    if s != "" { NoInkInSpace(s[1..]); }
  }

  lemma BolIdle(pass: Pass, b: bool, c: bool, s: string)
    requires WithinLine(pass) || (WithLine(pass) && AtLineEnd(s))
    ensures Match(pass, b, s) == Match(pass, c, s) && Replace(pass, b, s) == Replace(pass, c, s)
  {}

  lemma NoMatchAtBreak(pass: Pass, b: bool, s: string)
    requires (WithinLine(pass) || WithLine(pass)) && s != "" && IsBreak(s[0])
    ensures Match(pass, b, s) == 0
  {
    assert s[0..] == s && BlankRun(s) == 0;
  }

  lemma OnePassed(pass: Pass, b: bool, s: string)
    requires s != "" && Match(pass, b, s) == 0
    ensures Replace(pass, b, s) == [s[0]] + Replace(pass, IsTerminator(s[0]), s[1..])
  {
    hide Match;
  }

  lemma BreakPassed(pass: Pass, b: bool, s: string)
    requires (WithinLine(pass) || WithLine(pass)) && s != "" && IsBreak(s[0])
    ensures Replace(pass, b, s) == [s[0]] + Replace(pass, true, s[1..])
  {
    hide Match, Replace;
    NoMatchAtBreak(pass, b, s);
    OnePassed(pass, b, s);
  }

  lemma KeepsOnLine(body: string, rest: string)
    requires Unbroken(body) && AtLineEnd(rest)
    ensures Keeps(body + rest) == Keeps(body)
    ensures Keeps(body) ==> IndexOf(body + rest, Closer) == IndexOf(body, Closer)
  {
    BreakInPrefix(body, rest);
    forall j: nat ensures !BreakAt(body, j) {}
    if rest != "" { assert BreakAt(body + rest, |body|); }
    if IndexOf(body, Closer) != -1 {
      IndexInPrefix(body, rest, Closer);
    } else {
      IndexPastPrefix(body, rest, Closer);
      if rest != "" && IndexOf(body + rest, Closer) != -1 { assert (body + rest)[|body|] == rest[0]; }
    }
  }

  lemma {:induction false} LineRunOnLine(line: string, rest: string)
    requires Unbroken(line) && AtLineEnd(rest)
    ensures LineRun(line + rest) == |line| == LineRun(line)
  {
    if line == "" {
      assert line + rest == rest;
    } else {
      assert (line + rest)[1..] == line[1..] + rest;
      LineRunOnLine(line[1..], rest);
    }
  }

  lemma OpenerOnLine(line: string, rest: string)
    requires AtLineEnd(rest)
    ensures OccursAt(line + rest, Opener, 0) == OccursAt(line, Opener, 0)
  {
    if |line| < 12 <= |line + rest| { assert (line + rest)[|line|] == rest[0]; }
  }

  /** What a pattern matches on a line does not depend on the lines behind it. */
  lemma MatchOnLine(pass: Pass, b: bool, line: string, rest: string)
    requires WithinLine(pass) && Unbroken(line) && AtLineEnd(rest)
    ensures Match(pass, b, line + rest) == Match(pass, b, line)
  {
    OpenerOnLine(line, rest);
    if OccursAt(line, Opener, 0) {
      assert (line + rest)[12..] == line[12..] + rest;
      KeepsOnLine(line[12..], rest);
      LineRunOnLine(line[12..], rest);
    }
  }

  /** One step of a replacement on a line leaves the lines behind it alone. */
  lemma StepOnLine(pass: Pass, b: bool, line: string, rest: string) returns (front: string, m: nat)
    requires WithinLine(pass) && line != "" && Match(pass, b, line + rest) == Match(pass, b, line)
    ensures 0 < m <= |line|
    ensures Replace(pass, b, line) == front + Replace(pass, IsTerminator(line[m - 1]), line[m..])
    ensures Replace(pass, b, line + rest) == front + Replace(pass, IsTerminator(line[m - 1]), line[m..] + rest)
  {
    hide Match, Replace, IsTerminator;
    var n := Match(pass, b, line);
    m := if n > 0 then n else 1;
    front := if n > 0 then "" else [line[0]];
    DropInFront(line, rest, m);
    if n > 0 {
      CutTaken(pass, b, line);
      CutTaken(pass, b, line + rest);
    } else {
      OnePassed(pass, b, line);
      OnePassed(pass, b, line + rest);
    }
  }

  lemma CutTaken(pass: Pass, b: bool, s: string)
    requires WithinLine(pass) && Match(pass, b, s) > 0
    ensures var n := Match(pass, b, s); Replace(pass, b, s) == "" + Replace(pass, IsTerminator(s[n - 1]), s[n..])
  {
    hide Match;
  }

  lemma {:induction false} SplitAtLineEnd(pass: Pass, b: bool, line: string, rest: string)
    requires WithinLine(pass) && Unbroken(line) && AtLineEnd(rest)
    ensures Replace(pass, b, line + rest) == Replace(pass, b, line) + Replace(pass, true, rest)
    decreases |line|
  {
    if line == "" {
      assert line + rest == rest;
      BolIdle(pass, b, true, rest);
    } else {
      MatchOnLine(pass, b, line, rest);
      var front, m := StepOnLine(pass, b, line, rest);
      var c := IsTerminator(line[m - 1]);
      SplitAtLineEnd(pass, c, line[m..], rest);
      Associates(front, Replace(pass, c, line[m..]), Replace(pass, true, rest));
    }
  }

  lemma UnbrokenJoins(a: string, b: string)
    requires Unbroken(a) && Unbroken(b)
    ensures Unbroken(a + b)
  {}

  lemma {:induction false} StaysUnbroken(pass: Pass, b: bool, line: string)
    requires WithinLine(pass) && Unbroken(line)
    ensures Unbroken(Replace(pass, b, line))
    decreases |line|
  {
    if line == "" {
      ReplaceNothing(pass, b);
    } else {
      hide Replace, Match;
      var kept, m := ReplaceStep(pass, b, line);
      assert Unbroken(line[..kept]) && Unbroken(line[m..]);
      StaysUnbroken(pass, IsTerminator(line[m - 1]), line[m..]);
      UnbrokenJoins(line[..kept], Replace(pass, IsTerminator(line[m - 1]), line[m..]));
    }
  }

  lemma StaysAtLineEnd(pass: Pass, b: bool, rest: string)
    requires (WithinLine(pass) || WithLine(pass)) && AtLineEnd(rest)
    ensures AtLineEnd(Replace(pass, b, rest))
  {
    if rest != "" { BreakPassed(pass, b, rest); }
  }

  lemma NoMatchAtBlank(pass: Pass, b: bool, s: string)
    requires WithinLine(pass) && s != "" && IsBlank(s[0])
    ensures Match(pass, b, s) == 0
  {}

  lemma {:induction false} BlanksPassed(pass: Pass, b: bool, blanks: string, s: string)
    requires WithinLine(pass) && forall i | 0 <= i < |blanks| :: IsBlank(blanks[i])
    ensures Replace(pass, b, blanks + s) == blanks + Replace(pass, true, s)
    decreases |blanks|
  {
    hide Replace, Match, IsBlank, IsTerminator;
    if blanks == "" {
      assert blanks + s == s;
      BolIdle(pass, b, true, s);
    } else {
      DropInFront(blanks, s, 1);
      NoMatchAtBlank(pass, b, blanks + s);
      OnePassed(pass, b, blanks + s);
      BlanksPassed(pass, IsTerminator(blanks[0]), blanks[1..], s);
      Shift(blanks, Replace(pass, true, s));
    }
  }

  lemma Shift(line: string, rest: string)
    requires line != ""
    ensures [line[0]] + (line[1..] + rest) == line + rest
  {}

  lemma {:induction false} BlankRunOnLine(line: string, rest: string)
    requires AtLineEnd(rest)
    ensures BlankRun(line + rest) == BlankRun(line)
  {
    if line == "" {
      assert line + rest == rest;
    } else {
      assert (line + rest)[1..] == line[1..] + rest;
      BlankRunOnLine(line[1..], rest);
    }
  }

  lemma MatchTaken(pass: Pass, bol: bool, s: string)
    requires WithLine(pass) && s != "" && Match(pass, bol, s) > 0
    ensures var n := Match(pass, bol, s); Replace(pass, bol, s) == Replace(pass, IsTerminator(s[n - 1]), s[n..])
  {
    hide Match;
  }

  // Up to the next whole-line match.

  predicate BolAt(b: bool, s: string, i: nat)
    requires i <= |s|
  {
    if i == 0 then b else IsTerminator(s[i - 1])
  }

  lemma {:induction false} NothingMatches(pass: Pass, b: bool, front: string, rest: string)
    requires forall i: nat | i < |front| :: Match(pass, BolAt(b, front, i), front[i..] + rest) == 0
    ensures Replace(pass, b, front + rest) == front + Replace(pass, BolAt(b, front, |front|), rest)
    decreases |front|
  {
    if front == "" {
      assert front + rest == rest;
    } else {
      hide Match, Replace, IsTerminator;
      var c, behind := IsTerminator(front[0]), front[1..];
      MatchesBehind(pass, b, front, rest);
      NothingMatches(pass, c, behind, rest);
      OnePassed(pass, b, front + rest);
      DropInFront(front, rest, 1);
      Shift(front, Replace(pass, BolAt(b, front, |front|), rest));
    }
  }

  /** An opener a pass leaves standing stays open to the end of its line. */
  predicate StaysOpen(standing: bool, s: string)
    requires s != ""
  {
    !IsBreak(s[0]) && (standing || OccursAt(s, Opener, 0))
  }

  /** A whole-line pass never matches behind an opener that it left standing on the same line. A line starts behind
      U+2028 and U+2029 too, but a marker reaches across them, so only there can such a match be. */
  predicate Undisturbed(pass: Pass, bol: bool, standing: bool, s: string)
    decreases |s|
  {
    s == "" ||
    var n := Match(pass, bol, s);
    if n > 0 then !standing && Undisturbed(pass, IsTerminator(s[n - 1]), false, s[n..])
    else Undisturbed(pass, IsTerminator(s[0]), StaysOpen(standing, s), s[1..])
  }

  /** Where the pass matches next on its line, or the end of the line. */
  lemma {:induction false} NextMatch(pass: Pass, b: bool, s: string) returns (k: nat)
    ensures k <= LineRun(s)
    ensures forall i: nat | i < k :: Match(pass, BolAt(b, s, i), s[i..]) == 0
    ensures k < LineRun(s) ==> Match(pass, BolAt(b, s, k), s[k..]) > 0
    decreases |s|
  {
    hide Match, IsTerminator;
    if LineRun(s) == 0 || Match(pass, b, s) > 0 {
      k := 0;
      assert s[0..] == s;
    } else {
      var c, behind := IsTerminator(s[0]), s[1..];
      var j := NextMatch(pass, c, behind);
      k := j + 1;
      assert s[0..] == s;
      forall i: nat | i < k ensures Match(pass, BolAt(b, s, i), s[i..]) == 0 {
        if i > 0 {
          assert Match(pass, BolAt(c, behind, i - 1), behind[i - 1..]) == 0;
          SliceOfSlice(s, 1, i - 1);
        }
      }
      SliceOfSlice(s, 1, j);
      assert BolAt(c, behind, j) == BolAt(b, s, k);
    }
  }

  lemma MatchesBehind(pass: Pass, b: bool, front: string, rest: string)
    requires front != "" && forall i: nat | i < |front| :: Match(pass, BolAt(b, front, i), front[i..] + rest) == 0
    ensures var c, behind := IsTerminator(front[0]), front[1..];
            && Match(pass, b, front + rest) == 0 && BolAt(c, behind, |behind|) == BolAt(b, front, |front|)
            && forall i: nat | i < |behind| :: Match(pass, BolAt(c, behind, i), behind[i..] + rest) == 0
  {
    hide Match, IsTerminator;
    var c, behind := IsTerminator(front[0]), front[1..];
    assert front[0..] == front;
    forall i: nat | i < |behind| ensures Match(pass, BolAt(c, behind, i), behind[i..] + rest) == 0 {
      SliceOfSlice(front, 1, i);
      assert BolAt(b, front, i + 1) == BolAt(c, behind, i);
    }
  }

  lemma UndisturbedBehind(pass: Pass, b: bool, o: bool, s: string)
    requires s != "" && Undisturbed(pass, b, o, s) && Match(pass, b, s) == 0
    ensures Undisturbed(pass, IsTerminator(s[0]), StaysOpen(o, s), s[1..])
  {
    hide Match, IsTerminator, StaysOpen;
  }

  lemma StandsClosed(o: bool, s: string)
    requires s != "" && !IsBreak(s[0]) && !StaysOpen(o, s)
    ensures !o && !OccursAt(s, Opener, 0)
  {}

  lemma UnopenedFurther(s: string, n: nat)
    requires s != "" && !OccursAt(s, Opener, 0) && forall i: nat | i < n :: !OccursAt(s[1..], Opener, i)
    ensures forall i: nat | i < n + 1 :: !OccursAt(s, Opener, i)
  {
    hide OccursAt;
    forall i: nat | 0 < i < n + 1 ensures !OccursAt(s, Opener, i) { OccursFurther(s, i - 1); }
  }

  lemma {:induction false} UndisturbedUpTo(pass: Pass, b: bool, o: bool, front: string, rest: string)
    returns (standing: bool)
    requires Undisturbed(pass, b, o, front + rest) && Unbroken(front)
    requires forall i: nat | i < |front| :: Match(pass, BolAt(b, front, i), front[i..] + rest) == 0
    ensures Undisturbed(pass, BolAt(b, front, |front|), standing, rest)
    ensures !standing ==> !o && forall i: nat | i < |front| :: !OccursAt(front + rest, Opener, i)
    decreases |front|
  {
    hide Match, IsTerminator, IsBreak, OccursAt, Undisturbed, StaysOpen;
    if front == "" {
      assert front + rest == rest;
      standing := o;
    } else {
      var x, c, behind := front + rest, IsTerminator(front[0]), front[1..];
      DropInFront(front, rest, 1);
      MatchesBehind(pass, b, front, rest);
      UndisturbedBehind(pass, b, o, x);
      standing := UndisturbedUpTo(pass, c, StaysOpen(o, x), behind, rest);
      if !standing {
        StandsClosed(o, x);
        UnopenedFurther(x, |behind|);
      }
    }
  }

  lemma OccursFurther(s: string, i: nat)
    requires s != ""
    ensures OccursAt(s[1..], Opener, i) == OccursAt(s, Opener, i + 1)
  {}

  /** No opener runs across the end of a line. */
  lemma NoOpenerAcross(front: string, rest: string, i: nat)
    requires i < |front| && IsTerminator(front[|front| - 1])
    ensures OccursAt(front + rest, Opener, i) == OccursAt(front, Opener, i)
  {
    if |front| < i + 12 <= |front + rest| { assert (front + rest)[|front| - 1] == front[|front| - 1]; }
  }

  predicate Unopened(front: string) { forall i: nat | i < |front| :: !OccursAt(front, Opener, i) }

  /** A front that ends a line and holds no opener is passed by what works within lines. */
  lemma FrontPassed(pass: Pass, front: string, rest: string)
    requires WithinLine(pass) && Unopened(front) && front != "" && IsTerminator(front[|front| - 1])
    ensures Replace(pass, true, front + rest) == front + Replace(pass, true, rest)
  {
    hide Replace;
    forall i: nat | i < |front| ensures Match(pass, BolAt(true, front, i), front[i..] + rest) == 0 {
      NoOpenerAcross(front, rest, i);
      DropInFront(front, rest, i);
      assert OccursAt(front[i..] + rest, Opener, 0) == OccursAt(front + rest, Opener, i);
    }
    NothingMatches(pass, true, front, rest);
    BolIdle(pass, BolAt(true, front, |front|), true, rest);
  }

  lemma MatchNeedsLineStart(pass: Pass, c: bool, s: string)
    requires WithLine(pass) && Match(pass, c, s) > 0
    ensures c
  {}

  lemma UpToMatch(pass: Pass, b: bool, s: string, k: nat)
    requires k <= LineRun(s) && forall i: nat | i < k :: Match(pass, BolAt(b, s, i), s[i..]) == 0
    ensures Unbroken(s[..k])
    ensures forall i: nat | i < k :: Match(pass, BolAt(b, s[..k], i), s[..k][i..] + s[k..]) == 0
    ensures BolAt(b, s[..k], k) == BolAt(b, s, k)
  {
    hide Match;
    forall i: nat | i < k ensures Match(pass, BolAt(b, s[..k], i), s[..k][i..] + s[k..]) == 0 {
      DropInFront(s[..k], s[k..], i);
      assert s[..k] + s[k..] == s;
    }
  }

  lemma UndisturbedPastBreak(pass: Pass, c: bool, standing: bool, s: string)
    requires WithLine(pass) && s != "" && IsBreak(s[0]) && Undisturbed(pass, c, standing, s)
    ensures Undisturbed(pass, true, false, s[1..])
  {
    hide Match;
    NoMatchAtBreak(pass, c, s);
  }

  lemma UndisturbedAtMatch(pass: Pass, c: bool, standing: bool, s: string)
    requires s != "" && Match(pass, c, s) > 0 && Undisturbed(pass, c, standing, s)
    ensures var n := Match(pass, c, s); !standing && Undisturbed(pass, IsTerminator(s[n - 1]), false, s[n..])
  {
    hide Match;
  }

  lemma FrontUnopened(front: string, rest: string)
    requires front != "" && IsTerminator(front[|front| - 1])
    requires forall i: nat | i < |front| :: !OccursAt(front + rest, Opener, i)
    ensures Unopened(front)
  {
    hide OccursAt, IsTerminator;
    forall i: nat | i < |front| ensures !OccursAt(front, Opener, i) { NoOpenerAcross(front, rest, i); }
  }

  /** A pass up to its next match on the line, or to the end of the line. */
  lemma Approach(pass: Pass, b: bool, s: string) returns (front: string, rest: string, c: bool, standing: bool)
    requires WithLine(pass) && Undisturbed(pass, b, false, s)
    ensures s == front + rest && Unbroken(front)
    ensures Replace(pass, b, s) == front + Replace(pass, c, rest) && Undisturbed(pass, c, standing, rest)
    ensures rest != "" && !IsBreak(rest[0]) ==>
              Match(pass, c, rest) > 0 && (front == "" || (Unopened(front) && IsTerminator(front[|front| - 1])))
  {
    hide Replace, Match, IsTerminator, OccursAt, Undisturbed;
    var k := NextMatch(pass, b, s);
    front, rest, c := s[..k], s[k..], BolAt(b, s, k);
    assert s == front + rest;
    UpToMatch(pass, b, s, k);
    standing := UndisturbedUpTo(pass, b, false, front, rest);
    NothingMatches(pass, b, front, rest);
    if 0 < k < LineRun(s) {
      UndisturbedAtMatch(pass, c, standing, rest);
      MatchNeedsLineStart(pass, c, rest);
      FrontUnopened(front, rest);
    }
  }

  // Openers left open.

  /** An opener left open at a line start takes the line, and leaves no ink of it. */
  lemma UnclosedAtLineStart(line: string, rest: string)
    requires Unbroken(line) && AtLineEnd(rest)
    ensures UnclosedLineRun(line + rest)
         == if OccursAt(line[BlankRun(line)..], Opener, 0) then |line| + BreakRun(rest) else 0
  {
    hide OccursAt, UnclosedRun, BlankRun, BreakRun, UnclosedLineRun, IsBreak;
    var x, b := line + rest, BlankRun(line);
    var y := line[b..];
    BlankRunOnLine(line, rest);
    DropInFront(line, rest, b);
    UnclosedRunOnLine(y, rest);
    UnclosedToEnd(y);
    DropFront(line, rest);
    OpenerIsLong(y);
    UnclosedLineRunUnfolds(x, b, UnclosedRun(y));
  }

  lemma UnclosedLineRunUnfolds(x: string, b: nat, m: nat)
    requires b <= |x| && BlankRun(x) == b && UnclosedRun(x[b..]) == m && b + m <= |x|
    ensures UnclosedLineRun(x) == if m == 0 then 0 else b + m + BreakRun(x[b + m..])
  {
    hide UnclosedRun, BlankRun, BreakRun;
  }

  lemma OpenerIsLong(s: string)
    ensures OccursAt(s, Opener, 0) ==> |s| > 0
  {}

  lemma UnclosedRunOnLine(line: string, rest: string)
    requires Unbroken(line) && AtLineEnd(rest)
    ensures UnclosedRun(line + rest) == UnclosedRun(line)
  {
    OpenerOnLine(line, rest);
    if OccursAt(line, Opener, 0) {
      assert (line + rest)[12..] == line[12..] + rest;
      LineRunOnLine(line[12..], rest);
    }
  }

  lemma UnclosedToEnd(line: string)
    requires Unbroken(line)
    ensures UnclosedRun(line) == if OccursAt(line, Opener, 0) then |line| else 0
  {
    if OccursAt(line, Opener, 0) {
      LineRunOnLine(line[12..], "");
      assert line[12..] + "" == line[12..];
    }
  }

  /** A match that reaches the end of the text leaves nothing. */
  lemma AllMatched(pass: Pass, b: bool, s: string)
    requires WithinLine(pass) && s != "" && Match(pass, b, s) == |s|
    ensures Replace(pass, b, s) == ""
  {
    hide Match;
    assert s[|s|..] == "";
  }

  lemma OpenerTakesLine(line: string)
    requires Unbroken(line) && OccursAt(line, Opener, 0)
    ensures Match(InlineUnclosed, true, line) == |line| > 0
  {
    UnclosedToEnd(line);
  }

  /** A line of blanks and one open opener leaves no ink. */
  lemma BlanksThenOpener(line: string)
    requires Unbroken(line) && OccursAt(line[BlankRun(line)..], Opener, 0)
    ensures Left(line) == ""
  {
    hide Match, Replace, OccursAt, Ink, IsSpace;
    var b := BlankRun(line);
    var blanks, tail := line[..b], line[b..];
    OpenerTakesLine(tail);
    TailNotEmpty(tail);
    AllMatched(InlineUnclosed, true, tail);
    BlanksPassed(InlineUnclosed, true, blanks, tail);
    assert line == blanks + tail && blanks + "" == blanks;
    BlanksAreSpace(blanks);
    NoInkInSpace(blanks);
  }

  lemma TailNotEmpty(tail: string)
    requires OccursAt(tail, Opener, 0)
    ensures tail != ""
  {}

  lemma BlanksAreSpace(blanks: string)
    requires forall i | 0 <= i < |blanks| :: IsBlank(blanks[i])
    ensures forall i | 0 <= i < |blanks| :: IsSpace(blanks[i])
  {}

  function Left(s: string): string { Ink(Replace(InlineUnclosed, true, s)) }

  lemma LeftByLines(line: string, rest: string)
    requires Unbroken(line) && AtLineEnd(rest)
    ensures Left(line + rest) == Left(line) + Left(rest)
  {
    SplitAtLineEnd(InlineUnclosed, true, line, rest);
    InkJoins(Replace(InlineUnclosed, true, line), Replace(InlineUnclosed, true, rest));
  }

  lemma LeftPastBreak(s: string)
    requires s != "" && IsBreak(s[0])
    ensures Left(s) == Left(s[1..])
  {
    BreakPassed(InlineUnclosed, true, s);
  }

  lemma LeftPastBreaks(rest: string)
    ensures Left(rest) == Left(rest[BreakRun(rest)..])
  {
    if BreakRun(rest) > 0 { LeftPastBreak(rest); }
    if BreakRun(rest) == 2 {
      LeftPastBreak(rest[1..]);
      assert rest[1..][1..] == rest[2..];
    }
  }

  lemma LeftPastFront(front: string, rest: string)
    requires Unopened(front) && front != "" && IsTerminator(front[|front| - 1])
    ensures Left(front + rest) == Ink(front) + Left(rest)
  {
    hide Replace, Unopened;
    FrontPassed(InlineUnclosed, front, rest);
    InkJoins(front, Replace(InlineUnclosed, true, rest));
  }

  /** A whole line an open opener takes leaves what the lines behind it leave. */
  lemma UnclosedLineTaken(s: string)
    requires UnclosedLineRun(s) > 0
    ensures Left(s) == Left(s[UnclosedLineRun(s)..])
  {
    hide Left, UnclosedLineRun, BlankRun, OccursAt;
    var line, rest := s[..LineRun(s)], s[LineRun(s)..];
    assert s == line + rest;
    UnclosedAtLineStart(line, rest);
    LeftByLines(line, rest);
    BlanksThenOpener(line);
    LeftPastBreaks(rest);
    SliceOfSlice(s, LineRun(s), BreakRun(rest));
  }

  lemma LeftAtBreak(c: bool, s: string)
    requires s != "" && IsBreak(s[0])
    requires Left(Replace(FullLineUnclosed, true, s[1..])) == Left(s[1..])
    ensures Left(Replace(FullLineUnclosed, c, s)) == Left(s) && AtLineEnd(Replace(FullLineUnclosed, c, s))
  {
    hide Replace, Left;
    var cut := Replace(FullLineUnclosed, true, s[1..]);
    BreakPassed(FullLineUnclosed, c, s);
    LeftPastBreak(s);
    LeftPastBreak([s[0]] + cut);
    assert ([s[0]] + cut)[1..] == cut;
  }

  lemma LeftAtMatch(c: bool, s: string)
    requires s != "" && Match(FullLineUnclosed, c, s) > 0
    requires var n := Match(FullLineUnclosed, c, s);
             Left(Replace(FullLineUnclosed, IsTerminator(s[n - 1]), s[n..])) == Left(s[n..])
    ensures Left(Replace(FullLineUnclosed, c, s)) == Left(s)
  {
    hide Replace, Match, Left, IsTerminator;
    MatchTaken(FullLineUnclosed, c, s);
    MatchIsUnclosedLine(c, s);
    UnclosedLineTaken(s);
  }

  /** What leaves the same behind a front leaves the same with it, where the front is a whole line or holds no
      opener. */
  lemma LeftSameBehind(front: string, rest: string, cut: string)
    requires Left(cut) == Left(rest)
    requires || (Unbroken(front) && AtLineEnd(rest) && AtLineEnd(cut))
             || front == ""
             || (Unopened(front) && IsTerminator(front[|front| - 1]))
    ensures Left(front + cut) == Left(front + rest)
  {
    hide Left, Unopened, IsTerminator;
    if Unbroken(front) && AtLineEnd(rest) && AtLineEnd(cut) {
      LeftByLines(front, rest);
      LeftByLines(front, cut);
    } else if front == "" {
      assert front + cut == cut && front + rest == rest;
    } else {
      LeftPastFront(front, rest);
      LeftPastFront(front, cut);
    }
  }

  /** Cutting whole lines off first changes nothing visible of what an open opener takes. */
  lemma {:induction false} UnclosedLinesFirst(b: bool, s: string)
    requires Undisturbed(FullLineUnclosed, b, false, s)
    ensures Left(Replace(FullLineUnclosed, b, s)) == Left(s)
    decreases |s|
  {
    hide Replace, Match, Left, IsTerminator, Undisturbed, Unopened, Unbroken;
    var front, rest, c, standing := Approach(FullLineUnclosed, b, s);
    if rest == "" {
      ReplaceNothing(FullLineUnclosed, c);
    } else if IsBreak(rest[0]) {
      UndisturbedPastBreak(FullLineUnclosed, c, standing, rest);
      UnclosedLinesFirst(true, rest[1..]);
      LeftAtBreak(c, rest);
    } else {
      var n := Match(FullLineUnclosed, c, rest);
      UndisturbedAtMatch(FullLineUnclosed, c, standing, rest);
      UnclosedLinesFirst(IsTerminator(rest[n - 1]), rest[n..]);
      LeftAtMatch(c, rest);
    }
    LeftSameBehind(front, rest, Replace(FullLineUnclosed, c, rest));
  }

  lemma MatchIsUnclosedLine(c: bool, s: string)
    requires Match(FullLineUnclosed, c, s) > 0
    ensures c && Match(FullLineUnclosed, c, s) == UnclosedLineRun(s)
  {}

  lemma ReplaceNothing(pass: Pass, b: bool)
    ensures Replace(pass, b, "") == "" && AtLineEnd("")
  {}

  // Closed markers.

  /** How far a closed marker at a line start reaches, the blanks around it included. */
  function ClosedEnd(line: string): (n: nat)
    ensures n <= |line|
  {
    var b := BlankRun(line);
    var m := ClosedRun(line[b..]);
    if m == 0 then 0 else b + m + BlankRun(line[b + m..])
  }

  lemma ClosedRunOnLine(line: string, rest: string)
    requires Unbroken(line) && AtLineEnd(rest)
    ensures ClosedRun(line + rest) == ClosedRun(line)
  {
    OpenerOnLine(line, rest);
    if OccursAt(line, Opener, 0) {
      assert (line + rest)[12..] == line[12..] + rest;
      KeepsOnLine(line[12..], rest);
    }
  }

  lemma ClosedAtLineStart(line: string, rest: string)
    requires Unbroken(line) && AtLineEnd(rest)
    ensures var n := ClosedEnd(line);
            ClosedLineRun(line + rest) == (if n == |line| && n > 0 then n + BreakRun(rest) else n)
  {
    hide ClosedRun, BlankRun;
    var x, b := line + rest, BlankRun(line);
    BlankRunOnLine(line, rest);
    assert x[b..] == line[b..] + rest;
    ClosedRunOnLine(line[b..], rest);
    var m := ClosedRun(line[b..]);
    if m > 0 {
      assert x[b + m..] == line[b + m..] + rest;
      BlankRunOnLine(line[b + m..], rest);
      var n := ClosedEnd(line);
      assert x[n..] == line[n..] + rest;
      if n == |line| { assert line[n..] + rest == rest; }
    }
  }

  /** What both kinds of markers leave visible. */
  function LeftOfBoth(s: string): string { Left(Replace(Inline, true, s)) }

  lemma LeftOfBothByLines(line: string, rest: string)
    requires Unbroken(line) && AtLineEnd(rest)
    ensures LeftOfBoth(line + rest) == LeftOfBoth(line) + LeftOfBoth(rest)
  {
    SplitAtLineEnd(Inline, true, line, rest);
    StaysUnbroken(Inline, true, line);
    StaysAtLineEnd(Inline, true, rest);
    LeftByLines(Replace(Inline, true, line), Replace(Inline, true, rest));
  }

  lemma LeftOfBothPastBreak(s: string)
    requires s != "" && IsBreak(s[0])
    ensures LeftOfBoth(s) == LeftOfBoth(s[1..])
  {
    BreakPassed(Inline, true, s);
    LeftPastBreak(Replace(Inline, true, s));
  }

  lemma LeftOfBothPastBreaks(rest: string)
    ensures LeftOfBoth(rest) == LeftOfBoth(rest[BreakRun(rest)..])
  {
    if BreakRun(rest) > 0 { LeftOfBothPastBreak(rest); }
    if BreakRun(rest) == 2 {
      LeftOfBothPastBreak(rest[1..]);
      assert rest[1..][1..] == rest[2..];
    }
  }

  lemma LeftOfBothPastBlanks(blanks: string, s: string)
    requires forall i | 0 <= i < |blanks| :: IsBlank(blanks[i])
    ensures LeftOfBoth(blanks + s) == LeftOfBoth(s)
  {
    BlanksPassed(Inline, true, blanks, s);
    var r := Replace(Inline, true, s);
    BlanksPassed(InlineUnclosed, true, blanks, r);
    InkJoins(blanks, Replace(InlineUnclosed, true, r));
    NoInkInSpace(blanks);
    assert "" + Left(r) == Left(r);
  }

  lemma LeftOfBothPastMarker(s: string)
    requires ClosedRun(s) > 0
    ensures LeftOfBoth(s) == LeftOfBoth(s[ClosedRun(s)..])
  {
    var n := ClosedRun(s);
    assert Replace(Inline, true, s) == Replace(Inline, IsTerminator(s[n - 1]), s[n..]);
    BolIdle(Inline, IsTerminator(s[n - 1]), true, s[n..]);
  }

  lemma LeftOfClosedLine(line: string)
    requires ClosedEnd(line) > 0
    ensures LeftOfBoth(line) == LeftOfBoth(line[ClosedEnd(line)..])
  {
    hide LeftOfBoth, ClosedRun, BlankRun;
    var b := BlankRun(line);
    var x := line[b..];
    assert line == line[..b] + x;
    LeftOfBothPastBlanks(line[..b], x);
    var m := ClosedRun(x);
    var y := x[m..];
    LeftOfBothPastMarker(x);
    assert y == line[b + m..];
    var k := BlankRun(y);
    assert y == y[..k] + y[k..] && y[k..] == line[ClosedEnd(line)..];
    LeftOfBothPastBlanks(y[..k], y[k..]);
  }

  lemma LeftOfBothPastFront(front: string, rest: string)
    requires Unopened(front) && front != "" && IsTerminator(front[|front| - 1])
    ensures LeftOfBoth(front + rest) == Ink(front) + LeftOfBoth(rest)
  {
    hide Replace, Unopened, Left;
    FrontPassed(Inline, front, rest);
    LeftPastFront(front, Replace(Inline, true, rest));
  }

  /** A closed marker at a line start leaves what the text behind its match leaves. */
  lemma ClosedLineTaken(s: string)
    requires ClosedLineRun(s) > 0
    ensures LeftOfBoth(s) == LeftOfBoth(s[ClosedLineRun(s)..])
  {
    hide LeftOfBoth, ClosedLineRun, ClosedEnd;
    var line, rest := s[..LineRun(s)], s[LineRun(s)..];
    assert s == line + rest;
    var n := ClosedEnd(line);
    ClosedAtLineStart(line, rest);
    LeftOfBothByLines(line, rest);
    LeftOfClosedLine(line);
    DropInFront(line, rest, n);
    if n == |line| {
      NothingLeftOfNothing();
      assert line[n..] == "";
      LeftOfBothPastBreaks(rest);
      SliceOfSlice(s, n, BreakRun(rest));
    } else {
      LeftOfBothByLines(line[n..], rest);
    }
  }

  lemma LeftOfBothAtBreak(c: bool, s: string)
    requires s != "" && IsBreak(s[0])
    requires LeftOfBoth(Replace(FullLine, true, s[1..])) == LeftOfBoth(s[1..])
    ensures LeftOfBoth(Replace(FullLine, c, s)) == LeftOfBoth(s) && AtLineEnd(Replace(FullLine, c, s))
  {
    hide Replace, LeftOfBoth;
    var cut := Replace(FullLine, true, s[1..]);
    BreakPassed(FullLine, c, s);
    LeftOfBothPastBreak(s);
    LeftOfBothPastBreak([s[0]] + cut);
    assert ([s[0]] + cut)[1..] == cut;
  }

  lemma LeftOfBothAtMatch(c: bool, s: string)
    requires s != "" && Match(FullLine, c, s) > 0
    requires var n := Match(FullLine, c, s);
             LeftOfBoth(Replace(FullLine, IsTerminator(s[n - 1]), s[n..])) == LeftOfBoth(s[n..])
    ensures LeftOfBoth(Replace(FullLine, c, s)) == LeftOfBoth(s)
  {
    hide Replace, Match, LeftOfBoth, IsTerminator;
    MatchTaken(FullLine, c, s);
    MatchIsClosedLine(c, s);
    ClosedLineTaken(s);
  }

  /** What leaves the same behind a front leaves the same with it, where the front is a whole line or holds no
      opener. */
  lemma LeftOfBothSameBehind(front: string, rest: string, cut: string)
    requires LeftOfBoth(cut) == LeftOfBoth(rest)
    requires || (Unbroken(front) && AtLineEnd(rest) && AtLineEnd(cut))
             || front == ""
             || (Unopened(front) && IsTerminator(front[|front| - 1]))
    ensures LeftOfBoth(front + cut) == LeftOfBoth(front + rest)
  {
    hide LeftOfBoth, Unopened, IsTerminator;
    if Unbroken(front) && AtLineEnd(rest) && AtLineEnd(cut) {
      LeftOfBothByLines(front, rest);
      LeftOfBothByLines(front, cut);
    } else if front == "" {
      assert front + cut == cut && front + rest == rest;
    } else {
      LeftOfBothPastFront(front, rest);
      LeftOfBothPastFront(front, cut);
    }
  }

  /** Cutting whole lines off first changes nothing visible of what the markers leave. */
  lemma {:induction false} ClosedLinesFirst(b: bool, s: string)
    requires Undisturbed(FullLine, b, false, s)
    ensures LeftOfBoth(Replace(FullLine, b, s)) == LeftOfBoth(s)
    decreases |s|
  {
    hide Replace, Match, LeftOfBoth, IsTerminator, Undisturbed, Unopened, Unbroken;
    var front, rest, c, standing := Approach(FullLine, b, s);
    if rest == "" {
      ReplaceNothing(FullLine, c);
    } else if IsBreak(rest[0]) {
      UndisturbedPastBreak(FullLine, c, standing, rest);
      ClosedLinesFirst(true, rest[1..]);
      LeftOfBothAtBreak(c, rest);
    } else {
      var n := Match(FullLine, c, rest);
      UndisturbedAtMatch(FullLine, c, standing, rest);
      ClosedLinesFirst(IsTerminator(rest[n - 1]), rest[n..]);
      LeftOfBothAtMatch(c, rest);
    }
    LeftOfBothSameBehind(front, rest, Replace(FullLine, c, rest));
  }

  lemma MatchIsClosedLine(c: bool, s: string)
    requires Match(FullLine, c, s) > 0
    ensures c && Match(FullLine, c, s) == ClosedLineRun(s)
  {}

  lemma NothingLeftOfNothing()
    ensures LeftOfBoth("") == ""
  {}

  // The whole strip.

  lemma {:induction false} TidyingKeepsInk(pass: Pass, b: bool, s: string)
    requires pass.TrailingBlanks? || pass.ExtraNewlines?
    ensures Ink(Replace(pass, b, s)) == Ink(s)
    decreases |s|
  {
    if s != "" {
      var n := Match(pass, b, s);
      if n > 0 {
        var front, behind := s[..n], s[n..];
        TidyingKeepsInk(pass, IsTerminator(s[n - 1]), behind);
        MatchIsSpace(pass, b, s);
        TidiedFront(pass, b, s, front, behind);
      } else {
        TidyingKeepsInk(pass, IsTerminator(s[0]), s[1..]);
        OnePassed(pass, b, s);
        hide Replace, Match, IsTerminator;
        var rest := Replace(pass, IsTerminator(s[0]), s[1..]);
        InkOfOneMore(s[0], rest);
        InkOfOneMore(s[0], s[1..]);
        assert [s[0]] + s[1..] == s;
      }
    }
  }

  lemma InkOfOneMore(c: char, s: string)
    ensures Ink([c] + s) == (if IsSpace(c) then "" else [c]) + Ink(s)
  {
    assert ([c] + s)[1..] == s;
  }

  lemma MatchIsSpace(pass: Pass, b: bool, s: string)
    requires pass.TrailingBlanks? || pass.ExtraNewlines?
    ensures forall i | 0 <= i < Match(pass, b, s) :: IsSpace(s[i])
  {}

  lemma TidiedFront(pass: Pass, b: bool, s: string, front: string, behind: string)
    requires s == front + behind && front != "" && Match(pass, b, s) == |front| && behind == s[|front|..]
    requires pass.TrailingBlanks? || pass.ExtraNewlines?
    requires forall i | 0 <= i < |front| :: IsSpace(s[i])
    requires Ink(Replace(pass, IsTerminator(s[|front| - 1]), behind)) == Ink(behind)
    ensures Ink(Replace(pass, b, s)) == Ink(s)
  {
    hide Match, Ink, IsTerminator;
    assert forall i | 0 <= i < |front| :: front[i] == s[i];
    InkJoins(front, behind);
    NoInkInSpace(front);
    InkJoins(Replacement(pass), Replace(pass, IsTerminator(s[|front| - 1]), behind));
    NoInkInSpace(Replacement(pass));
  }

  lemma {:induction false} TrimKeepsInk(s: string)
    ensures Ink(Trim(s)) == Ink(s)
    decreases |s|
  {
    if s != "" && IsSpace(s[0]) {
      assert Trim(s) == Trim(s[1..]);
      TrimKeepsInk(s[1..]);
    } else {
      TrimEndKeepsInk(s);
    }
  }

  lemma {:induction false} TrimEndKeepsInk(s: string)
    ensures Ink(TrimEnd(s)) == Ink(s)
  {
    if s != "" && IsSpace(s[|s| - 1]) {
      TrimEndKeepsInk(s[..|s| - 1]);
      assert s == s[..|s| - 1] + [s[|s| - 1]];
      InkJoins(s[..|s| - 1], [s[|s| - 1]]);
    }
  }

  lemma {:induction false} NothingToCut(pass: Pass, b: bool, s: string)
    requires WithinLine(pass) && forall i: nat :: !OccursAt(s, Opener, i)
    ensures Replace(pass, b, s) == s
    decreases |s|
  {
    if s != "" {
      forall i: nat ensures !OccursAt(s[1..], Opener, i) { assert !OccursAt(s, Opener, i + 1); }
      assert !OccursAt(s, Opener, 0);
      NothingToCut(pass, IsTerminator(s[0]), s[1..]);
    }
  }

  /** Tidying takes white space only. */
  lemma StripKeepsInkOfCut(text: string)
    requires HasOpener(text)
    ensures Ink(StripActivityMarkers(text)) == Ink(CutMarkers(text))
  {
    hide Replace, Ink, Trim, CutMarkers;
    var cut := CutMarkers(text);
    var tidy := Replace(TrailingBlanks, true, cut);
    TidyingKeepsInk(TrailingBlanks, true, cut);
    TidyingKeepsInk(ExtraNewlines, true, tidy);
    TrimKeepsInk(Replace(ExtraNewlines, true, tidy));
  }

  /** What the third pass reads: the text with its whole-line and its inline closed markers cut out. */
  function ClosedCutOut(text: string): string { Replace(Inline, true, Replace(FullLine, true, text)) }

  /** Neither whole-line pass matches behind an opener it left standing on the same line. */
  predicate KeepsToItsLines(text: string) {
    Undisturbed(FullLine, true, false, text) && Undisturbed(FullLineUnclosed, true, false, ClosedCutOut(text))
  }

  /** Where the whole-line passes keep to their lines the strip keeps every visible character outside the markers,
      in order: it takes away what cutting the closed markers, and then the open ones, takes away, and white space. */
  lemma VisibleTextKept(text: string)
    requires KeepsToItsLines(text)
    ensures Ink(StripActivityMarkers(text)) == Ink(MarkersOut(text))
  {
    hide Replace, Ink, Undisturbed;
    if HasOpener(text) {
      StripKeepsInkOfCut(text);
      UnclosedLinesFirst(true, ClosedCutOut(text));
      ClosedLinesFirst(true, text);
    } else {
      NothingToCut(Inline, true, text);
      NothingToCut(InlineUnclosed, true, text);
    }
  }
}
