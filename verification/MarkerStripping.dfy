/** The answer with the server's own markers cut out of it. */
module MarkerStripping {
  import opened Text
  import opened ActivityScan

  /** The replacements of the strip, in the order they are made. */
  datatype Pass =
    | FullLine           // a closed marker with its line
    | Inline             // a closed marker
    | FullLineUnclosed   // an opener left open, with its line
    | InlineUnclosed     // an opener left open, to the end of its line
    | TrailingBlanks     // spaces and tabs before the end of a line
    | ExtraNewlines      // three newlines or more, which become two

  /** What `^` and `$` take for the end of a line; a marker body stops at `IsBreak` only. */
  predicate IsTerminator(c: char) { IsBreak(c) || c == '\U{2028}' || c == '\U{2029}' }

  predicate IsBlank(c: char) { c == ' ' || c == '\t' }

  function BlankRun(s: string): (n: nat)
    ensures n <= |s| && forall i | 0 <= i < n :: IsBlank(s[i])
    ensures n < |s| ==> !IsBlank(s[n])
  {
    if s == "" || !IsBlank(s[0]) then 0 else 1 + BlankRun(s[1..])
  }

  function NewlineRun(s: string): (n: nat)
    ensures n <= |s| && forall i | 0 <= i < n :: s[i] == '\n'
    ensures n < |s| ==> s[n] != '\n'
  {
    if s == "" || s[0] != '\n' then 0 else 1 + NewlineRun(s[1..])
  }

  /** `(?:\r?\n)?` */
  function BreakRun(s: string): nat {
    if |s| >= 2 && s[0] == '\r' && s[1] == '\n' then 2
    else if |s| >= 1 && s[0] == '\n' then 1
    else 0
  }

  /** How far the line `s` starts on reaches. */
  function LineRun(s: string): (n: nat)
    ensures n <= |s|
    ensures n < |s| ==> IsBreak(s[n])
    ensures forall i | 0 <= i < n :: !IsBreak(s[i])
  {
    if s == "" || IsBreak(s[0]) then 0 else 1 + LineRun(s[1..])
  }

  /** The length of `%%%ACTIVITY:[^\n\r]{0,480}?%%%` at the front of `s`, or 0. */
  function ClosedRun(s: string): (n: nat)
    ensures n <= |s|
  {
    if OccursAt(s, Opener, 0) && Keeps(s[12..]) then 12 + IndexOf(s[12..], Closer) + 3 else 0
  }

  /** The length of `%%%ACTIVITY:[^\n\r]*` at the front of `s`, or 0. */
  function UnclosedRun(s: string): (n: nat)
    ensures n <= |s|
  {
    if OccursAt(s, Opener, 0) then 12 + LineRun(s[12..]) else 0
  }

  /** The same two at a line start, blanks before them and the line's end behind them included. */
  function ClosedLineRun(s: string): (n: nat)
    ensures n <= |s|
  {
    var b := BlankRun(s);
    var m := ClosedRun(s[b..]);
    if m == 0 then 0
    else
      var after := b + m + BlankRun(s[b + m..]);
      after + BreakRun(s[after..])
  }

  function UnclosedLineRun(s: string): (n: nat)
    ensures n <= |s|
  {
    var b := BlankRun(s);
    var m := UnclosedRun(s[b..]);
    if m == 0 then 0 else b + m + BreakRun(s[b + m..])
  }

  /** How much a pattern matches at the front of `s`; `bol` says that a line starts there. */
  function Match(pass: Pass, bol: bool, s: string): (n: nat)
    ensures n <= |s|
  {
    match pass
    case Inline => ClosedRun(s)
    case InlineUnclosed => UnclosedRun(s)
    case FullLine => if bol then ClosedLineRun(s) else 0
    case FullLineUnclosed => if bol then UnclosedLineRun(s) else 0
    case TrailingBlanks =>
      var b := BlankRun(s);
      if b == |s| || IsTerminator(s[b]) then b else 0
    case ExtraNewlines =>
      if NewlineRun(s) >= 3 then NewlineRun(s) else 0
  }

  function Replacement(pass: Pass): string { if pass.ExtraNewlines? then "\n\n" else "" }

  /** One global `.replace` over the rest of a text: leftmost matches, never overlapping. */
  function Replace(pass: Pass, bol: bool, s: string): string
    decreases |s|
  {
    var n := Match(pass, bol, s);
    if s == "" then ""
    else if n > 0 then Replacement(pass) + Replace(pass, IsTerminator(s[n - 1]), s[n..])
    else [s[0]] + Replace(pass, IsTerminator(s[0]), s[1..])
  }

  function CutMarkers(s: string): string {
    Replace(InlineUnclosed, true,
            Replace(FullLineUnclosed, true,
                    Replace(Inline, true,
                            Replace(FullLine, true, s))))
  }

  function Tidied(s: string): string {
    Trim(Replace(ExtraNewlines, true, Replace(TrailingBlanks, true, s)))
  }

  predicate HasOpener(s: string) { IndexOf(s, Opener) != -1 }

  function StripActivityMarkers(text: string): string {
    if !HasOpener(text) then text else Tidied(CutMarkers(text))
  }

  // No opener is left.

  /** The passes behind whose matches the line ends. */
  predicate EndsLines(pass: Pass) { pass.InlineUnclosed? || pass.TrailingBlanks? || pass.ExtraNewlines? }

  /** Up to the first terminator of its result, such a pass kept the text as it was. */
  lemma {:induction false} FrontKept(pass: Pass, bol: bool, s: string, k: nat)
    requires EndsLines(pass) && k <= |Replace(pass, bol, s)|
    requires forall i | 0 <= i < k :: !IsTerminator(Replace(pass, bol, s)[i])
    ensures k <= |s| && Replace(pass, bol, s)[..k] == s[..k]
    decreases |s|
  {
    hide Match, Replace, IsTerminator, EndsLines;
    var n := Match(pass, bol, s);
    var r := Replace(pass, bol, s);
    if s == "" {
      NothingReplaced(pass, bol);
    } else if k != 0 {
      if n > 0 {
        LineEndsBehind(pass, bol, s);
      } else {
        var rest := Replace(pass, IsTerminator(s[0]), s[1..]);
        StepPast(pass, bol, s);
        forall i | 0 <= i < k - 1 ensures !IsTerminator(rest[i]) { assert rest[i] == r[i + 1]; }
        FrontKept(pass, IsTerminator(s[0]), s[1..], k - 1);
        SameFrontOneMore(s, r, rest, k);
      }
    }
  }

  lemma NothingReplaced(pass: Pass, bol: bool)
    ensures Replace(pass, bol, "") == ""
  {}

  lemma SameFrontOneMore(s: string, r: string, rest: string, k: nat)
    requires s != "" && 0 < k <= |r| && r == [s[0]] + rest && k <= |s| && rest[..k - 1] == s[1..][..k - 1]
    ensures r[..k] == s[..k]
  {
    assert s[..k] == [s[0]] + s[1..][..k - 1];
    assert r[..k] == [s[0]] + rest[..k - 1];
  }

  lemma LineEndsBehind(pass: Pass, bol: bool, s: string)
    requires EndsLines(pass) && s != "" && Match(pass, bol, s) > 0
    ensures Replace(pass, bol, s) == "" || IsTerminator(Replace(pass, bol, s)[0])
  {
    var n := Match(pass, bol, s);
    if !pass.ExtraNewlines? && n < |s| {
      assert IsTerminator(s[n]);
      assert Match(pass, IsTerminator(s[n - 1]), s[n..]) == 0;
    }
  }

  lemma OpenerBehind(front: string, rest: string)
    requires forall c | c in front :: c == '\n'
    requires forall i: nat :: !OccursAt(rest, Opener, i)
    ensures forall i: nat :: !OccursAt(front + rest, Opener, i)
  {
    forall i: nat ensures !OccursAt(front + rest, Opener, i) {
      if i < |front| {
        assert front[i] in front;
      } else {
        assert !OccursAt(rest, Opener, i - |front|);
      }
    }
  }

  lemma OpenerIsUnbroken(s: string)
    requires OccursAt(s, Opener, 0)
    ensures forall i | 0 <= i < 12 :: !IsTerminator(s[i])
  {}

  lemma SameFront(r: string, s: string)
    requires 12 <= |r| && 12 <= |s| && r[..12] == s[..12]
    ensures OccursAt(r, Opener, 0) == OccursAt(s, Opener, 0)
  {
    forall i | 0 <= i < 12 ensures r[i] == s[i] { assert r[..12][i] == s[..12][i]; }
  }

  /** A character put back in front starts an opener only if it did before. */
  lemma OpenerAhead(pass: Pass, bol: bool, s: string)
    requires EndsLines(pass) && s != "" && Match(pass, bol, s) == 0 && !OccursAt(s, Opener, 0)
    requires forall i: nat :: !OccursAt(Replace(pass, IsTerminator(s[0]), s[1..]), Opener, i)
    ensures forall i: nat :: !OccursAt(Replace(pass, bol, s), Opener, i)
  {
    var r, rest := Replace(pass, bol, s), Replace(pass, IsTerminator(s[0]), s[1..]);
    assert r == [s[0]] + rest;
    forall i: nat ensures !OccursAt(r, Opener, i) {
      if i > 0 {
        assert !OccursAt(rest, Opener, i - 1);
      } else if OccursAt(r, Opener, 0) {
        OpenerIsUnbroken(r);
        FrontKept(pass, bol, s, 12);
        SameFront(r, s);
      }
    }
  }

  lemma {:induction false} NoOpenerMade(pass: Pass, bol: bool, s: string)
    requires EndsLines(pass) && (pass.InlineUnclosed? || forall i: nat :: !OccursAt(s, Opener, i))
    ensures forall i: nat :: !OccursAt(Replace(pass, bol, s), Opener, i)
    decreases |s|
  {
    hide Match, Replace, IsTerminator, EndsLines, OccursAt;
    if s == "" {
      NothingReplaced(pass, bol);
      NothingOccurs();
    } else {
      var n := Match(pass, bol, s);
      var m := if n > 0 then n else 1;
      forall i: nat | !pass.InlineUnclosed? ensures !OccursAt(s[m..], Opener, i) {
        OccursBehind(s, m, i);
      }
      NoOpenerMade(pass, IsTerminator(s[m - 1]), s[m..]);
      if n > 0 {
        MatchReplaced(pass, bol, s);
        OpenerBehind(Replacement(pass), Replace(pass, IsTerminator(s[n - 1]), s[n..]));
      } else {
        UnclosedOpenerMatches(pass, bol, s);
        OpenerAhead(pass, bol, s);
      }
    }
  }

  lemma NothingOccurs()
    ensures forall i: nat :: !OccursAt("", Opener, i)
  {}

  lemma OccursBehind(s: string, m: nat, i: nat)
    requires m <= |s|
    ensures OccursAt(s[m..], Opener, i) == OccursAt(s, Opener, m + i)
  {}

  lemma MatchReplaced(pass: Pass, bol: bool, s: string)
    requires s != "" && Match(pass, bol, s) > 0
    ensures var n := Match(pass, bol, s);
            Replace(pass, bol, s) == Replacement(pass) + Replace(pass, IsTerminator(s[n - 1]), s[n..])
  {
    hide Match, Replacement;
  }

  lemma UnclosedOpenerMatches(pass: Pass, bol: bool, s: string)
    requires if pass.InlineUnclosed? then Match(pass, bol, s) == 0 else !OccursAt(s, Opener, 0)
    ensures !OccursAt(s, Opener, 0)
  {}

  /** `Trim` gives a stretch of its text. */
  lemma {:induction false} TrimIsStretch(s: string) returns (from: nat)
    ensures from + |Trim(s)| <= |s| && Trim(s) == s[from..from + |Trim(s)|]
    decreases |s|
  {
    from := 0;
    if s != "" && IsSpace(s[0]) {
      assert Trim(s) == Trim(s[1..]);
      from := TrimIsStretch(s[1..]);
      from := from + 1;
    } else {
      TrimEndIsPrefix(s);
    }
  }

  lemma {:induction false} TrimEndIsPrefix(s: string)
    ensures TrimEnd(s) <= s
  {
    if s != "" && IsSpace(s[|s| - 1]) { TrimEndIsPrefix(s[..|s| - 1]); }
  }

  lemma NoOpenerTrimmedIn(s: string)
    requires !HasOpener(s)
    ensures !HasOpener(Trim(s))
  {
    var from := TrimIsStretch(s);
    forall i: nat ensures !OccursAt(Trim(s), Opener, i) {
      assert !OccursAt(s, Opener, from + i);
    }
  }

  /** Whatever the text, the stripped answer holds no opener: not even one a deletion joined. */
  lemma StrippedHoldsNoOpener(text: string)
    ensures !HasOpener(StripActivityMarkers(text))
  {
    if HasOpener(text) {
      hide Replace, Trim;
      var cut := CutMarkers(text);
      NoOpenerMade(InlineUnclosed, true,
                   Replace(FullLineUnclosed, true, Replace(Inline, true, Replace(FullLine, true, text))));
      NoOpenerMade(TrailingBlanks, true, cut);
      NoOpenerMade(ExtraNewlines, true, Replace(TrailingBlanks, true, cut));
      NoOpenerTrimmedIn(Replace(ExtraNewlines, true, Replace(TrailingBlanks, true, cut)));
    }
  }

  lemma StrippingTwiceIsOnce(text: string)
    ensures StripActivityMarkers(StripActivityMarkers(text)) == StripActivityMarkers(text)
  {
    StrippedHoldsNoOpener(text);
  }

  // Nothing is added.

  /** `r` is `s` with characters left out. */
  predicate Subsequence(r: string, s: string)
    decreases |s|
  {
    r == "" || (s != "" && ((r[0] == s[0] && Subsequence(r[1..], s[1..])) || Subsequence(r, s[1..])))
  }

  lemma {:induction false} SubsequenceBehind(r: string, front: string, s: string)
    requires Subsequence(r, s)
    ensures Subsequence(r, front + s)
    decreases |front|
  {
    if front == "" {
      assert front + s == s;
    } else {
      SubsequenceBehind(r, front[1..], s);
      assert (front + s)[1..] == front[1..] + s;
    }
  }

  lemma {:induction false} SubsequenceJoins(front: string, r: string, s: string)
    requires Subsequence(r, s)
    ensures Subsequence(front + r, front + s)
    decreases |front|
  {
    if front == "" {
      assert front + s == s && front + r == r;
    } else {
      SubsequenceJoins(front[1..], r, s);
      assert (front + s)[1..] == front[1..] + s && (front + r)[1..] == front[1..] + r;
    }
  }

  lemma {:induction false} SubsequenceChains(a: string, b: string, c: string)
    requires Subsequence(a, b) && Subsequence(b, c)
    ensures Subsequence(a, c)
    decreases |c|
  {
    if a != "" {
      if b[0] == c[0] && Subsequence(b[1..], c[1..]) {
        if a[0] == b[0] && Subsequence(a[1..], b[1..]) {
          SubsequenceChains(a[1..], b[1..], c[1..]);
        } else {
          SubsequenceChains(a, b[1..], c[1..]);
        }
      } else {
        SubsequenceChains(a, b, c[1..]);
      }
    }
  }

  /** What a match is replaced by stands at the front of what it matched. */
  lemma ReplacementIsKept(pass: Pass, bol: bool, s: string)
    requires Match(pass, bol, s) > 0
    ensures |Replacement(pass)| <= Match(pass, bol, s) && Replacement(pass) <= s
  {
    if pass.ExtraNewlines? { assert s[0] == '\n' && s[1] == '\n'; }
  }

  lemma StepPast(pass: Pass, bol: bool, s: string)
    requires s != "" && Match(pass, bol, s) == 0
    ensures Replace(pass, bol, s) == s[..1] + Replace(pass, IsTerminator(s[0]), s[1..])
  {
    hide Match, Replacement, IsTerminator;
    assert s[..1] == [s[0]];
  }

  lemma StepOver(pass: Pass, bol: bool, s: string)
    requires s != "" && Match(pass, bol, s) > 0 && Replacement(pass) <= s
    ensures var n := Match(pass, bol, s);
            Replace(pass, bol, s) == s[..|Replacement(pass)|] + Replace(pass, IsTerminator(s[n - 1]), s[n..])
  {
    hide Match, Replacement, IsTerminator;
    assert s[..|Replacement(pass)|] == Replacement(pass);
  }

  /** Each step of a replacement keeps `kept` characters of the next `m` and goes on behind them. */
  lemma ReplaceStep(pass: Pass, bol: bool, s: string) returns (kept: nat, m: nat)
    requires s != ""
    ensures kept <= m <= |s| && 0 < m
    ensures Replace(pass, bol, s) == s[..kept] + Replace(pass, IsTerminator(s[m - 1]), s[m..])
  {
    hide Replace, Match, Replacement, IsTerminator;
    if Match(pass, bol, s) == 0 {
      kept, m := 1, 1;
      StepPast(pass, bol, s);
    } else {
      kept, m := |Replacement(pass)|, Match(pass, bol, s);
      ReplacementIsKept(pass, bol, s);
      StepOver(pass, bol, s);
    }
  }

  lemma ThreeParts(s: string, i: nat, j: nat)
    requires i <= j <= |s|
    ensures s == s[..i] + (s[i..j] + s[j..])
  {}

  lemma {:induction false} ReplaceOnlyDeletes(pass: Pass, bol: bool, s: string)
    ensures Subsequence(Replace(pass, bol, s), s)
    decreases |s|
  {
    if s != "" {
      hide Match, Replace, Subsequence;
      var kept, m := ReplaceStep(pass, bol, s);
      var front, between, behind := s[..kept], s[kept..m], s[m..];
      var rest := Replace(pass, IsTerminator(s[m - 1]), behind);
      ReplaceOnlyDeletes(pass, IsTerminator(s[m - 1]), behind);
      SubsequenceBehind(rest, between, behind);
      SubsequenceJoins(front, rest, between + behind);
      ThreeParts(s, kept, m);
    }
  }

  lemma PassOnlyDeletes(pass: Pass, s: string, text: string)
    requires Subsequence(s, text)
    ensures Subsequence(Replace(pass, true, s), text)
  {
    ReplaceOnlyDeletes(pass, true, s);
    SubsequenceChains(Replace(pass, true, s), s, text);
  }

  lemma StretchIsSubsequence(s: string, from: nat, to: nat)
    requires from <= to <= |s|
    ensures Subsequence(s[from..to], s)
  {
    var r := s[from..to];
    SubsequenceJoins(r, "", s[to..]);
    assert r + "" == r;
    SubsequenceBehind(r, s[..from], r + s[to..]);
    ThreeParts(s, from, to);
  }

  lemma StripOnlyDeletes(text: string)
    ensures Subsequence(StripActivityMarkers(text), text)
  {
    StretchIsSubsequence(text, 0, |text|);
    assert text[0..|text|] == text;
    if HasOpener(text) {
      var a := Replace(FullLine, true, text);
      PassOnlyDeletes(FullLine, text, text);
      var b := Replace(Inline, true, a);
      PassOnlyDeletes(Inline, a, text);
      PassOnlyDeletes(FullLineUnclosed, b, text);
      PassOnlyDeletes(InlineUnclosed, Replace(FullLineUnclosed, true, b), text);
      var cut := CutMarkers(text);
      PassOnlyDeletes(TrailingBlanks, cut, text);
      PassOnlyDeletes(ExtraNewlines, Replace(TrailingBlanks, true, cut), text);
      TrimOnlyDeletes(Replace(ExtraNewlines, true, Replace(TrailingBlanks, true, cut)), text);
    }
  }

  lemma TrimOnlyDeletes(s: string, text: string)
    requires Subsequence(s, text)
    ensures Subsequence(Trim(s), text)
  {
    var from := TrimIsStretch(s);
    StretchIsSubsequence(s, from, from + |Trim(s)|);
    SubsequenceChains(Trim(s), s, text);
  }
}
