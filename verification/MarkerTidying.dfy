/** What tidying an answer leaves: its lines without the blanks behind them, and its paragraphs apart. */
module MarkerTidying {
  import opened Text
  import opened ActivityScan
  import opened MarkerStripping
  import opened MarkerContent
  import opened Sequences

  // Paragraphs.

  /** A stretch of text without newlines, with the newlines behind it. */
  datatype Stretch = Stretch(text: string, newlines: nat)

  function Newlines(n: nat): string { seq(n, i => '\n') }

  function Stretched(stretches: seq<Stretch>): string {
    if stretches == [] then ""
    else stretches[0].text + (Newlines(stretches[0].newlines) + Stretched(stretches[1..]))
  }

  /** The same with at most two newlines in a row. */
  function Capped(stretches: seq<Stretch>): (r: seq<Stretch>)
    ensures |r| == |stretches|
    ensures forall i :: 0 <= i < |r| ==>
              r[i] == Stretch(stretches[i].text, if stretches[i].newlines <= 2 then stretches[i].newlines else 2)
  {
    seq(|stretches|, i requires 0 <= i < |stretches| =>
          Stretch(stretches[i].text, if stretches[i].newlines <= 2 then stretches[i].newlines else 2))
  }

  /** Every stretch but the first holds text, so the newlines between two are all of their run. */
  ghost predicate Stretches(stretches: seq<Stretch>) {
    && (forall i :: 0 <= i < |stretches| ==> '\n' !in stretches[i].text)
    && (forall i :: 0 < i < |stretches| ==> stretches[i].text != "")
  }

  /** The passes that tidy do not ask where a line starts. */
  lemma {:induction false} BolIdleForTidying(pass: Pass, b: bool, c: bool, s: string)
    requires pass.ExtraNewlines? || pass.TrailingBlanks?
    ensures Match(pass, b, s) == Match(pass, c, s) && Replace(pass, b, s) == Replace(pass, c, s)
  {}

  lemma {:induction false} NoNewlinesPassed(b: bool, text: string, rest: string)
    requires '\n' !in text
    ensures Replace(ExtraNewlines, b, text + rest) == text + Replace(ExtraNewlines, b, rest)
    decreases |text|
  {
    if text == "" {
      assert text + rest == rest;
    } else {
      var s := text + rest;
      DropInFront(text, rest, 1);
      assert NewlineRun(s) == 0;
      BolIdleForTidying(ExtraNewlines, IsTerminator(text[0]), b, s[1..]);
      NoNewlinesPassed(b, text[1..], rest);
      Associates([text[0]], text[1..], Replace(ExtraNewlines, b, rest));
      assert [text[0]] + text[1..] == text;
    }
  }

  lemma {:induction false} RunOfNewlines(n: nat, rest: string)
    requires rest == "" || rest[0] != '\n'
    ensures NewlineRun(Newlines(n) + rest) == n
    decreases n
  {
    var s := Newlines(n) + rest;
    if n == 0 {
      assert s == rest;
    } else {
      assert s[0] == '\n' && s[1..] == Newlines(n - 1) + rest;
      RunOfNewlines(n - 1, rest);
    }
  }

  lemma NewlinesPassed(b: bool, n: nat, rest: string)
    requires rest == "" || rest[0] != '\n'
    ensures Replace(ExtraNewlines, b, Newlines(n) + rest)
         == Newlines(if n <= 2 then n else 2) + Replace(ExtraNewlines, b, rest)
  {
    var s := Newlines(n) + rest;
    RunOfNewlines(n, rest);
    if n >= 3 {
      assert s[n..] == rest;
      BolIdleForTidying(ExtraNewlines, b, IsTerminator(s[n - 1]), rest);
      assert Newlines(2) == "\n\n";
    } else if n == 2 {
      assert s[0] == '\n' && s[1..] == Newlines(1) + rest;
      RunOfNewlines(1, rest);
      assert s[1..][0] == '\n' && s[1..][1..] == rest;
      BolIdleForTidying(ExtraNewlines, b, true, rest);
      assert Newlines(2) == ['\n'] + ['\n'];
      Associates(['\n'], ['\n'], Replace(ExtraNewlines, b, rest));
    } else if n == 1 {
      assert s[0] == '\n' && s[1..] == rest;
      BolIdleForTidying(ExtraNewlines, b, true, rest);
      assert Newlines(1) == ['\n'];
    } else {
      assert s == rest;
      assert Newlines(0) == "";
    }
  }

  /** Three newlines or more become two, fewer stay, and the text between them stays: paragraphs stay apart. */
  lemma {:induction false} ParagraphsStay(b: bool, stretches: seq<Stretch>)
    requires Stretches(stretches)
    ensures Replace(ExtraNewlines, b, Stretched(stretches)) == Stretched(Capped(stretches))
    decreases |stretches|
  {
    if stretches != [] {
      var first, rest := stretches[0], Stretched(stretches[1..]);
      var n := if first.newlines <= 2 then first.newlines else 2;
      NoNewlinesPassed(b, first.text, Newlines(first.newlines) + rest);
      RestStarts(stretches);
      NewlinesPassed(b, first.newlines, rest);
      ParagraphsStay(b, stretches[1..]);
      assert Capped(stretches)[1..] == Capped(stretches[1..]);
    }
  }

  lemma RestStarts(stretches: seq<Stretch>)
    requires stretches != [] && Stretches(stretches)
    ensures Stretches(stretches[1..])
    ensures var rest := Stretched(stretches[1..]); rest == "" || rest[0] != '\n'
  {
    if |stretches| > 1 {
      var second := stretches[1];
      assert second.text != "" && second.text[0] in second.text;
      assert Stretched(stretches[1..])[0] == second.text[0];
    }
  }

  // Line ends.

  /** A line: its text, the blanks behind that, and what ends it, which the last line may lack. */
  datatype Line = Line(text: string, blanks: string, end: string)

  function Lined(lines: seq<Line>): string {
    if lines == [] then "" else lines[0].text + (lines[0].blanks + (lines[0].end + Lined(lines[1..])))
  }

  function Unblanked(lines: seq<Line>): (r: seq<Line>)
    ensures |r| == |lines| && forall i :: 0 <= i < |r| ==> r[i] == Line(lines[i].text, "", lines[i].end)
  {
    seq(|lines|, i requires 0 <= i < |lines| => Line(lines[i].text, "", lines[i].end))
  }

  ghost predicate IsLine(l: Line, last: bool) {
    && (forall i :: 0 <= i < |l.text| ==> !IsTerminator(l.text[i]))
    && (l.text != "" ==> !IsBlank(l.text[|l.text| - 1]))
    && (forall i :: 0 <= i < |l.blanks| ==> IsBlank(l.blanks[i]))
    && ((last && l.end == "") || (|l.end| == 1 && IsTerminator(l.end[0])))
  }

  ghost predicate AreLines(lines: seq<Line>) {
    forall i :: 0 <= i < |lines| ==> IsLine(lines[i], i == |lines| - 1)
  }

  lemma {:induction false} BlanksRun(blanks: string, rest: string)
    requires forall i :: 0 <= i < |blanks| ==> IsBlank(blanks[i])
    ensures BlankRun(blanks + rest) == |blanks| + BlankRun(rest)
    decreases |blanks|
  {
    if blanks == "" {
      assert blanks + rest == rest;
    } else {
      DropInFront(blanks, rest, 1);
      BlanksRun(blanks[1..], rest);
    }
  }

  /** Blanks with text behind them are no end of a line. */
  lemma {:induction false} BlankRunEndsInText(text: string, rest: string)
    requires text != "" && !IsBlank(text[|text| - 1]) && forall i :: 0 <= i < |text| ==> !IsTerminator(text[i])
    ensures var b := BlankRun(text + rest); b < |text| && !IsTerminator((text + rest)[b])
    decreases |text|
  {
    if IsBlank(text[0]) {
      DropInFront(text, rest, 1);
      BlankRunEndsInText(text[1..], rest);
      assert (text + rest)[BlankRun(text + rest)] == text[BlankRun(text + rest)];
    } else {
      assert (text + rest)[0] == text[0];
    }
  }

  lemma {:induction false} TextPassed(b: bool, text: string, rest: string)
    requires text != "" ==> !IsBlank(text[|text| - 1])
    requires forall i :: 0 <= i < |text| ==> !IsTerminator(text[i])
    ensures Replace(TrailingBlanks, b, text + rest) == text + Replace(TrailingBlanks, b, rest)
    decreases |text|
  {
    if text == "" {
      assert text + rest == rest;
    } else {
      hide IsTerminator, IsBlank;
      var s := text + rest;
      DropInFront(text, rest, 1);
      BlankRunEndsInText(text, rest);
      assert Match(TrailingBlanks, b, s) == 0;
      BolIdleForTidying(TrailingBlanks, IsTerminator(text[0]), b, s[1..]);
      TextPassed(b, text[1..], rest);
      Associates([text[0]], text[1..], Replace(TrailingBlanks, b, rest));
      assert [text[0]] + text[1..] == text;
    }
  }

  lemma BlanksGo(b: bool, blanks: string, end: string, rest: string)
    requires forall i :: 0 <= i < |blanks| ==> IsBlank(blanks[i])
    requires (end == "" && rest == "") || (|end| == 1 && IsTerminator(end[0]))
    ensures Replace(TrailingBlanks, b, blanks + (end + rest)) == end + Replace(TrailingBlanks, b, rest)
  {
    var s, behind, n := blanks + (end + rest), end + rest, |blanks|;
    BlanksRun(blanks, behind);
    assert BlankRun(behind) == 0;
    if n > 0 {
      assert behind != "" ==> s[n] == behind[0];
      DropFront(blanks, behind);
      BolIdleForTidying(TrailingBlanks, IsTerminator(s[n - 1]), b, behind);
    } else {
      assert s == behind;
    }
    if end != "" {
      assert Match(TrailingBlanks, b, behind) == 0;
      assert behind[0] == end[0] && behind[1..] == rest && [end[0]] == end;
      BolIdleForTidying(TrailingBlanks, IsTerminator(end[0]), b, rest);
    }
  }

  /** Only the blanks at the end of each line go. */
  lemma {:induction false} LineEndsGo(b: bool, lines: seq<Line>)
    requires AreLines(lines)
    ensures Replace(TrailingBlanks, b, Lined(lines)) == Lined(Unblanked(lines))
    decreases |lines|
  {
    if lines != [] {
      hide Replace, IsTerminator, IsBlank;
      var first, rest := lines[0], Lined(lines[1..]);
      assert IsLine(first, |lines| == 1);
      TextPassed(b, first.text, first.blanks + (first.end + rest));
      BlanksGo(b, first.blanks, first.end, rest);
      RestAreLines(lines);
      LineEndsGo(b, lines[1..]);
      assert Unblanked(lines)[1..] == Unblanked(lines[1..]);
      var behind := first.end + Lined(Unblanked(lines[1..]));
      assert "" + behind == behind;
    }
  }

  lemma RestAreLines(lines: seq<Line>)
    requires lines != [] && AreLines(lines)
    ensures AreLines(lines[1..])
  {
    forall i | 0 <= i < |lines[1..]| ensures IsLine(lines[1..][i], i == |lines[1..]| - 1) {
      assert IsLine(lines[i + 1], i + 1 == |lines| - 1);
    }
  }
}
