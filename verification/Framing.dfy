/** Line framing of a child's stdout: what one chunk completes is returned, the rest is held. */
module Framing {
  import Text
  import opened Sequences

  datatype Split = Split(lines: seq<string>, held: string)

  /** `s.indexOf("\n")`: the first newline, or -1. */
  function NewlineAt(s: string): (r: int)
    ensures -1 <= r < |s|
    ensures 0 <= r ==> s[r] == '\n' && forall j :: 0 <= j < r ==> s[j] != '\n'
    ensures r == -1 ==> '\n' !in s
  {
    if s == [] then -1
    else if s[0] == '\n' then 0
    else if NewlineAt(s[1..]) == -1 then -1 else 1 + NewlineAt(s[1..])
  }

  /** Take the whole lines off the front of a text, after those taken before. */
  function Splitting(taken: seq<string>, text: string): Split
    decreases |text|
  {
    var i := NewlineAt(text);
    if i == -1 then Split(taken, text) else Splitting(taken + [text[..i]], text[i + 1..])
  }

  function SplitLines(text: string): Split { Splitting([], text) }

  predicate Blank(line: string) { Text.Trim(line) == "" }

  /** What the reader returns of some raw lines: each trimmed, the blank ones dropped. */
  function Kept(raw: seq<string>): seq<string> {
    if raw == [] then []
    else
      var last := raw[|raw| - 1];
      Kept(raw[..|raw| - 1]) + if Blank(last) then [] else [Text.Trim(last)]
  }

  /** Every chunk of a stream, in turn. */
  function TakeAll(s: Split, chunks: seq<string>): Split
    decreases |chunks|
  {
    if chunks == [] then s else TakeAll(Splitting(s.lines, s.held + chunks[0]), chunks[1..])
  }

  lemma NewlineOfPrefix(text: string, more: string)
    requires '\n' in text
    ensures NewlineAt(text + more) == NewlineAt(text) != -1
  {
    var i := NewlineAt(text);
    assert (text + more)[i] == '\n';
    assert forall k :: 0 <= k < i ==> (text + more)[k] == text[k];
  }

  /** A text cut in two frames as the text whole. */
  lemma {:induction false} CutAnywhere(taken: seq<string>, text: string, more: string)
    ensures var first := Splitting(taken, text);
            Splitting(taken, text + more) == Splitting(first.lines, first.held + more)
    decreases |text|
  {
    var i := NewlineAt(text);
    if i != -1 {
      NewlineOfPrefix(text, more);
      assert (text + more)[..i] == text[..i];
      assert (text + more)[i + 1..] == text[i + 1..] + more;
      CutAnywhere(taken + [text[..i]], text[i + 1..], more);
    }
  }

  lemma HeldHasNoNewline(taken: seq<string>, text: string)
    ensures '\n' !in Splitting(taken, text).held
    decreases |text|
  {}

  /** However a stream is cut into chunks, the lines taken and the text held are those of the stream whole. */
  lemma {:induction false} ChunksFrameAsTheWhole(taken: seq<string>, held: string, chunks: seq<string>)
    requires '\n' !in held
    ensures TakeAll(Split(taken, held), chunks) == Splitting(taken, held + Concat(chunks))
    decreases |chunks|
  {
    if chunks == [] {
      assert held + "" == held;
    } else {
      hide Splitting, NewlineAt;
      var text, more := held + chunks[0], Concat(chunks[1..]);
      var first := Splitting(taken, text);
      HeldHasNoNewline(taken, text);
      ChunksFrameAsTheWhole(first.lines, first.held, chunks[1..]);
      CutAnywhere(taken, text, more);
      Associates(held, chunks[0], more);
    }
  }

  /** The lines as their writer put them on the wire, each ended by its newline. */
  function Joined(lines: seq<string>): string {
    if lines == [] then "" else lines[0] + "\n" + Joined(lines[1..])
  }

  predicate OneLiners(lines: seq<string>) { forall i :: 0 <= i < |lines| ==> '\n' !in lines[i] }

  lemma FirstLine(line: string, rest: string)
    requires '\n' !in line
    ensures NewlineAt(line + "\n" + rest) == |line|
    ensures (line + "\n" + rest)[..|line|] == line && (line + "\n" + rest)[|line| + 1..] == rest
  {
    var text := line + "\n" + rest;
    assert text[|line|] == '\n';
    assert forall j :: 0 <= j < |line| ==> text[j] == line[j];
  }

  /** Framing undoes writing: lines written one after the other, with a tail begun, read back as they were. */
  lemma {:induction false} FramingUndoesWriting(taken: seq<string>, lines: seq<string>, tail: string)
    requires OneLiners(lines) && '\n' !in tail
    ensures Splitting(taken, Joined(lines) + tail) == Split(taken + lines, tail)
    decreases |lines|
  {
    if lines == [] {
      assert Joined(lines) + tail == tail && taken + lines == taken;
    } else {
      hide NewlineAt;
      var first, rest := lines[0], lines[1..];
      FirstLine(first, Joined(rest) + tail);
      Associates(first + "\n", Joined(rest), tail);
      FramingUndoesWriting(taken + [first], rest, tail);
      Associates(taken, [first], rest);
      assert lines == [first] + rest;
    }
  }

  lemma {:induction false} JoinedOfTwo(a: seq<string>, b: seq<string>)
    ensures Joined(a + b) == Joined(a) + Joined(b)
    decreases |a|
  {
    if a == [] {
      assert a + b == b;
    } else {
      DropInFront(a, b, 1);
      JoinedOfTwo(a[1..], b);
      Associates(a[0] + "\n", Joined(a[1..]), Joined(b));
    }
  }

  lemma {:induction false} JoinedExtends(lines: seq<string>, line: string)
    requires OneLiners(lines)
    ensures Joined(lines + [line]) == Joined(lines) + (line + "\n")
    decreases |lines|
  {
    if lines == [] {
      assert [line][1..] == [];
      assert line + "\n" + "" == "" + (line + "\n");
    } else {
      var rest := lines[1..];
      JoinedExtends(rest, line);
      assert (lines + [line])[0] == lines[0] && (lines + [line])[1..] == rest + [line];
      Associates(lines[0] + "\n", Joined(rest), line + "\n");
    }
  }

  lemma SplitAtNewline(text: string)
    requires '\n' in text
    ensures var i := NewlineAt(text); text == text[..i] + "\n" + text[i + 1..] && '\n' !in text[..i]
  {}

  /** And writing undoes framing: the lines taken off a text and the tail held are all of it. */
  lemma {:induction false} WritingUndoesFraming(taken: seq<string>, text: string)
    requires OneLiners(taken)
    ensures var split := Splitting(taken, text);
            && OneLiners(split.lines) && '\n' !in split.held
            && Joined(split.lines) + split.held == Joined(taken) + text
    decreases |text|
  {
    var i := NewlineAt(text);
    if i != -1 {
      hide Joined;
      SplitAtNewline(text);
      JoinedExtends(taken, text[..i]);
      WritingUndoesFraming(taken + [text[..i]], text[i + 1..]);
      Associates(Joined(taken), text[..i] + "\n", text[i + 1..]);
    }
  }

  lemma {:induction false} SplittingAfter(taken: seq<string>, more: seq<string>, text: string)
    ensures Splitting(taken + more, text)
         == Split(taken + Splitting(more, text).lines, Splitting(more, text).held)
    decreases |text|
  {
    var i := NewlineAt(text);
    if i != -1 {
      hide NewlineAt;
      Associates(taken, more, [text[..i]]);
      SplittingAfter(taken, more + [text[..i]], text[i + 1..]);
    }
  }

  lemma {:induction false} KeptJoins(raw: seq<string>, more: seq<string>)
    ensures Kept(raw + more) == Kept(raw) + Kept(more)
    decreases |more|
  {
    if more == [] {
      assert raw + more == raw;
    } else {
      hide Blank;
      var rest, last := more[..|more| - 1], more[|more| - 1];
      KeptJoins(raw, rest);
      LastOfJoin(raw, more);
      Associates(Kept(raw), Kept(rest), if Blank(last) then [] else [Text.Trim(last)]);
    }
  }

  class LineReader {
    var buffer: string
    /** Everything taken, and the raw lines it completed. */
    ghost var taken: string
    ghost var raw: seq<string>

    ghost predicate Valid() reads this { SplitLines(taken) == Split(raw, buffer) && '\n' !in buffer }

    constructor ()
      ensures Valid() && taken == "" && raw == []
    {
      buffer, taken, raw := "", "", [];
    }

    /** The lines this chunk completed, trimmed, with the blank ones dropped. */
    method Take(chunk: string) returns (complete: seq<string>)
      requires Valid()
      modifies this
      ensures Valid() && taken == old(taken) + chunk
      ensures Split(raw, buffer) == Splitting(old(raw), old(buffer) + chunk)
      ensures complete == Kept(SplitLines(old(buffer) + chunk).lines) && Kept(raw) == Kept(old(raw)) + complete
    {
      hide Splitting, NewlineAt;
      CutAnywhere([], taken, chunk);
      SplittingAfter(raw, [], buffer + chunk);
      assert raw + [] == raw;
      HeldHasNoNewline([], buffer + chunk);
      taken := taken + chunk;
      buffer := buffer + chunk;
      var lines := SplitLines(buffer).lines;
      buffer := SplitLines(buffer).held;
      KeptJoins(raw, lines);
      raw := raw + lines;
      complete := [];
      for i := 0 to |lines|
        invariant complete == Kept(lines[..i])
      {
        assert lines[..i + 1][..i] == lines[..i];
        var trimmed := Text.Trim(lines[i]);
        if |trimmed| > 0 { complete := complete + [trimmed]; }
      }
      assert lines[..|lines|] == lines;
    }

    /** Drop what is held, so the next chunk starts a stream of its own. */
    method Reset()
      modifies this
      ensures Valid() && taken == "" && raw == []
    {
      buffer, taken, raw := "", "", [];
    }
  }
}
