/** What the log theorems ask of the JSON library can be met: one printer and reader that meet it. */
module EventLogCodec {
  import opened Options
  import Text
  import opened EventLogScan
  import opened Sequences
  import opened Framing

  function Marks(n: nat): string { seq(n, i => 'x') }

  function Chars(s: string): string { if s == "" then "" else Marks(s[0] as int) + "," + Chars(s[1..]) }

  function Number(n: int): string { if n < 0 then "-" + Marks(-n) else "+" + Marks(n) }

  function Said(activity: Option<string>): string {
    if activity.None? then "n" else "s" + Chars(activity.value)
  }

  function Body(r: Record): string { Number(r.seqNo) + Said(r.activity) }

  /** A record in braces, numbers and characters counted out. */
  function Print(r: Record): string { "{" + Body(r) + "}" }

  /** The record a line was printed from. */
  ghost function Parse(line: string): Option<Record> {
    if exists r: Record :: Print(r) == line then
      var r: Record :| Print(r) == line;
      Some(r)
    else None
  }

  /** Neither a brace nor a space, a newline among them. */
  predicate Inner(c: char) { c != '{' && c != '}' && !Text.IsSpace(c) }

  lemma {:induction false} CharsAreInner(s: string)
    ensures forall c :: c in Chars(s) ==> Inner(c)
  {
    if s != "" {
      CharsAreInner(s[1..]);
      var marks := Marks(s[0] as int);
      assert forall i :: 0 <= i < |marks| ==> marks[i] == 'x';
    }
  }

  lemma BodyIsInner(r: Record)
    ensures forall c :: c in Body(r) ==> Inner(c)
  {
    hide Chars;
    if r.activity.Some? { CharsAreInner(r.activity.value); }
  }

  lemma PrintedAt(r: Record)
    ensures |Print(r)| >= 2 && Print(r)[0] == '{' && Print(r)[|Print(r)| - 1] == '}'
    ensures forall i :: 0 < i < |Print(r)| - 1 ==> Inner(Print(r)[i])
  {
    BodyIsInner(r);
    forall i | 0 < i < |Print(r)| - 1 ensures Inner(Print(r)[i]) {
      assert Print(r)[i] == Body(r)[i - 1];
      assert Body(r)[i - 1] in Body(r);
    }
  }

  // Different records print differently.

  lemma MarksEnd(n: nat, m: nat, a: string, b: string)
    requires a != "" && b != "" && a[0] != 'x' && b[0] != 'x' && Marks(n) + a == Marks(m) + b
    ensures n == m && a == b
  {
    var s := Marks(n) + a;
    assert s[n] == a[0] && (Marks(m) + b)[m] == b[0];
    assert forall i :: 0 <= i < n ==> s[i] == 'x';
    assert forall i :: 0 <= i < m ==> (Marks(m) + b)[i] == 'x';
    assert n == m;
    DropFront(Marks(n), a);
    DropFront(Marks(m), b);
  }

  lemma {:induction false} CharsTellApart(s: string, t: string)
    requires Chars(s) + "}" == Chars(t) + "}"
    ensures s == t
    decreases |s|
  {
    if s != "" && t != "" {
      var a, b := "," + (Chars(s[1..]) + "}"), "," + (Chars(t[1..]) + "}");
      Nests(Marks(s[0] as int), ",", Chars(s[1..]), "}");
      Nests(Marks(t[0] as int), ",", Chars(t[1..]), "}");
      assert Chars(s) == Marks(s[0] as int) + ("," + Chars(s[1..]));
      assert Chars(t) == Marks(t[0] as int) + ("," + Chars(t[1..]));
      MarksEnd(s[0] as int, t[0] as int, a, b);
      DropFront(",", Chars(s[1..]) + "}");
      DropFront(",", Chars(t[1..]) + "}");
      CharsTellApart(s[1..], t[1..]);
      assert s == [s[0]] + s[1..] && t == [t[0]] + t[1..];
    } else if s != "" {
      CharsStart(s);
    } else if t != "" {
      CharsStart(t);
    }
  }

  lemma CharsStart(s: string)
    requires s != ""
    ensures Chars(s) != "" && (Chars(s) + "}")[0] != '}'
  {
    CharsAreInner(s);
    assert Chars(s) != "";
    assert Chars(s)[0] in Chars(s);
  }

  lemma SaidTellsApart(a: Option<string>, b: Option<string>)
    requires Said(a) + "}" == Said(b) + "}"
    ensures a == b
  {
    assert (Said(a) + "}")[0] == Said(a)[0] && (Said(b) + "}")[0] == Said(b)[0];
    if a.Some? && b.Some? {
      Associates("s", Chars(a.value), "}");
      Associates("s", Chars(b.value), "}");
      DropFront("s", Chars(a.value) + "}");
      DropFront("s", Chars(b.value) + "}");
      CharsTellApart(a.value, b.value);
    }
  }

  lemma PrintedInParts(r: Record)
    ensures Print(r) == "{" + ((if r.seqNo < 0 then "-" else "+") + (Marks(if r.seqNo < 0 then -r.seqNo else r.seqNo)
                               + (Said(r.activity) + "}")))
  {
    hide Marks, Chars;
    var sign, marks := if r.seqNo < 0 then "-" else "+", Marks(if r.seqNo < 0 then -r.seqNo else r.seqNo);
    Nests("{", Number(r.seqNo), Said(r.activity), "}");
    Associates(sign, marks, Said(r.activity) + "}");
  }

  lemma PrintsTellApart(r: Record, q: Record)
    requires Print(r) == Print(q)
    ensures r == q
  {
    hide Print, Marks, Said;
    var a, b := Said(r.activity) + "}", Said(q.activity) + "}";
    var n, m := if r.seqNo < 0 then -r.seqNo else r.seqNo, if q.seqNo < 0 then -q.seqNo else q.seqNo;
    var signR, signQ := if r.seqNo < 0 then "-" else "+", if q.seqNo < 0 then "-" else "+";
    PrintedInParts(r);
    PrintedInParts(q);
    DropFront("{", signR + (Marks(n) + a));
    DropFront("{", signQ + (Marks(m) + b));
    assert (signR + (Marks(n) + a))[0] == signR[0] && (signQ + (Marks(m) + b))[0] == signQ[0];
    DropFront(signR, Marks(n) + a);
    DropFront(signQ, Marks(m) + b);
    SaidStarts(r.activity);
    SaidStarts(q.activity);
    MarksEnd(n, m, a, b);
    SaidTellsApart(r.activity, q.activity);
  }

  lemma SaidStarts(a: Option<string>)
    ensures Said(a) + "}" != "" && (Said(a) + "}")[0] != 'x'
  {}

  // Cut short or run together, a printed record is none.

  lemma TrimmedAlready(s: string)
    requires s != "" && !Text.IsSpace(s[0]) && !Text.IsSpace(s[|s| - 1])
    ensures Text.Trim(s) == s && !Blank(s)
  {
    assert Text.TrimStart(s) == s;
    assert Text.TrimEnd(s) == s;
  }

  /** Starts with a brace and holds no space. */
  predicate Begun(s: string) {
    s != "" && s[0] == '{' && forall i :: 0 <= i < |s| ==> !Text.IsSpace(s[i])
  }

  lemma PieceIsBegun(piece: string)
    requires Piece(Print, piece)
    ensures Begun(piece)
  {
    hide Print;
    var r: Record :| |piece| <= |Print(r)| && piece == Print(r)[..|piece|];
    PrintedAt(r);
    forall i | 0 <= i < |piece| ensures !Text.IsSpace(piece[i]) {
      assert piece[i] == Print(r)[i];
    }
  }

  lemma {:induction false} PiecesAreBegun(pieces: seq<string>)
    requires pieces != [] && Pieces(Print, pieces)
    ensures Begun(Concat(pieces))
    decreases |pieces|
  {
    hide Piece;
    PieceIsBegun(pieces[0]);
    if |pieces| > 1 { PiecesAreBegun(pieces[1..]); } else { assert pieces[1..] == []; }
  }

  lemma BegunIsTrimmed(s: string)
    requires Begun(s)
    ensures Text.Trim(s) == s && !Blank(s)
  {
    TrimmedAlready(s);
  }

  lemma ShortIsUnreadable(r: Record, k: nat)
    requires 0 < k < |Print(r)|
    ensures Parse(Text.Trim(Print(r)[..k])).None?
  {
    hide Print;
    var short := Print(r)[..k];
    assert Piece(Print, short);
    PieceIsBegun(short);
    BegunIsTrimmed(short);
    PrintedAt(r);
    assert short[k - 1] == Print(r)[k - 1];
    forall q: Record ensures Print(q) != short {
      PrintedAt(q);
    }
  }

  lemma RunTogetherIsUnreadable(pieces: seq<string>)
    requires |pieces| >= 2 && Pieces(Print, pieces)
    ensures !Blank(Concat(pieces)) && Parse(Text.Trim(Concat(pieces))).None?
  {
    hide Print, Piece, Concat;
    var s, rest := Concat(pieces), Concat(pieces[1..]);
    PiecesAreBegun(pieces);
    PiecesAreBegun(pieces[1..]);
    PieceIsBegun(pieces[0]);
    BegunIsTrimmed(s);
    ConcatFront(pieces);
    var n := |pieces[0]|;
    assert s[n] == rest[0] == '{';
    forall q: Record ensures Print(q) != s {
      PrintedAt(q);
    }
  }

  lemma ConcatFront(pieces: seq<string>)
    requires pieces != []
    ensures Concat(pieces) == pieces[0] + Concat(pieces[1..])
  {}

  /** This printer and reader are what is asked for. */
  lemma CodecIsMet()
    ensures Codec(Print, Parse)
  {
    hide Print, Piece, Concat;
    forall r: Record
      ensures Parse(Print(r)) == Some(r) && '\n' !in Print(r) && Text.Trim(Print(r)) == Print(r) && Print(r) != ""
    {
      PrintedAt(r);
      TrimmedAlready(Print(r));
      forall q: Record | Print(q) == Print(r) ensures q == r { PrintsTellApart(q, r); }
    }
    forall r: Record, k: nat | 0 < k < |Print(r)| ensures Parse(Text.Trim(Print(r)[..k])).None? {
      ShortIsUnreadable(r, k);
    }
    forall pieces | |pieces| >= 2 && Pieces(Print, pieces)
      ensures !Blank(Concat(pieces)) && Parse(Text.Trim(Concat(pieces))).None?
    {
      RunTogetherIsUnreadable(pieces);
    }
  }
}
