/** The log over any number of server runs, each of which a crash may cut off at any character it wrote. */
module EventLogLives {
  import opened Options
  import Text
  import opened Framing
  import opened EventLogScan
  import opened Sequences

  // What a log says, line by line.

  function RecordIn(decode: Decoder, line: string): seq<Record> {
    if !Blank(line) && decode(Text.Trim(line)).Some? then [decode(Text.Trim(line)).value] else []
  }

  function RecordsIn(decode: Decoder, lines: seq<string>): seq<Record> {
    if lines == [] then [] else RecordsIn(decode, lines[..|lines| - 1]) + RecordIn(decode, lines[|lines| - 1])
  }

  predicate Unreadable(decode: Decoder, line: string) { !Blank(line) && decode(Text.Trim(line)).None? }

  function CorruptIn(decode: Decoder, lines: seq<string>): nat {
    if lines == [] then 0
    else CorruptIn(decode, lines[..|lines| - 1]) + if Unreadable(decode, lines[|lines| - 1]) then 1 else 0
  }

  /** Every record of the file that reads, its unended last line included. */
  function Readable(decode: Decoder, file: string): seq<Record> {
    RecordsIn(decode, SplitLines(file).lines) + RecordIn(decode, SplitLines(file).held)
  }

  lemma {:induction false} RecordsInJoins(decode: Decoder, a: seq<string>, b: seq<string>)
    ensures RecordsIn(decode, a + b) == RecordsIn(decode, a) + RecordsIn(decode, b)
    ensures CorruptIn(decode, a + b) == CorruptIn(decode, a) + CorruptIn(decode, b)
    decreases |b|
  {
    hide RecordsIn, CorruptIn, RecordIn, Unreadable;
    if b == [] {
      assert a + b == a;
      NothingIn(decode);
      assert RecordsIn(decode, a) + [] == RecordsIn(decode, a);
    } else {
      var rest, last, all := b[..|b| - 1], b[|b| - 1], a + b;
      RecordsInJoins(decode, a, rest);
      LastOfJoin(a, b);
      OneMoreIn(decode, all);
      OneMoreIn(decode, b);
      Associates(RecordsIn(decode, a), RecordsIn(decode, rest), RecordIn(decode, last));
    }
  }

  lemma NothingIn(decode: Decoder)
    ensures RecordsIn(decode, []) == [] && CorruptIn(decode, []) == 0
  {}

  lemma OneMoreIn(decode: Decoder, lines: seq<string>)
    requires lines != []
    ensures var rest, last := lines[..|lines| - 1], lines[|lines| - 1];
            && RecordsIn(decode, lines) == RecordsIn(decode, rest) + RecordIn(decode, last)
            && CorruptIn(decode, lines) == CorruptIn(decode, rest) + if Unreadable(decode, last) then 1 else 0
  {
    hide RecordIn, Unreadable;
  }

  lemma RecordsInOne(decode: Decoder, line: string)
    ensures RecordsIn(decode, [line]) == RecordIn(decode, line)
    ensures CorruptIn(decode, [line]) == if Unreadable(decode, line) then 1 else 0
  {
    hide Blank;
    assert [line][..0] == [];
  }

  lemma {:induction false} ScanWholeReads(decode: Decoder, lines: seq<string>)
    ensures ScanWhole(decode, lines)
         == Read(RecordsIn(decode, lines)).(corruptLines := CorruptIn(decode, lines))
  {
    if lines != [] {
      hide Blank, RecordsIn, CorruptIn, Read;
      var rest, last := lines[..|lines| - 1], lines[|lines| - 1];
      ScanWholeReads(decode, rest);
      OneMoreIn(decode, lines);
      ReadJoinsOne(RecordsIn(decode, rest), RecordIn(decode, last));
    }
  }

  lemma ReadJoinsOne(records: seq<Record>, more: seq<Record>)
    requires |more| <= 1
    ensures Read(records + more) == if more == [] then Read(records) else Apply(Read(records), more[0])
    ensures Read(records + more).corruptLines == Read(records).corruptLines
  {
    if more == [] { assert records + more == records; }
    else { assert (records + more)[..|records|] == records; }
  }

  /** The scan of a log is what its readable records say, with its unreadable ended lines counted. */
  lemma ScanReads(decode: Decoder, file: string)
    ensures ScanText(decode, file)
         == Read(Readable(decode, file)).(corruptLines := CorruptIn(decode, SplitLines(file).lines))
  {
    hide Blank, Splitting, RecordsIn, CorruptIn, Read;
    var split := SplitLines(file);
    ScanWholeReads(decode, split.lines);
    ReadJoinsOne(RecordsIn(decode, split.lines), RecordIn(decode, split.held));
  }

  // Torn tails.

  /** What crashes leave behind the last newline: beginnings of records, one right behind the other, or nothing. */
  ghost predicate Torn(encode: Encoder, tail: string) {
    exists pieces :: Pieces(encode, pieces) && Concat(pieces) == tail
  }

  lemma NothingTorn(encode: Encoder)
    ensures Torn(encode, "")
  {
    assert Pieces(encode, []) && Concat([]) == "";
  }

  lemma {:induction false} ConcatJoinsOne(pieces: seq<string>, piece: string)
    ensures Concat(pieces + [piece]) == Concat(pieces) + piece
    decreases |pieces|
  {
    if pieces == [] {
      assert [piece][1..] == [] && pieces + [piece] == [piece];
      assert piece + "" == piece == "" + piece;
    } else {
      ConcatJoinsOne(pieces[1..], piece);
      DropInFront(pieces, [piece], 1);
      Associates(pieces[0], Concat(pieces[1..]), piece);
    }
  }

  /** A record begun behind a torn tail makes a longer torn tail, which does not read even where it is whole. */
  lemma TornGrows(encode: Encoder, decode: Decoder, tail: string, piece: string)
    requires Codec(encode, decode) && Torn(encode, tail) && Piece(encode, piece)
    ensures Torn(encode, tail + piece)
    ensures tail != "" ==> Unreadable(decode, tail + piece)
  {
    hide Blank, Concat, Piece;
    var pieces :| Pieces(encode, pieces) && Concat(pieces) == tail;
    ConcatJoinsOne(pieces, piece);
    assert Pieces(encode, pieces + [piece]);
    if pieces == [] { assert Concat([]) == "" by { ConcatNothing(); } }
  }

  lemma ConcatNothing()
    ensures Concat([]) == ""
  {}

  lemma PieceOf(encode: Encoder, r: Record, tail: string)
    requires tail != "" && |tail| <= |encode(r)| && tail == encode(r)[..|tail|]
    ensures Piece(encode, tail)
  {}

  lemma WholePiece(encode: Encoder, decode: Decoder, r: Record)
    requires Codec(encode, decode)
    ensures Piece(encode, encode(r))
  {
    assert encode(r) != "" && encode(r)[..|encode(r)|] == encode(r);
  }

  lemma PieceHasNoNewline(encode: Encoder, decode: Decoder, piece: string)
    requires Codec(encode, decode) && Piece(encode, piece)
    ensures '\n' !in piece
  {
    var r: Record :| |piece| <= |encode(r)| && piece == encode(r)[..|piece|];
    assert '\n' !in encode(r);
  }

  // One life.

  /** One run of the server over the log: what it appends, and how much of it the crash ending it leaves. */
  datatype Life = Life(appended: seq<Option<string>>, cut: nat)

  predicate Increasing(records: seq<Record>) {
    && (forall i :: 0 <= i < |records| ==> 0 <= records[i].seqNo)
    && (forall i, j :: 0 <= i < j < |records| ==> records[i].seqNo < records[j].seqNo)
  }

  /** What one server appends: its numbers run on from the one it was given. */
  function Numbered(activities: seq<Option<string>>, next: int): (r: seq<Record>)
    ensures |r| == |activities| && forall i :: 0 <= i < |r| ==> r[i] == Record(next + i, activities[i])
  {
    seq(|activities|, i requires 0 <= i < |activities| => Record(next + i, activities[i]))
  }

  /** The number recovery hands the next run: one past the highest the scan read, from zero on an empty log. */
  function NextSeq(scan: Scan): int { if scan.lastSeq >= 0 then scan.lastSeq + 1 else 0 }

  function RecordsOf(decode: Decoder, file: string, life: Life): seq<Record> {
    Numbered(life.appended, NextSeq(ScanText(decode, file)))
  }

  /** What reached the disk of it. */
  function Added(encode: Encoder, decode: Decoder, file: string, life: Life): string {
    var all := Written(encode, RecordsOf(decode, file, life));
    if life.cut <= |all| then all[..life.cut] else all
  }

  function AfterLife(encode: Encoder, decode: Decoder, file: string, life: Life): string {
    file + Added(encode, decode, file, life)
  }

  function AfterLives(encode: Encoder, decode: Decoder, file: string, lives: seq<Life>): string
    decreases |lives|
  {
    if lives == [] then file else AfterLives(encode, decode, AfterLife(encode, decode, file, lives[0]), lives[1..])
  }

  /** The life began behind a torn tail and ended the line. */
  predicate EndsTornLine(encode: Encoder, decode: Decoder, file: string, life: Life) {
    SplitLines(file).held != "" && '\n' in Added(encode, decode, file, life)
  }

  function TornLinesEnded(encode: Encoder, decode: Decoder, file: string, lives: seq<Life>): nat
    decreases |lives|
  {
    if lives == [] then 0
    else (if EndsTornLine(encode, decode, file, lives[0]) then 1 else 0)
         + TornLinesEnded(encode, decode, AfterLife(encode, decode, file, lives[0]), lives[1..])
  }

  /** Lines appended to a file stand behind its own, the first on its unended one. */
  lemma AppendedSplits(file: string, lines: seq<string>, tail: string)
    requires OneLiners(lines) && '\n' !in tail
    ensures var split := SplitLines(file);
            SplitLines(file + (Joined(lines) + tail))
            == if lines == [] then Split(split.lines, split.held + tail)
               else Split(split.lines + ([split.held + lines[0]] + lines[1..]), tail)
  {
    hide Splitting, Joined, NewlineAt;
    var split := SplitLines(file);
    CutAnywhere([], file, Joined(lines) + tail);
    HeldHasNoNewline([], file);
    var longer := if lines == [] then [] else [split.held + lines[0]] + lines[1..];
    if lines == [] {
      FramingUndoesWriting(split.lines, [], split.held + tail);
      assert Joined([]) + (split.held + tail) == split.held + (Joined([]) + tail) by { JoinedNothing(); }
      assert split.lines + [] == split.lines;
    } else {
      FirstLineLonger(split.held, lines, tail);
      FramingUndoesWriting(split.lines, longer, tail);
    }
  }

  lemma JoinedNothing()
    ensures Joined([]) == ""
  {}

  lemma FirstLineLonger(held: string, lines: seq<string>, tail: string)
    requires lines != [] && '\n' !in held && OneLiners(lines)
    ensures var longer := [held + lines[0]] + lines[1..];
            OneLiners(longer) && Joined(longer) + tail == held + (Joined(lines) + tail)
  {
    var longer, rest := [held + lines[0]] + lines[1..], Joined(lines[1..]);
    assert longer[1..] == lines[1..];
    assert held + lines[0] + "\n" + rest + tail == held + (lines[0] + "\n" + rest + tail);
  }

  /** What the crash left of a life: some ended lines and the beginning of the next. */
  ghost predicate Left(encode: Encoder, records: seq<Record>, added: string, m: nat, tail: string) {
    && m <= |records| && added == Joined(Encoded(encode, records[..m])) + tail
    && WholeIn(Encoded(encode, records), |added|) ==
       (if m < |records| && tail == encode(records[m]) then m + 1 else m)
    && if m == |records| then tail == "" else |tail| <= |encode(records[m])| && tail == encode(records[m])[..|tail|]
  }

  lemma AddedIsLeft(encode: Encoder, decode: Decoder, file: string, life: Life) returns (m: nat, tail: string)
    ensures Left(encode, RecordsOf(decode, file, life), Added(encode, decode, file, life), m, tail)
  {
    hide Joined, WholeIn, RecordsOf;
    var records, added := RecordsOf(decode, file, life), Added(encode, decode, file, life);
    var lines := Encoded(encode, records);
    assert added == Joined(lines)[..|added|];
    m, tail := CutFalls(lines, |added|);
    assert lines[..m] == Encoded(encode, records[..m]);
  }

  lemma RecordReads(encode: Encoder, decode: Decoder, r: Record)
    requires Codec(encode, decode)
    ensures RecordIn(decode, encode(r)) == [r] && !Unreadable(decode, encode(r))
  {
    ReadsBack(encode, decode, r);
  }

  lemma EncodedOneMore(encode: Encoder, records: seq<Record>)
    requires records != []
    ensures var rest := records[..|records| - 1];
            && Encoded(encode, records) == Encoded(encode, rest) + [encode(records[|records| - 1])]
            && rest + [records[|records| - 1]] == records
  {}

  lemma {:induction false} WholeLinesRead(encode: Encoder, decode: Decoder, records: seq<Record>)
    requires Codec(encode, decode)
    ensures RecordsIn(decode, Encoded(encode, records)) == records && CorruptIn(decode, Encoded(encode, records)) == 0
    decreases |records|
  {
    if records != [] {
      hide Codec, RecordsIn, RecordIn, CorruptIn, Unreadable;
      var rest, last := records[..|records| - 1], records[|records| - 1];
      WholeLinesRead(encode, decode, rest);
      EncodedOneMore(encode, records);
      RecordsInJoins(decode, Encoded(encode, rest), [encode(last)]);
      RecordsInOne(decode, encode(last));
      RecordReads(encode, decode, last);
    }
  }

  /** The unended line of a life that ended some before it. */
  lemma TailReads(encode: Encoder, decode: Decoder, records: seq<Record>, added: string, m: nat, tail: string)
    requires Codec(encode, decode) && Left(encode, records, added, m, tail)
    ensures '\n' !in tail && Torn(encode, tail)
    ensures var whole := WholeIn(Encoded(encode, records), |added|);
            m <= whole <= |records| && RecordIn(decode, tail) == records[m..whole]
  {
    hide WholeIn, Joined, Torn, Blank, Codec, RecordIn, Unreadable, Piece;
    if tail == "" {
      NothingTorn(encode);
      NothingReads(decode);
      if m < |records| { NotEmpty(encode, decode, records[m]); }
    } else {
      NothingTorn(encode);
      var r := records[m];
      PieceOf(encode, r, tail);
      PieceHasNoNewline(encode, decode, tail);
      TornGrows(encode, decode, "", tail);
      assert "" + tail == tail;
      ShortPieceReads(encode, decode, r, tail);
    }
  }

  lemma NotEmpty(encode: Encoder, decode: Decoder, r: Record)
    requires Codec(encode, decode)
    ensures encode(r) != ""
  {}

  lemma NothingReads(decode: Decoder)
    ensures RecordIn(decode, "") == []
  {}

  lemma ShortPieceReads(encode: Encoder, decode: Decoder, r: Record, tail: string)
    requires Codec(encode, decode) && 0 < |tail| <= |encode(r)| && tail == encode(r)[..|tail|]
    ensures RecordIn(decode, tail) == if tail == encode(r) then [r] else []
  {
    hide Blank;
    if tail == encode(r) {
      ReadsBack(encode, decode, r);
    } else {
      assert decode(Text.Trim(encode(r)[..|tail|])).None?;
    }
  }

  lemma NewlineWhereEnded(encode: Encoder, records: seq<Record>, m: nat, tail: string)
    requires m <= |records| && '\n' !in tail
    ensures '\n' in Joined(Encoded(encode, records[..m])) + tail <==> m > 0
  {
    var lines := Encoded(encode, records[..m]);
    if m > 0 {
      assert Joined(lines) == lines[0] + "\n" + Joined(lines[1..]);
      assert (Joined(lines) + tail)[|lines[0]|] == '\n';
    } else {
      assert Joined(lines) + tail == tail by { JoinedNothing(); }
    }
  }

  lemma BehindNothing(lines: seq<string>)
    requires lines != []
    ensures ["" + lines[0]] + lines[1..] == lines
  {
    assert "" + lines[0] == lines[0];
  }

  lemma SlicesMeet(records: seq<Record>, a: nat, m: nat, b: nat)
    requires a <= m <= b <= |records|
    ensures records[a..m] + records[m..b] == records[a..b]
    ensures a == 0 ==> records[..m] + records[m..b] == records[..b]
  {}

  lemma EncodedRest(encode: Encoder, records: seq<Record>, m: nat)
    requires 0 < m <= |records|
    ensures Encoded(encode, records[..m])[1..] == Encoded(encode, records[1..m])
    ensures Encoded(encode, records[..m])[0] == encode(records[0])
  {}

  /** A life on a log that ends in a newline: its whole records are read behind the others. */
  lemma CleanLife(encode: Encoder, decode: Decoder, file: string, records: seq<Record>, added: string, m: nat,
                  tail: string)
    requires Codec(encode, decode) && Left(encode, records, added, m, tail) && SplitLines(file).held == ""
    ensures var lines, end := SplitLines(file).lines, SplitLines(file + added);
            && Torn(encode, end.held) && CorruptIn(decode, end.lines) == CorruptIn(decode, lines)
            && Readable(decode, file + added)
            == RecordsIn(decode, lines) + records[..WholeIn(Encoded(encode, records), |added|)]
  {
    hide Codec, Splitting, Joined, RecordsIn, RecordIn, CorruptIn, WholeIn, Torn;
    var lines, ended := SplitLines(file).lines, Encoded(encode, records[..m]);
    var whole := WholeIn(Encoded(encode, records), |added|);
    TailReads(encode, decode, records, added, m, tail);
    EncodedOneLiners(encode, decode, records[..m]);
    AppendedSplits(file, ended, tail);
    if m > 0 { BehindNothing(ended); }
    assert "" + tail == tail && lines + [] == lines;
    WholeLinesRead(encode, decode, records[..m]);
    RecordsInJoins(decode, lines, ended);
    Associates(RecordsIn(decode, lines), records[..m], records[m..whole]);
    SlicesMeet(records, 0, m, whole);
    if m == 0 { assert RecordsIn(decode, lines) + [] == RecordsIn(decode, lines); }
  }

  /** A life behind a torn tail: what it first writes makes the line unreadable for good, and its first record is
      lost with it. */
  lemma TornLife(encode: Encoder, decode: Decoder, file: string, records: seq<Record>, added: string, m: nat,
                 tail: string)
    requires Codec(encode, decode) && Left(encode, records, added, m, tail)
    requires Torn(encode, SplitLines(file).held) && SplitLines(file).held != "" && added != ""
    ensures var lines, end := SplitLines(file).lines, SplitLines(file + added);
            var whole := WholeIn(Encoded(encode, records), |added|);
            && Torn(encode, end.held) && m <= whole <= |records|
            && CorruptIn(decode, end.lines) == CorruptIn(decode, lines) + (if m > 0 then 1 else 0)
            && Readable(decode, file + added)
            == RecordsIn(decode, lines) + if m > 0 then records[1..whole] else []
  {
    hide Codec, Splitting, Joined, RecordsIn, RecordIn, CorruptIn, WholeIn, Torn, Unreadable;
    var lines, held, ended := SplitLines(file).lines, SplitLines(file).held, Encoded(encode, records[..m]);
    var whole := WholeIn(Encoded(encode, records), |added|);
    TailReads(encode, decode, records, added, m, tail);
    EncodedOneLiners(encode, decode, records[..m]);
    AppendedSplits(file, ended, tail);
    if m == 0 {
      assert tail != "" by { JoinedNothing(); }
      PieceOf(encode, records[0], tail);
      TornGrows(encode, decode, held, tail);
      UnreadableReadsNothing(decode, held + tail);
    } else {
      GluedLines(encode, decode, lines, held, records, m);
      Associates(RecordsIn(decode, lines), records[1..m], records[m..whole]);
      SlicesMeet(records, 1, m, whole);
    }
  }

  /** The ended lines of a life behind a torn tail. */
  lemma GluedLines(encode: Encoder, decode: Decoder, lines: seq<string>, held: string, records: seq<Record>, m: nat)
    requires Codec(encode, decode) && Torn(encode, held) && held != "" && 0 < m <= |records|
    ensures var ended := Encoded(encode, records[..m]);
            var longer := lines + ([held + ended[0]] + ended[1..]);
            && RecordsIn(decode, longer) == RecordsIn(decode, lines) + records[1..m]
            && CorruptIn(decode, longer) == CorruptIn(decode, lines) + 1
  {
    hide Codec, RecordsIn, RecordIn, CorruptIn, Torn, Unreadable;
    var glued, rest := held + encode(records[0]), Encoded(encode, records[1..m]);
    EncodedRest(encode, records, m);
    WholePiece(encode, decode, records[0]);
    TornGrows(encode, decode, held, encode(records[0]));
    UnreadableReadsNothing(decode, glued);
    RecordsInOne(decode, glued);
    WholeLinesRead(encode, decode, records[1..m]);
    RecordsInJoins(decode, [glued], rest);
    RecordsInJoins(decode, lines, [glued] + rest);
    assert [] + records[1..m] == records[1..m];
  }

  lemma UnreadableReadsNothing(decode: Decoder, line: string)
    requires Unreadable(decode, line)
    ensures RecordIn(decode, line) == []
  {}

  /** What the log says after one more life: behind a newline all its whole records are read; behind a torn tail
      the first is lost and the line, once ended, is one corrupt line more. */
  lemma LifeReads(encode: Encoder, decode: Decoder, file: string, life: Life)
    requires Codec(encode, decode) && Torn(encode, SplitLines(file).held)
    ensures var split, end := SplitLines(file), AfterLife(encode, decode, file, life);
            var records, added := RecordsOf(decode, file, life), Added(encode, decode, file, life);
            var whole := WholeIn(Encoded(encode, records), |added|);
            && Torn(encode, SplitLines(end).held)
            && CorruptIn(decode, SplitLines(end).lines)
            == CorruptIn(decode, split.lines) + (if EndsTornLine(encode, decode, file, life) then 1 else 0)
            && ('\n' in added ==> 1 <= whole)
            && Readable(decode, end) == RecordsIn(decode, split.lines)
                 + if split.held == "" then records[..whole]
                   else if added == "" then RecordIn(decode, split.held)
                   else if '\n' !in added then []
                   else records[1..whole]
  {
    hide Codec, Splitting, Joined, RecordsIn, RecordIn, CorruptIn, WholeIn, Torn, Added, RecordsOf, Left;
    var records, added := RecordsOf(decode, file, life), Added(encode, decode, file, life);
    var m, tail := AddedIsLeft(encode, decode, file, life);
    TailReads(encode, decode, records, added, m, tail);
    LeftIs(encode, records, added, m, tail);
    NewlineWhereEnded(encode, records, m, tail);
    if SplitLines(file).held == "" {
      CleanLife(encode, decode, file, records, added, m, tail);
    } else if added != "" {
      TornLife(encode, decode, file, records, added, m, tail);
    } else {
      assert file + "" == file;
    }
  }

  lemma LeftIs(encode: Encoder, records: seq<Record>, added: string, m: nat, tail: string)
    requires Left(encode, records, added, m, tail)
    ensures m <= |records| && added == Joined(Encoded(encode, records[..m])) + tail
  {}

  // Over many lives.

  lemma {:induction false} LastSeqIsTheLast(records: seq<Record>)
    requires Increasing(records)
    ensures Read(records).corruptLines == 0
    ensures Read(records).lastSeq == if records == [] then -1 else records[|records| - 1].seqNo
  {
    if records != [] { LastSeqIsTheLast(records[..|records| - 1]); }
  }

  /** A recovered log numbers on from its last readable record. */
  lemma NumbersRunOn(decode: Decoder, file: string)
    requires Increasing(Readable(decode, file))
    ensures var records := Readable(decode, file);
            NextSeq(ScanText(decode, file)) == if records == [] then 0 else records[|records| - 1].seqNo + 1
  {
    hide Readable, ScanText, Increasing;
    ScanReads(decode, file);
    LastSeqIsTheLast(Readable(decode, file));
    LastIsNatural(Readable(decode, file));
  }

  lemma LastIsNatural(records: seq<Record>)
    requires Increasing(records)
    ensures records != [] ==> records[|records| - 1].seqNo >= 0
  {}

  /** Numbered records behind some of the records whose last number they run on from. */
  lemma IncreasingRunsOn(before: seq<Record>, tail: seq<Record>, added: seq<Record>, next: int)
    requires Increasing(before + tail)
    requires next == if before + tail == [] then 0 else (before + tail)[|before + tail| - 1].seqNo + 1
    requires forall i :: 0 <= i < |added| ==> added[i].seqNo >= next
    requires forall i, j :: 0 <= i < j < |added| ==> added[i].seqNo < added[j].seqNo
    ensures Increasing(before + added)
  {
    var all := before + tail;
    forall i | 0 <= i < |before| ensures before[i].seqNo < next {
      assert before[i] == all[i];
    }
    forall i, j | 0 <= i < j < |before| ensures before[i].seqNo < before[j].seqNo {
      assert before[i] == all[i] && before[j] == all[j];
    }
    forall i | 0 <= i < |before| ensures 0 <= before[i].seqNo { assert before[i] == all[i]; }
    if all != [] { assert all[|all| - 1].seqNo >= 0; }
  }

  lemma LifeKeepsIncreasing(encode: Encoder, decode: Decoder, file: string, life: Life)
    requires Codec(encode, decode) && Torn(encode, SplitLines(file).held) && Increasing(Readable(decode, file))
    ensures Increasing(Readable(decode, AfterLife(encode, decode, file, life)))
  {
    hide Codec, Torn, Splitting, RecordsIn, RecordIn, WholeIn, Added, AfterLife, ScanText, CorruptIn;
    LifeReads(encode, decode, file, life);
    NumbersRunOn(decode, file);
    var split := SplitLines(file);
    var before, tail := RecordsIn(decode, split.lines), RecordIn(decode, split.held);
    var next, records := NextSeq(ScanText(decode, file)), RecordsOf(decode, file, life);
    var whole := WholeIn(Encoded(encode, records), |Added(encode, decode, file, life)|);
    IncreasingRunsOn(before, tail, records[..whole], next);
    if 1 <= whole { IncreasingRunsOn(before, tail, records[1..whole], next); }
    IncreasingRunsOn(before, tail, [], next);
  }

  /** Over any number of lives, each cut at any character it wrote, the readable records of the file are numbered
      in strictly increasing order, and a corrupt line stands for each life that ended the line a crash had torn. */
  lemma {:induction false} NumbersIncreaseAcrossLives(encode: Encoder, decode: Decoder, file: string, lives: seq<Life>)
    requires Codec(encode, decode) && Torn(encode, SplitLines(file).held) && Increasing(Readable(decode, file))
    ensures var end := AfterLives(encode, decode, file, lives);
            && Increasing(Readable(decode, end))
            && ScanText(decode, end).corruptLines
            == ScanText(decode, file).corruptLines + TornLinesEnded(encode, decode, file, lives)
    decreases |lives|
  {
    hide Codec, Torn, Splitting, Readable, Increasing, AfterLife, EndsTornLine, ScanText, Added;
    if lives != [] {
      var next := AfterLife(encode, decode, file, lives[0]);
      LifeKeepsIncreasing(encode, decode, file, lives[0]);
      LifeReads(encode, decode, file, lives[0]);
      ScanReads(decode, file);
      ScanReads(decode, next);
      NumbersIncreaseAcrossLives(encode, decode, next, lives[1..]);
    }
  }

  /** From an empty log on. */
  lemma FromEmptyLog(encode: Encoder, decode: Decoder, lives: seq<Life>)
    requires Codec(encode, decode)
    ensures var end := AfterLives(encode, decode, "", lives);
            && Increasing(Readable(decode, end))
            && ScanText(decode, end).corruptLines == TornLinesEnded(encode, decode, "", lives)
  {
    hide Codec, Torn, AfterLives, TornLinesEnded;
    NothingTorn(encode);
    assert SplitLines("") == Split([], "");
    NothingReads(decode);
    NumbersIncreaseAcrossLives(encode, decode, "", lives);
  }
}
