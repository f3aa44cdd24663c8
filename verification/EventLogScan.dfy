/** Reading events.jsonl back: what a log cut off anywhere still says. */
module EventLogScan {
  import opened Options
  import Text
  import opened Framing
  import opened Sequences

  /** The fields the scan reads of one record. */
  datatype Record = Record(seqNo: int, activity: Option<string>)

  datatype Scan = Scan(lastSeq: int, corruptLines: nat, lastActivity: Option<string>)

  const Nothing := Scan(-1, 0, None)

  /** One record as one line of JSON. */
  type Encoder = Record -> string
  type Decoder = string -> Option<Record>

  /** The beginning of a printed record, at most all of it. */
  ghost predicate Piece(encode: Encoder, s: string) {
    s != "" && exists r: Record :: |s| <= |encode(r)| && s == encode(r)[..|s|]
  }

  ghost predicate Pieces(encode: Encoder, pieces: seq<string>) {
    forall i :: 0 <= i < |pieces| ==> Piece(encode, pieces[i])
  }

  /** What is asked of the JSON library: a printed object is one trimmed line that reads back as itself, while a
      printed object cut short, or with others begun right behind it, does not read. */
  ghost predicate Codec(encode: Encoder, decode: Decoder) {
    && (forall r: Record :: decode(encode(r)) == Some(r) && '\n' !in encode(r))
    && (forall r: Record :: Text.Trim(encode(r)) == encode(r) && encode(r) != "")
    && (forall r: Record, k: nat :: 0 < k < |encode(r)| ==> decode(Text.Trim(encode(r)[..k])).None?)
    && (forall pieces :: |pieces| >= 2 && Pieces(encode, pieces) ==>
          !Blank(Concat(pieces)) && decode(Text.Trim(Concat(pieces))).None?)
  }

  function Apply(scan: Scan, r: Record): Scan {
    Scan(if r.seqNo > scan.lastSeq then r.seqNo else scan.lastSeq, scan.corruptLines,
         if r.activity.Some? then r.activity else scan.lastActivity)
  }

  /** One line: an unreadable one counts as corrupt, unless nothing but the torn end of the log stands there. */
  function ScanLine(decode: Decoder, scan: Scan, line: string, torn: bool): Scan {
    if Blank(line) then scan
    else if decode(Text.Trim(line)).Some? then Apply(scan, decode(Text.Trim(line)).value)
    else if torn then scan
    else scan.(corruptLines := scan.corruptLines + 1)
  }

  function ScanWhole(decode: Decoder, lines: seq<string>): Scan {
    if lines == [] then Nothing
    else ScanLine(decode, ScanWhole(decode, lines[..|lines| - 1]), lines[|lines| - 1], false)
  }

  function ScanText(decode: Decoder, text: string): Scan {
    ScanLine(decode, ScanWhole(decode, SplitLines(text).lines), SplitLines(text).held, true)
  }

  /** The scan as it runs over the split file. */
  method ScanEventsJsonl(decode: Decoder, text: string) returns (scan: Scan)
    ensures scan == ScanText(decode, text)
  {
    var split := SplitLines(text);
    var lines := split.lines + [split.held];
    scan := Nothing;
    for i := 0 to |lines|
      invariant scan == if i <= |split.lines| then ScanWhole(decode, split.lines[..i]) else ScanText(decode, text)
    {
      assert i < |split.lines| ==> split.lines[..i + 1][..i] == split.lines[..i];
      assert split.lines[..|split.lines|] == split.lines;
      var trimmed := Text.Trim(lines[i]);
      if |trimmed| > 0 {
        if decode(trimmed).Some? {
          scan := Apply(scan, decode(trimmed).value);
        } else if i < |lines| - 1 {
          scan := scan.(corruptLines := scan.corruptLines + 1);
        }
      }
    }
  }

  // The log of some records.

  function Encoded(encode: Encoder, records: seq<Record>): (lines: seq<string>)
    ensures |lines| == |records| && forall i :: 0 <= i < |records| ==> lines[i] == encode(records[i])
  {
    seq(|records|, i requires 0 <= i < |records| => encode(records[i]))
  }

  /** The file some records make, each on its own line. */
  function Written(encode: Encoder, records: seq<Record>): string { Joined(Encoded(encode, records)) }

  /** What some records say, read in order. */
  function Read(records: seq<Record>): Scan {
    if records == [] then Nothing else Apply(Read(records[..|records| - 1]), records[|records| - 1])
  }

  /** What a log says is its highest number and the last activity line any record carries. */
  lemma {:induction false} ReadIsHighestAndLast(records: seq<Record>)
    ensures var scan := Read(records);
            && (forall r :: r in records ==> r.seqNo <= scan.lastSeq)
            && (scan.lastSeq == -1 || exists r :: r in records && r.seqNo == scan.lastSeq)
            && -1 <= scan.lastSeq && scan.corruptLines == 0
            && (scan.lastActivity.None? <==> forall r :: r in records ==> r.activity.None?)
            && (scan.lastActivity.Some? ==>
                  exists k :: 0 <= k < |records| && records[k].activity == scan.lastActivity
                              && forall j :: k < j < |records| ==> records[j].activity.None?)
  {
    if records != [] {
      var rest, last := records[..|records| - 1], records[|records| - 1];
      ReadIsHighestAndLast(rest);
      assert records == rest + [last];
      assert records[|rest|] == last;
      if last.activity.None? && Read(rest).lastActivity.Some? {
        var k :| 0 <= k < |rest| && rest[k].activity == Read(rest).lastActivity
                 && forall j :: k < j < |rest| ==> rest[j].activity.None?;
        assert records[k] == rest[k];
      }
    }
  }

  lemma {:induction false} ScansWholeRecords(encode: Encoder, decode: Decoder, records: seq<Record>)
    requires Codec(encode, decode)
    ensures ScanWhole(decode, Encoded(encode, records)) == Read(records)
  {
    if records != [] {
      var lines := Encoded(encode, records);
      assert lines[..|lines| - 1] == Encoded(encode, records[..|records| - 1]);
      ScansWholeRecords(encode, decode, records[..|records| - 1]);
    }
  }

  /** How many of the lines a log cut after `n` characters still holds whole; the last may miss its newline. */
  function WholeIn(lines: seq<string>, n: nat): (m: nat)
    ensures m <= |lines|
  {
    if lines == [] || n < |lines[0]| then 0
    else if n == |lines[0]| then 1
    else 1 + WholeIn(lines[1..], n - |lines[0]| - 1)
  }

  /** Where a cut falls: behind some whole lines, in the middle of the next or at its end. */
  lemma {:induction false} CutFalls(lines: seq<string>, n: nat) returns (m: nat, tail: string)
    requires n <= |Joined(lines)|
    ensures m <= |lines| && Joined(lines)[..n] == Joined(lines[..m]) + tail
    ensures if m == |lines| then tail == "" && WholeIn(lines, n) == m
            else |tail| <= |lines[m]| && tail == lines[m][..|tail|]
                 && WholeIn(lines, n) == if tail == lines[m] then m + 1 else m
    decreases |lines|
  {
    if lines == [] {
      m, tail := 0, "";
    } else if n <= |lines[0]| {
      m, tail := 0, lines[0][..n];
      assert Joined(lines)[..n] == tail;
      assert Joined(lines[..0]) + tail == tail;
    } else {
      var first, rest := lines[0], lines[1..];
      var k := n - |first| - 1;
      var m', tail' := CutFalls(rest, k);
      m, tail := m' + 1, tail';
      CutBehindLine(first, Joined(rest), k);
      assert lines[..m][0] == first && lines[..m][1..] == rest[..m'];
      Associates(first + "\n", Joined(rest[..m']), tail);
    }
  }

  lemma CutBehindLine(first: string, rest: string, k: nat)
    requires k <= |rest|
    ensures (first + "\n" + rest)[..|first| + 1 + k] == first + "\n" + rest[..k]
  {}

  /** Wherever the log is cut, the scan counts no corrupt line and reads exactly the records still whole. */
  lemma CutLogReadsWholeRecords(encode: Encoder, decode: Decoder, records: seq<Record>, n: nat)
    requires Codec(encode, decode) && n <= |Written(encode, records)|
    ensures ScanText(decode, Written(encode, records)[..n])
         == Read(records[..WholeIn(Encoded(encode, records), n)])
  {
    hide Codec, Read, ScanWhole, ScanLine, WholeIn, Joined, Splitting, Written;
    var lines := Encoded(encode, records);
    WrittenIsJoined(encode, records);
    var m, tail := CutFalls(lines, n);
    assert lines[..m] == Encoded(encode, records[..m]);
    EncodedOneLiners(encode, decode, records[..m]);
    TailHasNoNewline(encode, decode, records, m, tail);
    FramingUndoesWriting([], lines[..m], tail);
    assert [] + lines[..m] == lines[..m];
    ScansWholeRecords(encode, decode, records[..m]);
    if m < |lines| {
      ScansTornTail(encode, decode, Read(records[..m]), records[m], tail);
      ReadOneMore(records, m);
    } else {
      ScansNoTail(decode, Read(records[..m]));
    }
  }

  lemma WrittenIsJoined(encode: Encoder, records: seq<Record>)
    ensures Written(encode, records) == Joined(Encoded(encode, records))
  {}

  lemma ReadOneMore(records: seq<Record>, m: nat)
    requires m < |records|
    ensures Read(records[..m + 1]) == Apply(Read(records[..m]), records[m])
  {
    assert records[..m + 1][..m] == records[..m];
  }

  lemma EncodedOneLiners(encode: Encoder, decode: Decoder, records: seq<Record>)
    requires Codec(encode, decode)
    ensures OneLiners(Encoded(encode, records))
  {}

  lemma TailHasNoNewline(encode: Encoder, decode: Decoder, records: seq<Record>, m: nat, tail: string)
    requires Codec(encode, decode) && m <= |records|
    requires if m == |records| then tail == ""
             else |tail| <= |encode(records[m])| && tail == encode(records[m])[..|tail|]
    ensures '\n' !in tail
  {
    if m < |records| { assert '\n' !in encode(records[m]); }
  }

  lemma ScansNoTail(decode: Decoder, scan: Scan)
    ensures ScanLine(decode, scan, "", true) == scan
  {}

  lemma ScansTornTail(encode: Encoder, decode: Decoder, scan: Scan, r: Record, tail: string)
    requires Codec(encode, decode) && |tail| <= |encode(r)| && tail == encode(r)[..|tail|]
    ensures ScanLine(decode, scan, tail, true) == if tail == encode(r) then Apply(scan, r) else scan
  {
    if tail == encode(r) {
      assert Text.Trim(encode(r)) == encode(r);
    } else if 0 < |tail| {
      assert decode(Text.Trim(encode(r)[..|tail|])).None?;
    }
  }

  lemma ReadsBack(encode: Encoder, decode: Decoder, r: Record)
    requires Codec(encode, decode)
    ensures !Blank(encode(r)) && decode(Text.Trim(encode(r))) == Some(r)
  {
    assert decode(encode(r)) == Some(r);
  }
}
