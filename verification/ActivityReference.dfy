/** The markers that stand in a text, said without a scanner, and the lines a stream reports. */
module ActivityReference {
  import opened Text
  import opened ActivityScan
  import opened ActivityCuts
  import opened Sequences

  /** The first closing sentinel starts within 480 characters, and no line ends before it. */
  predicate ClosesInTime(body: string) {
    var close := IndexOf(body, Closer);
    0 <= close <= 480 && forall j: nat | j < close :: !BreakAt(body, j)
  }

  lemma KeepsIsClosingInTime(body: string)
    ensures Keeps(body) <==> ClosesInTime(body)
  {
    if ClosesInTime(body) && FirstBreak(body) != -1 {
      assert BreakAt(body, FirstBreak(body));
      assert !BreakAt(body, IndexOf(body, Closer));
    }
  }

  /** An opener whose line closes within the limit. */
  predicate MarkerAt(text: string, i: nat) {
    OccursAt(text, Opener, i) && ClosesInTime(text[i + 12..])
  }

  /** Where the leftmost marker at or after `i` starts, or -1. */
  function MarkerFrom(text: string, i: nat): (r: int)
    requires i <= |text|
    ensures r == -1 || i <= r
    ensures 0 <= r ==> MarkerAt(text, r)
    ensures forall j: nat | i <= j && (j < r || r == -1) :: !MarkerAt(text, j)
    decreases |text| - i
  {
    if MarkerAt(text, i) then i else if i == |text| then -1 else MarkerFrom(text, i + 1)
  }

  /** The bodies of the markers of a text: take the leftmost one, then read on behind it. */
  function Markers(found: seq<string>, text: string): seq<string>
    decreases |text|
  {
    var i := MarkerFrom(text, 0);
    if i == -1 then found
    else
      var rest := text[i + 12..];
      var close := IndexOf(rest, Closer);
      Markers(found + [rest[..close]], rest[close + 3..])
  }

  function Bodies(verdicts: seq<Verdict>): seq<string> {
    if verdicts == [] then []
    else
      var last := verdicts[|verdicts| - 1];
      Bodies(verdicts[..|verdicts| - 1]) + (if last.Kept? then [last.body] else [])
  }

  lemma BodiesExtend(reached: seq<Verdict>, v: Verdict)
    ensures Bodies(reached + [v]) == Bodies(reached) + (if v.Kept? then [v.body] else [])
  {
    assert (reached + [v])[..|reached|] == reached;
  }

  lemma SameMarker(text: string, d: nat, j: nat)
    requires d <= |text|
    ensures MarkerAt(text[d..], j) == MarkerAt(text, d + j)
  {
    if d + j + 12 <= |text| { assert text[d..][j + 12..] == text[d + j + 12..]; }
  }

  lemma MarkerFromAfterDrop(text: string, d: nat)
    requires d <= |text| && forall j: nat | j < d :: !MarkerAt(text, j)
    ensures MarkerFrom(text, 0) == if MarkerFrom(text[d..], 0) == -1 then -1 else d + MarkerFrom(text[d..], 0)
  {
    hide MarkerAt;
    forall j: nat ensures MarkerAt(text[d..], j) == MarkerAt(text, d + j) { SameMarker(text, d, j); }
    var i := MarkerFrom(text, 0);
    if i != -1 {
      assert MarkerAt(text[d..], i - d);
      forall j: nat | j < i - d ensures !MarkerAt(text[d..], j) { assert !MarkerAt(text, d + j); }
    } else {
      forall j: nat ensures !MarkerAt(text[d..], j) { assert !MarkerAt(text, d + j); }
    }
  }

  lemma MarkerFits(text: string, i: nat)
    requires MarkerAt(text, i)
    ensures i + 12 <= |text|
  {}

  /** Text no marker starts in can be dropped from the front. */
  lemma MarkersAfterDrop(found: seq<string>, text: string, d: nat)
    requires d <= |text| && forall j: nat | j < d :: !MarkerAt(text, j)
    ensures Markers(found, text) == Markers(found, text[d..])
  {
    hide Keeps, OccursAt, MarkerFrom, IndexOf;
    MarkerFromAfterDrop(text, d);
    var rest := text[d..];
    var k := MarkerFrom(rest, 0);
    if k != -1 {
      MarkerFits(rest, k);
      SliceOfSlice(text, d, k + 12);
    }
  }

  /** Before the leftmost opener no marker starts, and no opener starts inside another. */
  lemma NoMarkerUpTo(text: string)
    ensures IndexOf(text, Opener) == -1 ==> forall j: nat :: !MarkerAt(text, j)
    ensures var o := IndexOf(text, Opener);
            0 <= o ==> forall j: nat | j < o + 12 && j != o :: !MarkerAt(text, j)
  {
    var o := IndexOf(text, Opener);
    forall j: nat | j < o || o == -1 ensures !MarkerAt(text, j) { assert !OccursAt(text, Opener, j); }
    if 0 <= o {
      forall j: nat | o < j < o + 12 ensures !OccursAt(text, Opener, j) {}
    }
  }

  /** A leftmost opener whose body is kept is the leftmost marker. */
  lemma MarkerHere(found: seq<string>, text: string)
    requires IndexOf(text, Opener) != -1 && Keeps(AfterOpener(text))
    ensures var body := AfterOpener(text);
            Markers(found, text) == Markers(found + [Body(body)], AfterClose(body))
  {
    hide ClosesInTime, Keeps, IndexOf, OccursAt, MarkerFrom;
    NoMarkerUpTo(text);
    KeepsIsClosingInTime(AfterOpener(text));
    assert MarkerAt(text, IndexOf(text, Opener));
    assert MarkerFrom(text, 0) == IndexOf(text, Opener) by { hide MarkerAt; }
  }

  /** A leftmost opener whose body is not kept stands for nothing. */
  lemma NoMarkerHere(found: seq<string>, text: string)
    requires IndexOf(text, Opener) != -1 && !Keeps(AfterOpener(text))
    ensures Markers(found, text) == Markers(found, AfterOpener(text))
  {
    hide ClosesInTime;
    var d := IndexOf(text, Opener) + 12;
    KeepsIsClosingInTime(AfterOpener(text));
    assert forall j: nat | j < d :: !MarkerAt(text, j) by {
      NoMarkerUpTo(text);
    }
    MarkersAfterDrop(found, text, d);
  }

  lemma NoCloserNoMarkers(found: seq<string>, text: string)
    requires IndexOf(text, Closer) == -1
    ensures Markers(found, text) == found
  {
    forall j: nat ensures !MarkerAt(text, j) {
      assert !OccursAt(text, Closer, j);
    }
  }

  /** The scanner keeps exactly the markers of the text, in order, whatever openers it entered in vain. */
  lemma {:induction false} RunKeepsTheMarkers(reached: seq<Verdict>, text: string)
    ensures Bodies(Run(reached, State(text, false)).verdicts) == Markers(Bodies(reached), text)
    decreases |text|
  {
    if IndexOf(text, Opener) == -1 {
      NoMarkerUpTo(text);
    } else {
      var body := AfterOpener(text);
      if Keeps(body) {
        MarkerHere(Bodies(reached), text);
        BodiesExtend(reached, Kept(Body(body)));
        RunKeepsTheMarkers(reached + [Kept(Body(body))], AfterClose(body));
      } else {
        NoMarkerHere(Bodies(reached), text);
        if Disowns(body) {
          BodiesExtend(reached, GivenUp);
          assert Bodies(reached) + [] == Bodies(reached);
          RunKeepsTheMarkers(reached + [GivenUp], body);
        } else {
          NoCloserNoMarkers(Bodies(reached), body);
        }
      }
    }
  }

  /** The lines some bodies are reported as; a blank one reports none. */
  function LinesOfBodies(bodies: seq<string>): seq<string> {
    if bodies == [] then []
    else LinesOfBodies(bodies[..|bodies| - 1]) + LineIfAny(Kept(bodies[|bodies| - 1]))
  }

  lemma {:induction false} LinesAreThoseOfBodies(verdicts: seq<Verdict>)
    ensures Lines(verdicts) == LinesOfBodies(Bodies(verdicts))
  {
    if verdicts != [] {
      var front, last := verdicts[..|verdicts| - 1], verdicts[|verdicts| - 1];
      LinesAreThoseOfBodies(front);
      if last.Kept? {
        assert (Bodies(front) + [last.body])[..|Bodies(front)|] == Bodies(front);
      } else {
        assert Bodies(front) + [] == Bodies(front) && Lines(front) + [] == Lines(front);
      }
    }
  }

  /** However a steady text is cut into deltas, the lines reported are those of its markers. */
  lemma StreamReportsTheMarkers(deltas: seq<string>)
    requires Steady(State(Concat(deltas), false))
    ensures Lines(FeedAll(Fresh, deltas).verdicts) == LinesOfBodies(Markers([], Concat(deltas)))
  {
    var text := Concat(deltas);
    assert Extended(Fresh.state, text) == State(text, false);
    FeedAllIsWhole(Fresh, deltas);
    if text == "" { UndecidedRunsToItself([], Fresh.state); }
    RunKeepsTheMarkers([], text);
    LinesAreThoseOfBodies(FeedAll(Fresh, deltas).verdicts);
  }

  /** A body kept is one line of at most 480 characters holding no sentinel. */
  predicate OneLine(v: Verdict) {
    v.Kept? ==> |v.body| <= ACTIVITY_SCAN_LIMIT && FirstBreak(v.body) == -1 && IndexOf(v.body, Closer) == -1
  }

  lemma KeptBodyIsOneLine(p: string)
    requires Keeps(p)
    ensures OneLine(Kept(Body(p)))
  {
    forall j: nat ensures !BreakAt(Body(p), j) && !OccursAt(Body(p), Closer, j) {
      assert j < |Body(p)| ==> !BreakAt(p, j) && !OccursAt(p, Closer, j);
    }
  }

  lemma {:induction false} RunKeepsOneLiners(reached: seq<Verdict>, st: State)
    requires forall v | v in reached :: OneLine(v)
    ensures forall v | v in Run(reached, st).verdicts :: OneLine(v)
    decreases |st.pending|, st.inMarker
  {
    var p := st.pending;
    if !st.inMarker {
      if IndexOf(p, Opener) != -1 { RunKeepsOneLiners(reached, State(AfterOpener(p), true)); }
    } else if Keeps(p) {
      KeptBodyIsOneLine(p);
      RunKeepsOneLiners(reached + [Kept(Body(p))], State(AfterClose(p), false));
    } else if Disowns(p) {
      RunKeepsOneLiners(reached + [GivenUp], State(p, false));
    }
  }

  lemma {:induction false} TrimTakesNothingIn(s: string)
    ensures forall c | c in Trim(s) :: c in s
    decreases |s|
  {
    if s != [] && IsSpace(s[0]) {
      assert Trim(s) == Trim(s[1..]);
      TrimTakesNothingIn(s[1..]);
    } else if s != [] && IsSpace(s[|s| - 1]) {
      var front := s[..|s| - 1];
      assert Trim(s) == TrimEnd(front) && Trim(front) == TrimEnd(front) by {
        assert front == [] || front[0] == s[0];
      }
      TrimTakesNothingIn(front);
    }
  }

  /** Every line reported, however the stream is cut, is non-empty, at most 120 long and unbroken. */
  lemma {:induction false} LinesAreShort(verdicts: seq<Verdict>)
    requires forall v | v in verdicts :: OneLine(v)
    ensures forall l | l in Lines(verdicts) ::
              0 < |l| <= MAX_ACTIVITY_LENGTH && forall c | c in l :: c != '\n' && c != '\r'
  {
    if verdicts != [] {
      var last := verdicts[|verdicts| - 1];
      LinesAreShort(verdicts[..|verdicts| - 1]);
      assert last in verdicts && OneLine(last);
      if last.Kept? {
        TrimTakesNothingIn(last.body);
        forall c | c in LineOf(last.body) ensures !IsBreak(c) {
          assert c in Trim(last.body);
          var j :| 0 <= j < |last.body| && last.body[j] == c;
          assert !BreakAt(last.body, j);
        }
      }
    }
  }

  lemma {:induction false} StreamLinesAreShort(s: Scan, deltas: seq<string>)
    requires forall v | v in s.verdicts :: OneLine(v)
    ensures forall l | l in Lines(FeedAll(s, deltas).verdicts) ::
              0 < |l| <= MAX_ACTIVITY_LENGTH && forall c | c in l :: c != '\n' && c != '\r'
    decreases |deltas|
  {
    if deltas == [] {
      LinesAreShort(s.verdicts);
    } else {
      RunKeepsOneLiners(s.verdicts, Extended(s.state, deltas[0]));
      StreamLinesAreShort(Feed(s, deltas[0]), deltas[1..]);
    }
  }
}
