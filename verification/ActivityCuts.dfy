/** How far the scanner's verdicts depend on where a text is cut into deltas. */
module ActivityCuts {
  import opened Text
  import opened ActivityScan
  import opened Sequences

  /** The two offsets of the first close at which the verdict hangs on the cut. */
  predicate OnBoundary(body: string) {
    Closes(body) && ACTIVITY_SCAN_LIMIT - 1 <= IndexOf(body, Closer) <= ACTIVITY_SCAN_LIMIT
  }

  /** No body entered while scanning has its first close at one of the two boundary offsets. */
  predicate Steady(st: State)
    decreases |st.pending|, st.inMarker
  {
    var p := st.pending;
    if !st.inMarker then IndexOf(p, Opener) == -1 || Steady(State(AfterOpener(p), true))
    else
      !OnBoundary(p) &&
      (Keeps(p) ==> Steady(State(AfterClose(p), false))) &&
      (Disowns(p) ==> Steady(State(p, false)))
  }

  function Extended(st: State, q: string): State { State(st.pending + q, st.inMarker) }

  /** An opener the tail could still complete is found at the same place of the text. */
  lemma TailSuffices(p: string, q: string)
    requires IndexOf(p, Opener) == -1
    ensures IndexOf(Tail(p) + q, Opener) == -1 ==>
              IndexOf(p + q, Opener) == -1 && Tail(Tail(p) + q) == Tail(p + q)
    ensures IndexOf(Tail(p) + q, Opener) != -1 ==>
              IndexOf(p + q, Opener) != -1 && AfterOpener(Tail(p) + q) == AfterOpener(p + q)
  {
    hide OccursAt, IndexOf;
    var tail, d := Tail(p), |p| - |Tail(p)|;
    NothingBeforeTail(p, q);
    DropInFront(p, q, d);
    assert p[d..] == tail;
    IndexAfterDrop(p + q, d, Opener);
    var k := IndexOf(tail + q, Opener);
    if k == -1 {
      SameTail(p, q);
    } else {
      OpenerFits(tail + q, k);
      SliceOfSlice(p + q, d, k + 12);
    }
  }

  lemma NothingBeforeTail(p: string, q: string)
    requires IndexOf(p, Opener) == -1
    ensures forall j: nat | j < |p| - |Tail(p)| :: !OccursAt(p + q, Opener, j)
  {
    hide IndexOf;
    forall j: nat | j < |p| - |Tail(p)| ensures !OccursAt(p + q, Opener, j) {
      assert !OccursAt(p, Opener, j);
    }
  }

  lemma OpenerFits(s: string, k: nat)
    requires OccursAt(s, Opener, k)
    ensures k + 12 <= |s|
  {}

  lemma SameTail(p: string, q: string)
    ensures Tail(Tail(p) + q) == Tail(p + q)
  {
    var tail, d := Tail(p), |p| - |Tail(p)|;
    DropInFront(p, q, d);
    if |tail + q| > 11 { SliceOfSlice(p + q, d, |tail + q| - 11); }
  }

  /** More text does not change what a prefix already kept, and only a boundary body undoes a give-up. */
  lemma VerdictStands(p: string, q: string)
    ensures Keeps(p) ==> Keeps(p + q) && Body(p + q) == Body(p) && AfterClose(p + q) == AfterClose(p) + q
    ensures OnBoundary(p) ==> OnBoundary(p + q)
    ensures Disowns(p) && !OnBoundary(p + q) ==> Disowns(p + q)
  {
    BreakInPrefix(p, q);
    if IndexOf(p, Closer) != -1 {
      IndexInPrefix(p, q, Closer);
    } else {
      IndexPastPrefix(p, q, Closer);
    }
  }

  /** One cut of a steady text changes neither the verdicts nor the state the scanner ends in. */
  lemma {:induction false} CutAnywhere(reached: seq<Verdict>, st: State, q: string)
    requires Steady(Extended(st, q))
    ensures Steady(st)
    ensures var first := Run(reached, st);
            Steady(Extended(first.state, q)) &&
            Run(first.verdicts, Extended(first.state, q)) == Run(reached, Extended(st, q))
    decreases |st.pending|, st.inMarker
  {
    var p := st.pending;
    if !st.inMarker {
      if IndexOf(p, Opener) == -1 {
        TailSuffices(p, q);
      } else {
        IndexInPrefix(p, q, Opener);
        assert AfterOpener(p + q) == AfterOpener(p) + q;
        CutAnywhere(reached, State(AfterOpener(p), true), q);
      }
    } else {
      VerdictStands(p, q);
      if Keeps(p) {
        CutAnywhere(reached + [Kept(Body(p))], State(AfterClose(p), false), q);
      } else if Disowns(p) {
        CutAnywhere(reached + [GivenUp], State(p, false), q);
      }
    }
  }

  lemma UndecidedRunsToItself(reached: seq<Verdict>, st: State)
    requires Undecided(st)
    ensures Run(reached, st) == Scan(reached, st)
  {}

  /** Any way of cutting a steady text feeds the scanner as the whole text would. */
  lemma {:induction false} FeedAllIsWhole(s: Scan, deltas: seq<string>)
    requires Undecided(s.state) && Steady(Extended(s.state, Concat(deltas)))
    ensures FeedAll(s, deltas) == Feed(s, Concat(deltas))
    decreases |deltas|
  {
    if deltas != [] {
      var d, rest := deltas[0], Concat(deltas[1..]);
      assert s.state.pending + (d + rest) == (s.state.pending + d) + rest;
      CutAnywhere(s.verdicts, Extended(s.state, d), rest);
      RunEndsUndecided(s.verdicts, Extended(s.state, d));
      if d == "" {
        assert Extended(s.state, d) == s.state && d + rest == rest;
      } else if rest == "" {
        var first := Feed(s, d);
        assert Extended(first.state, rest) == first.state && d + rest == d;
        UndecidedRunsToItself(first.verdicts, first.state);
      }
      UndecidedRunsToItself(s.verdicts, s.state);
      FeedAllIsWhole(Feed(s, d), deltas[1..]);
    }
  }

  lemma {:induction false} RunOnlyAdds(reached: seq<Verdict>, st: State)
    ensures reached <= Run(reached, st).verdicts
    decreases |st.pending|, st.inMarker
  {
    var p := st.pending;
    if !st.inMarker {
      if IndexOf(p, Opener) != -1 { RunOnlyAdds(reached, State(AfterOpener(p), true)); }
    } else if Keeps(p) {
      RunOnlyAdds(reached + [Kept(Body(p))], State(AfterClose(p), false));
    } else if Disowns(p) {
      RunOnlyAdds(reached + [GivenUp], State(p, false));
    }
  }

  /** At index k the first list gave an opener up and the second kept it. */
  predicate PartAt(a: seq<Verdict>, b: seq<Verdict>, k: nat) {
    k < |a| && k < |b| && a[k] == GivenUp && b[k].Kept?
  }

  /** A body on the boundary is given up when only its first 481 characters have arrived. */
  lemma BoundaryGivenUpAt481(body: string)
    requires OnBoundary(body)
    ensures |body| > 481 && Disowns(body[..481]) && Keeps(body)
  {
    var u, c := body[..481], IndexOf(body, Closer);
    assert body == u + body[481..];
    VerdictStands(u, body[481..]);
    if IndexOf(u, Closer) != -1 { IndexInPrefix(u, body[481..], Closer); }
  }

  lemma BoundaryBodyParts(reached: seq<Verdict>, body: string)
    requires OnBoundary(body)
    ensures |body| > 481
    ensures PartAt(Run(reached, State(body[..481], true)).verdicts, Run(reached, State(body, true)).verdicts, |reached|)
  {
    BoundaryGivenUpAt481(body);
    RunOnlyAdds(reached + [GivenUp], State(body[..481], false));
    RunOnlyAdds(reached + [Kept(Body(body))], State(AfterClose(body), false));
  }

  /** Text that ends inside the body an opener starts enters that body, as far as it goes. */
  lemma OpenerStands(reached: seq<Verdict>, p: string, a: string)
    requires 0 <= IndexOf(p, Opener) && a <= AfterOpener(p)
    ensures var front := p[..IndexOf(p, Opener) + 12];
            front + a <= p && Run(reached, State(front + a, false)) == Run(reached, State(a, true))
  {
    var at := IndexOf(p, Opener);
    var front := p[..at + 12];
    assert OccursAt(front, Opener, at);
    forall j: nat | j < at ensures !OccursAt(front, Opener, j) { assert !OccursAt(p, Opener, j); }
    IndexInPrefix(front, a, Opener);
    assert AfterOpener(front + a) == a;
  }

  lemma KeptByItself(p: string)
    requires Keeps(p)
    ensures var front := p[..IndexOf(p, Closer) + 3]; Keeps(front) && Body(front) == Body(p) && AfterClose(front) == ""
  {
    var at := IndexOf(p, Closer);
    var front := p[..at + 3];
    assert OccursAt(front, Closer, at);
    forall j: nat | j < at ensures !OccursAt(front, Closer, j) { assert !OccursAt(p, Closer, j); }
    assert IndexOf(front, Closer) == at;
    forall j: nat | j < at ensures !BreakAt(front, j) { assert !BreakAt(p, j); }
  }

  lemma KeptStands(reached: seq<Verdict>, p: string, a: string)
    requires Keeps(p) && a <= AfterClose(p)
    ensures var front := p[..IndexOf(p, Closer) + 3];
            front + a <= p &&
            Run(reached, State(front + a, true)) == Run(reached + [Kept(Body(p))], State(a, false))
  {
    KeptByItself(p);
    VerdictStands(p[..IndexOf(p, Closer) + 3], a);
    assert "" + a == a;
  }

  lemma DisownedStands(reached: seq<Verdict>, p: string, a: string)
    requires Disowns(p) && a <= p && ACTIVITY_SCAN_LIMIT < |a|
    ensures Run(reached, State(a, true)) == Run(reached + [GivenUp], State(a, false))
  {
    assert p == a + p[|a|..];
    VerdictStands(a, p[|a|..]);
  }

  /** Where a text that is not steady can be cut to change a verdict. */
  lemma {:induction false} BoundaryShows(reached: seq<Verdict>, st: State) returns (a: string, k: nat)
    requires !Steady(st)
    ensures a <= st.pending && 481 <= |a|
    ensures PartAt(Run(reached, State(a, st.inMarker)).verdicts, Run(reached, st).verdicts, k)
    decreases |st.pending|, st.inMarker
  {
    var p := st.pending;
    if !st.inMarker {
      a, k := BoundaryShows(reached, State(AfterOpener(p), true));
      OpenerStands(reached, p, a);
      a := p[..IndexOf(p, Opener) + 12] + a;
    } else if OnBoundary(p) {
      BoundaryBodyParts(reached, p);
      a, k := p[..481], |reached|;
    } else if Keeps(p) {
      a, k := BoundaryShows(reached + [Kept(Body(p))], State(AfterClose(p), false));
      KeptStands(reached, p, a);
      a := p[..IndexOf(p, Closer) + 3] + a;
    } else {
      a, k := BoundaryShows(reached + [GivenUp], State(p, false));
      DisownedStands(reached, p, a);
    }
  }

  lemma TwoDeltas(s: Scan, a: string, b: string)
    ensures Concat([a, b]) == a + b
    ensures FeedAll(s, [a, b]) == Feed(Feed(s, a), b)
  {
    assert [a, b][1..] == [b] && [b][1..] == [];
    assert Concat([b]) == b + "" == b;
    var first := Feed(s, a);
    assert FeedAll(first, [b]) == FeedAll(Feed(first, b), []);
  }

  /** The verdict a first delta reached is not taken back by the next. */
  lemma FirstDeltaDecides(s: Scan, a: string, b: string, k: nat)
    requires a != "" && k < |Run(s.verdicts, Extended(s.state, a)).verdicts|
    ensures k < |FeedAll(s, [a, b]).verdicts|
    ensures FeedAll(s, [a, b]).verdicts[k] == Run(s.verdicts, Extended(s.state, a)).verdicts[k]
  {
    var first := Feed(s, a);
    RunOnlyAdds(first.verdicts, Extended(first.state, b));
    TwoDeltas(s, a, b);
  }

  lemma SplitPrefix(held: string, text: string, prefix: string) returns (a: string, b: string)
    requires prefix <= held + text && |held| < |prefix|
    ensures a + b == text && held + a == prefix && a != ""
  {
    a, b := text[..|prefix| - |held|], text[|prefix| - |held|..];
  }

  /** A text that is not steady has a cut into two deltas that changes a verdict. */
  lemma SomeCutDisagrees(s: Scan, text: string) returns (deltas: seq<string>)
    requires Undecided(s.state) && !Steady(Extended(s.state, text))
    ensures Concat(deltas) == text && FeedAll(s, deltas).verdicts != Feed(s, text).verdicts
  {
    var held, k := BoundaryShows(s.verdicts, Extended(s.state, text));
    var a, b := SplitPrefix(s.state.pending, text, held);
    FirstDeltaDecides(s, a, b, k);
    TwoDeltas(s, a, b);
    deltas := [a, b];
  }

  /** However the text is cut into deltas, the scan ends where one push of the whole does. */
  ghost predicate CutsAgree(s: Scan, text: string) {
    forall deltas | Concat(deltas) == text :: FeedAll(s, deltas) == Feed(s, text)
  }

  /** Every cut of a text agrees with feeding it whole exactly when no body entered is on the boundary. */
  lemma CutsAgreeExactlyOnSteadyText(s: Scan, text: string)
    requires Undecided(s.state)
    ensures CutsAgree(s, text) <==> Steady(Extended(s.state, text))
  {
    if Steady(Extended(s.state, text)) {
      forall deltas | Concat(deltas) == text ensures FeedAll(s, deltas) == Feed(s, text) {
        FeedAllIsWhole(s, deltas);
      }
    } else {
      var deltas := SomeCutDisagrees(s, text);
    }
  }

  /** Body by body: some prefix decides otherwise than the whole exactly when the first close stands
      at one of the two boundary offsets. */
  lemma VerdictHangsOnCutExactlyAtBoundary(body: string)
    ensures OnBoundary(body) <==>
            exists n: nat :: n <= |body| &&
              ((Keeps(body[..n]) && !Keeps(body)) || (Disowns(body[..n]) && !Disowns(body)))
  {
    if OnBoundary(body) {
      BoundaryGivenUpAt481(body);
    } else {
      forall n: nat | n <= |body|
        ensures (Keeps(body[..n]) ==> Keeps(body)) && (Disowns(body[..n]) ==> Disowns(body))
      {
        assert body == body[..n] + body[n..];
        VerdictStands(body[..n], body[n..]);
      }
    }
  }

  function Filler(n: nat): (r: string)
    ensures |r| == n && forall i | 0 <= i < n :: r[i] == 'x'
  {
    seq(n, _ => 'x')
  }

  /** Both offsets occur, and no other does: a marker of `n` filler characters is on the boundary at 479 and 480. */
  lemma FillerIsOnBoundaryAt479And480(n: nat)
    ensures OnBoundary(Filler(n) + "%%%") <==> n == 479 || n == 480
  {
    var body := Filler(n) + "%%%";
    assert body[n] == '%' && body[n + 1] == '%' && body[n + 2] == '%';
    assert OccursAt(body, Closer, n);
    forall j: nat | j < n ensures !OccursAt(body, Closer, j) { assert body[j] == 'x'; }
    forall j: nat ensures !BreakAt(body, j) { if j < n { assert body[j] == 'x'; } }
  }
}
