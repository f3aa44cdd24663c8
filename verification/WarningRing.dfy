/** The ring of things the backend said about a quiet turn. */
module WarningRing {

  const MAX_SESSION_WARNINGS := 5

  datatype Warning = Warning(method_: string, message: string, at: int)

  datatype Ring = Ring(kept: seq<Warning>, warningSeq: nat)

  const Empty := Ring([], 0)

  predicate Repeats(said: seq<Warning>, w: Warning) {
    said != [] && said[|said| - 1].method_ == w.method_ && said[|said| - 1].message == w.message
  }

  /** The newest `n` entries of a list. */
  function Newest(said: seq<Warning>, n: nat): (r: seq<Warning>)
    ensures |r| <= n
  {
    if |said| <= n then said else said[|said| - n..]
  }

  /** A repeat of the standing entry refreshes it; anything else is added and the oldest dropped. */
  function Record(r: Ring, w: Warning): Ring {
    if Repeats(r.kept, w) then r.(kept := r.kept[|r.kept| - 1 := w])
    else Ring(Newest(r.kept + [w], MAX_SESSION_WARNINGS), r.warningSeq + 1)
  }

  function RecordAll(r: Ring, said: seq<Warning>): Ring {
    if said == [] then r else Record(RecordAll(r, said[..|said| - 1]), said[|said| - 1])
  }

  /** A history with each run of consecutive repeats merged into its last. */
  function Merged(said: seq<Warning>): seq<Warning> {
    if said == [] then []
    else
      var before, w := Merged(said[..|said| - 1]), said[|said| - 1];
      if Repeats(before, w) then before[|before| - 1 := w] else before + [w]
  }

  /** The ring is the last five of the merged history, and `warningSeq` counts all of it. */
  lemma {:induction false} RingIsNewestOfMerged(said: seq<Warning>)
    ensures RecordAll(Empty, said) == Ring(Newest(Merged(said), MAX_SESSION_WARNINGS), |Merged(said)|)
  {
    if said != [] {
      RingIsNewestOfMerged(said[..|said| - 1]);
    }
  }

  /** `warningSeq` moves on exactly the entries that are no repeat. */
  lemma {:induction false} SeqMovesOnNewOnes(said: seq<Warning>, w: Warning)
    ensures RecordAll(Empty, said + [w]).warningSeq
         == RecordAll(Empty, said).warningSeq + (if Repeats(said, w) then 0 else 1)
  {
    assert (said + [w])[..|said|] == said;
    RingIsNewestOfMerged(said);
    MergedEndsAlike(said);
  }

  lemma {:induction false} MergedEndsAlike(said: seq<Warning>)
    ensures said == [] <==> Merged(said) == []
    ensures said != [] ==> Merged(said)[|Merged(said)| - 1] == said[|said| - 1]
  {
    if said != [] { MergedEndsAlike(said[..|said| - 1]); }
  }

  /** A warning that repeats the last one only refreshes its instant; any other is added, and of more than five the
      oldest goes. */
  lemma RecordRefreshesOrAdds(r: Ring, w: Warning)
    requires |r.kept| <= 5
    ensures var t, n := Record(r, w), |r.kept|;
            if n > 0 && r.kept[n - 1].method_ == w.method_ && r.kept[n - 1].message == w.message then
              && |t.kept| == n && t.kept[..n - 1] == r.kept[..n - 1] && t.kept[n - 1] == w
              && t.warningSeq == r.warningSeq
            else
              && t.kept == (if n == 5 then r.kept[1..] else r.kept) + [w]
              && t.warningSeq == r.warningSeq + 1
  {
    if |r.kept| == 5 { assert (r.kept + [w])[1..] == r.kept[1..] + [w]; }
  }
}
