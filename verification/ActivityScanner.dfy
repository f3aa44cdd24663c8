/** The scanner object that reads one session's agent-message stream. */
module ActivityScanner {
  import opened Text
  import opened ActivityScan
  import opened ActivityCuts
  import opened ActivityReference
  import opened Sequences

  class ActivityMarkerScanner {
    var pending: string
    var inMarker: bool
    /** Every character fed and every verdict reached since the last reset. */
    ghost var fed: string
    ghost var verdicts: seq<Verdict>

    function Held(): State reads this { State(pending, inMarker) }

    /** What is held is undecided; on a steady text the scanner stands where one scan of all of it ends. */
    ghost predicate Valid() reads this {
      Undecided(Held()) &&
      (Steady(State(fed, false)) ==> Run([], State(fed, false)) == Scan(verdicts, Held()))
    }

    constructor ()
      ensures Valid() && Held() == Fresh.state && fed == "" && verdicts == []
    {
      pending, inMarker := "", false;
      fed, verdicts := "", [];
    }

    /** Feed one delta; get back the markers that closed on it, oldest first. */
    method Push(delta: string) returns (found: seq<string>)
      requires Valid()
      modifies this
      ensures Valid() && fed == old(fed) + delta
      ensures Scan(verdicts, Held()) == Feed(Scan(old(verdicts), old(Held())), delta)
      ensures Lines(verdicts) == Lines(old(verdicts)) + found
      ensures Steady(State(fed, false)) ==> Lines(verdicts) == LinesOfBodies(Markers([], fed))
    {
      hide Lines, Markers, LinesOfBodies, Steady, IndexOf;
      found := [];
      assert fed + "" == fed;
      if |delta| != 0 {
        pending := pending + delta;
        ghost var whole := Run(verdicts, Held());
        RunEndsUndecided(verdicts, Held());
        var scanned := true;
        while scanned
          invariant whole == if scanned then Run(verdicts, Held()) else Scan(verdicts, Held())
          invariant Lines(verdicts) == Lines(old(verdicts)) + found
          invariant fed == old(fed)
          decreases scanned, |pending|, inMarker
        {
          if inMarker {
            var more: seq<string>;
            scanned, more := ReadMarkerBody();
            Associates(Lines(old(verdicts)), found, more);
            found := found + more;
          } else {
            scanned := SeekOpener();
          }
        }
        if Steady(State(fed + delta, false)) {
          CutAnywhere([], State(fed, false), delta);
        }
        fed := fed + delta;
      }
      if Steady(State(fed, false)) {
        RunKeepsTheMarkers([], fed);
        LinesAreThoseOfBodies(verdicts);
      }
    }

    /** Move the buffer past the next opener; false when none is in it yet. */
    method SeekOpener() returns (scanned: bool)
      requires !inMarker
      modifies this`pending, this`inMarker
      ensures scanned ==> |pending| < |old(pending)| && inMarker
      ensures Run(verdicts, old(Held())) == if scanned then Run(verdicts, Held()) else Scan(verdicts, Held())
    {
      var open := IndexOf(pending, Opener);
      if open == -1 {
        var keep := Opener.Length() - 1;
        if |pending| > keep { pending := pending[|pending| - keep..]; }
        return false;
      }
      pending := pending[open + Opener.Length()..];
      inMarker := true;
      return true;
    }

    /** Read the text after an opener: the line of a marker that closed, and false while its fate is open. */
    method ReadMarkerBody() returns (scanned: bool, more: seq<string>)
      requires inMarker
      modifies this`pending, this`inMarker, this`verdicts
      ensures scanned ==> !inMarker && |pending| <= |old(pending)|
      ensures Run(old(verdicts), old(Held())) == if scanned then Run(verdicts, Held()) else Scan(verdicts, Held())
      ensures Lines(verdicts) == Lines(old(verdicts)) + more
    {
      var close := IndexOf(pending, Closer);
      var newline := FirstBreak(pending);
      var closes := close != -1 && (newline == -1 || close < newline);
      more := [];
      if closes && close <= ACTIVITY_SCAN_LIMIT {
        var line := Trim(pending[..close]);
        LinesExtend(verdicts, Kept(pending[..close]));
        verdicts := verdicts + [Kept(pending[..close])];
        pending := pending[close + Closer.Length()..];
        inMarker := false;
        if |line| > 0 {
          more := [if |line| <= MAX_ACTIVITY_LENGTH then line else line[..MAX_ACTIVITY_LENGTH]];
        }
        return true, more;
      }
      if newline != -1 || |pending| > ACTIVITY_SCAN_LIMIT {
        LinesExtend(verdicts, GivenUp);
        verdicts := verdicts + [GivenUp];
        inMarker := false;
        return true, more;
      }
      return false, more;
    }

    /** Drop a half-read marker: the message or the turn it belonged to ended. */
    method Reset()
      modifies this
      ensures Valid() && Held() == Fresh.state && fed == "" && verdicts == []
    {
      pending, inMarker := "", false;
      fed, verdicts := "", [];
    }
  }
}
