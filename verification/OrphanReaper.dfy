/** Reaping the codex processes of sessions whose server is gone, against an operating system that answers as it
    likes. */
module OrphanReaper {
  import opened Options

  const START_TIME_SLOP_MS := 5000

  datatype Liveness = Alive | Dead | Unsure

  datatype LiveProcess = LiveProcess(startMs: int, pgid: Option<int>)

  datatype Identity = Match | Mismatch | Unknown

  datatype ProcessCheck = ProcessCheck(identity: Identity, leadsGroup: bool)

  datatype Signal = Term | Kill

  /** A group, the process alone, or on Windows the process tree. */
  datatype Target = Group | Leader | Tree

  /** One thing done to the operating system and what it answered, in order. */
  datatype Act = Probed(liveness: Liveness) | Identified(check: ProcessCheck) | Signalled(signal: Signal, to: Target)

  datatype Outcome = Reaped | AlreadyDead | Unconfirmed | Skipped

  function Abs(x: int): nat { if x < 0 then -x else x }

  /** Whether the live process is the one recorded; a start time no source reports proves nothing. */
  function Identify(windows: bool, pid: int, recorded: Option<int>, live: Option<LiveProcess>): ProcessCheck {
    if recorded.None? || live.None? then ProcessCheck(Unknown, false)
    else if Abs(live.value.startMs - recorded.value) >= START_TIME_SLOP_MS then ProcessCheck(Mismatch, false)
    else ProcessCheck(Match, !windows && live.value.pgid == Some(pid))
  }

  predicate Matches(a: Act) { a.Identified? && a.check.identity.Match? }

  /** What the acts say of a session by themselves: whether it was signalled, and what was seen last. */
  function Verdict(acts: seq<Act>): Outcome {
    var last := LastSeen(acts);
    var gone := last == Some(Probed(Dead)) || last == Some(Identified(ProcessCheck(Mismatch, false)));
    if exists i :: 0 <= i < |acts| && acts[i].Signalled? then
      if gone then Reaped else Unconfirmed
    else if last == Some(Probed(Dead)) then AlreadyDead
    else Skipped
  }

  function LastSeen(acts: seq<Act>): Option<Act> {
    if acts == [] then None
    else if acts[|acts| - 1].Signalled? then LastSeen(acts[..|acts| - 1])
    else Some(acts[|acts| - 1])
  }

  /** The first signal of a burst stands directly behind a match; a second is the fallback from the group to its
      leader. A group is signalled only where the match said the process leads one. */
  ghost predicate SignalFits(acts: seq<Act>, k: nat)
    requires k < |acts|
  {
    acts[k].Signalled? ==>
      && k > 0
      && (Matches(acts[k - 1])
          || (acts[k].to == Leader && k > 1 && acts[k - 1] == Signalled(acts[k].signal, Group) && Matches(acts[k - 2])))
      && (acts[k].to == Group ==> Matches(acts[k - 1]) && acts[k - 1].check.leadsGroup)
  }

  ghost predicate Disciplined(acts: seq<Act>) { forall k :: 0 <= k < |acts| ==> SignalFits(acts, k) }

  /** From the fourth act on, every match was acted on at once: first with `Term`, from then on with `Kill`. */
  ghost predicate ActedOnBefore(acts: seq<Act>) {
    forall k :: 3 <= k < |acts| - 1 && Matches(acts[k]) ==>
      acts[k + 1].Signalled? && acts[k + 1].signal == if k == 3 then Term else Kill
  }

  lemma OneMoreAct(acts: seq<Act>, a: Act)
    requires Disciplined(acts) && ActedOnBefore(acts) && SignalFits(acts + [a], |acts|)
    requires Pending(acts) ==> a.Signalled? && a.signal == if |acts| == 4 then Term else Kill
    ensures Disciplined(acts + [a]) && ActedOnBefore(acts + [a])
  {
    var more := acts + [a];
    forall k | 0 <= k < |more| ensures SignalFits(more, k) {
      if k < |acts| { assert SignalFits(acts, k); }
    }
  }

  /** The last act is a match that is to be acted on. */
  predicate Pending(acts: seq<Act>) { 4 <= |acts| && Matches(acts[|acts| - 1]) }

  ghost predicate MatchesActedOn(acts: seq<Act>) { ActedOnBefore(acts) && !Pending(acts) }

  /** The acts before any signal: alive, ours, alive, ours. */
  ghost predicate Confirmed(acts: seq<Act>) {
    4 <= |acts| && acts[0] == Probed(Alive) && Matches(acts[1]) && acts[2] == Probed(Alive) && Matches(acts[3])
  }

  predicate Affirms(a: Act) { a == Probed(Alive) || Matches(a) }

  /** The acts of a session left alone: a probe and an identification in turn, twice at most, up to the first that
      does not affirm an orphan of ours. */
  ghost predicate Declined(acts: seq<Act>) {
    && 0 < |acts| <= 4
    && forall k :: 0 <= k < |acts| ==>
         (if k % 2 == 0 then acts[k].Probed? else acts[k].Identified?) && (Affirms(acts[k]) <==> k < |acts| - 1)
  }

  /** The operating system under one session's reaping: what it answers at each act, and how many passes of the
      graceful window fit before its deadline. */
  class Machine {
    const windows: bool
    const pid: int
    const recorded: Option<int>
    const liveness: nat -> Liveness
    const reading: nat -> Option<LiveProcess>
    const groupThere: nat -> bool
    const passes: nat
    var acts: seq<Act>

    /** Every answer recorded is the one the machine gave at that act. */
    ghost predicate Recorded() reads this {
      forall k :: 0 <= k < |acts| ==>
        && (acts[k].Probed? ==> acts[k].liveness == liveness(k))
        && (acts[k].Identified? ==> acts[k].check == Identify(windows, pid, recorded, reading(k)))
    }

    constructor (windows: bool, pid: int, recorded: Option<int>, liveness: nat -> Liveness,
                 reading: nat -> Option<LiveProcess>, groupThere: nat -> bool, passes: nat)
      ensures acts == [] && Valid()
      ensures this.windows == windows && this.pid == pid && this.recorded == recorded && this.passes == passes
      ensures this.liveness == liveness && this.reading == reading && this.groupThere == groupThere
    {
      this.windows, this.pid, this.recorded := windows, pid, recorded;
      this.liveness, this.reading, this.groupThere, this.passes := liveness, reading, groupThere, passes;
      acts := [];
    }

    ghost predicate Valid() reads this { Recorded() && Disciplined(acts) && ActedOnBefore(acts) }

    /** Behind the match at `k - 1` the signal went to whom it should: on Windows the tree, else the group the process
        leads, else the process; and to the process as well where the group was gone. */
    ghost predicate Burst(done: seq<Act>, k: nat, end: nat, signal: Signal) {
      && 0 < k < end <= |done| && Matches(done[k - 1])
      && done[k] == Signalled(signal, if windows then Tree else if done[k - 1].check.leadsGroup then Group else Leader)
      && if done[k].to == Group && !groupThere(k) then end == k + 2 && done[k + 1] == Signalled(signal, Leader)
         else end == k + 1
    }

    /** Probes while the process lives, up to one more than the passes that fit the window. */
    ghost predicate Window(done: seq<Act>, from: nat, end: nat) {
      && from < end <= |done| && end - from <= passes + 1
      && (forall k :: from <= k < end ==> done[k].Probed? && (k < end - 1 ==> done[k] == Probed(Alive)))
      && (done[end - 1] == Probed(Alive) ==> end - from == passes + 1)
    }

    /** A confirmed orphan was asked to go and given the window; seen alive after that it was identified again, and
        killed on a match; its exit was probed last unless that identification settled it. */
    ghost predicate Ended(done: seq<Act>, term: nat, window: nat) {
      && Burst(done, 4, term, Term) && Window(done, term, window)
      && window + 1 < |done| && done[window].Probed?
      && if done[window] != Probed(Alive) then |done| == window + 2 && done[window + 1].Probed?
         else
           && done[window + 1].Identified?
           && if Matches(done[window + 1]) then
                |done| > 1 && done[|done| - 1].Probed? && Burst(done, window + 2, |done| - 1, Kill)
              else |done| == window + 2
    }

    /** Where the exit stays unconfirmed the process was killed, or not seen alive after the window, or not known to
        be the orphan any more. */
    lemma UnconfirmedIsKilledOrUnknown(done: seq<Act>, term: nat, window: nat)
      requires Ended(done, term, window) && Verdict(done) == Unconfirmed
      requires forall k :: 0 <= k < |done| && done[k].Identified? ==>
                 done[k].check == Identify(windows, pid, recorded, reading(k))
      ensures || (exists k :: window < k < |done| && done[k].Signalled? && done[k].signal == Kill)
              || done[window] != Probed(Alive)
              || done[window + 1].check.identity == Unknown
    {
      if done[window] == Probed(Alive) {
        if Matches(done[window + 1]) {
          assert done[window + 2].Signalled?;
        } else {
          VerdictOfSignalled(done, 4, |done| - 1);
        }
      }
    }

    method ProbePid() returns (answer: Liveness)
      requires Valid() && !Pending(acts)
      modifies this
      ensures Valid() && acts == old(acts) + [Probed(answer)] && !Pending(acts)
    {
      answer := liveness(|acts|);
      OneMoreAct(acts, Probed(answer));
      acts := acts + [Probed(answer)];
    }

    method IdentifyProcess() returns (check: ProcessCheck)
      requires Valid() && !Pending(acts)
      modifies this
      ensures Valid() && acts == old(acts) + [Identified(check)]
      ensures check.leadsGroup ==> check.identity.Match? && !windows
      ensures check.identity.Mismatch? ==> check == ProcessCheck(Mismatch, false)
    {
      check := Identify(windows, pid, recorded, reading(|acts|));
      OneMoreAct(acts, Identified(check));
      acts := acts + [Identified(check)];
    }

    method Signal(act: Act)
      requires Valid() && act.Signalled? && SignalFits(acts + [act], |acts|)
      requires Pending(acts) ==> act.signal == if |acts| == 4 then Term else Kill
      modifies this
      ensures Valid() && acts == old(acts) + [act] && !Pending(acts)
    {
      hide Disciplined, ActedOnBefore, SignalFits;
      OneMoreAct(acts, act);
      acts := acts + [act];
    }

    /** Signal the group where the process leads one, the leader where it does not or the group went away. */
    method Send(leadsGroup: bool, signal: Signal)
      requires Valid() && Pending(acts) && acts[|acts| - 1].check.leadsGroup == leadsGroup
      requires (leadsGroup ==> !windows) && signal == if |acts| == 4 then Term else Kill
      modifies this
      ensures Valid() && old(acts) < acts && Burst(acts, |old(acts)|, |acts|, signal)
    {
      hide Disciplined, ActedOnBefore, Recorded, Identify;
      if windows {
        Signal(Signalled(signal, Tree));
        return;
      }
      if leadsGroup {
        var there := groupThere(|acts|);
        Signal(Signalled(signal, Group));
        if there { return; }
      }
      Signal(Signalled(signal, Leader));
    }

    /** Gone already, unverifiable, or an orphan of ours. */
    method IdentifyOrphan() returns (settled: Option<Outcome>)
      requires acts == [] && Valid()
      modifies this
      ensures Valid() && 1 <= |acts| <= 2 && forall k :: 0 <= k < |acts| ==> !acts[k].Signalled?
      ensures settled.None? <==> acts[0] == Probed(Alive) && |acts| == 2 && Matches(acts[1])
      ensures settled.Some? ==> Declined(acts)
      ensures settled.Some? ==> settled.value == if acts[|acts| - 1] == Probed(Dead) then AlreadyDead else Skipped
    {
      var atStart := ProbePid();
      if atStart == Dead { return Some(AlreadyDead); }
      if atStart == Unsure { return Some(Skipped); }
      var atCheck := IdentifyProcess();
      settled := if atCheck.identity.Match? then None else Some(Skipped);
    }

    /** The probe and the check made again right before the signal. */
    method ReconfirmBeforeSignal() returns (check: Option<ProcessCheck>)
      requires |acts| == 2 && Valid()
      modifies this
      ensures Valid() && 3 <= |acts| <= 4 && acts[..2] == old(acts)
      ensures check.None? <==> |acts| == 3 && acts[2] == Probed(Dead)
      ensures check.Some? && check.value.identity.Match? <==>
                |acts| == 4 && acts[2] == Probed(Alive) && Matches(acts[3])
      ensures check.Some? && check.value.identity.Match? ==>
                acts[3] == Identified(check.value) && (check.value.leadsGroup ==> !windows)
      ensures forall k :: 2 <= k < |acts| ==> !acts[k].Signalled? && (k == 3 ==> acts[k].Identified?)
      ensures |acts| == 3 ==> acts[2] != Probed(Alive)
      ensures acts[2].Probed? && (|acts| == 4 ==> acts[2] == Probed(Alive))
    {
      var beforeGraceful := ProbePid();
      if beforeGraceful == Dead { return None; }
      if beforeGraceful == Unsure { return Some(ProcessCheck(Unknown, false)); }
      var found := IdentifyProcess();
      check := Some(found);
    }

    /** Poll until the pid is not alive, or for as many passes as the window holds. */
    method AwaitGracefulExit()
      requires Valid() && !Pending(acts)
      modifies this
      ensures Valid() && !Pending(acts) && old(acts) < acts && Window(acts, |old(acts)|, |acts|)
    {
      var slept := 0;
      var answer := ProbePid();
      while answer == Alive && slept < passes
        invariant Valid() && !Pending(acts) && old(acts) < acts && |acts| == |old(acts)| + slept + 1
        invariant slept <= passes && acts[|acts| - 1] == Probed(answer)
        invariant forall k :: |old(acts)| <= k < |acts| - 1 ==> acts[k] == Probed(Alive)
        decreases passes - slept
      {
        slept := slept + 1;
        answer := ProbePid();
      }
    }

    /** Check once more, and kill what is still ours; an outcome where the check settled it. */
    method ForceKillIfStillOurs() returns (settled: Option<Outcome>)
      requires Valid() && !Pending(acts) && 4 < |acts|
      modifies this
      ensures Valid() && old(acts) < acts && acts[|old(acts)|].Identified?
      ensures settled.Some? ==>
                && |acts| == |old(acts)| + 1
                && (acts[|old(acts)|] == Identified(ProcessCheck(Mismatch, false)) <==> settled.value == Reaped)
                && (settled.value != Reaped ==> settled.value == Unconfirmed)
      ensures settled.Some? <==> !Matches(acts[|old(acts)|])
      ensures settled.None? ==> Burst(acts, |old(acts)| + 1, |acts|, Kill)
      ensures !Pending(acts)
    {
      hide Disciplined, ActedOnBefore, Recorded, Identify;
      var atForce := IdentifyProcess();
      if atForce.identity == Mismatch { return Some(Reaped); }
      if atForce.identity == Unknown { return Some(Unconfirmed); }
      Send(atForce.leadsGroup, Kill);
      settled := None;
    }

    method ConfirmExit() returns (outcome: Outcome)
      requires Valid() && !Pending(acts)
      modifies this
      ensures Valid() && !Pending(acts) && |acts| == |old(acts)| + 1 && old(acts) < acts
      ensures acts[|old(acts)|].Probed?
      ensures outcome == if acts[|old(acts)|] == Probed(Dead) then Reaped else Unconfirmed
    {
      var atEnd := ProbePid();
      outcome := if atEnd == Dead then Reaped else Unconfirmed;
    }

    /** Reap the recorded process. Whatever the machine answers, every signal follows a match, every confirmed
        orphan is signalled, and the outcome is what the acts by themselves establish. */
    method ReapSession() returns (outcome: Outcome)
      requires acts == [] && Valid()
      modifies this
      ensures Valid() && Disciplined(acts) && MatchesActedOn(acts)
      ensures outcome == Verdict(acts)
      ensures Confirmed(acts) <==> exists k :: 0 <= k < |acts| && acts[k].Signalled?
      ensures !Confirmed(acts) ==> Declined(acts)
      ensures Confirmed(acts) ==> exists term, window :: Ended(acts, term, window)
    {
      var identified := IdentifyOrphan();
      if identified.Some? { return identified.value; }
      var atGraceful := ReconfirmBeforeSignal();
      if atGraceful.None? { return AlreadyDead; }
      if !atGraceful.value.identity.Match? { return Skipped; }
      ghost var term, window: nat;
      outcome, term, window := EndOrphan(atGraceful.value.leadsGroup);
    }

    /** Signal the confirmed orphan, give it the window, and kill what is still alive and still ours. */
    method EndOrphan(leadsGroup: bool) returns (outcome: Outcome, ghost term: nat, ghost window: nat)
      requires Valid() && Confirmed(acts) && |acts| == 4 && acts[3].check.leadsGroup == leadsGroup
      requires leadsGroup ==> !windows
      modifies this
      ensures Valid() && !Pending(acts) && Confirmed(acts)
      ensures outcome == Verdict(acts)
      ensures Ended(acts, term, window)
    {
      hide Verdict, LastSeen, Identify, Disciplined, ActedOnBefore, Recorded;
      Send(leadsGroup, Term);
      term := |acts|;
      AwaitGracefulExit();
      window := |acts|;
      var afterWindow := ProbePid();
      if afterWindow == Alive {
        var forced := ForceKillIfStillOurs();
        if forced.Some? {
          VerdictOfSignalled(acts, 4, |acts| - 1);
          outcome := forced.value;
          return;
        }
      }
      outcome := ConfirmExit();
      VerdictOfSignalled(acts, 4, |acts| - 1);
    }
  }

  /** The verdict on a signalled session is what was seen last. */
  lemma VerdictOfSignalled(acts: seq<Act>, signal: nat, last: nat)
    requires signal < |acts| && acts[signal].Signalled? && last == |acts| - 1 && !acts[last].Signalled?
    ensures Verdict(acts) == if acts[last] == Probed(Dead) || acts[last] == Identified(ProcessCheck(Mismatch, false))
                             then Reaped else Unconfirmed
  {}

  /** Behind every signal stands a start time the system reported within the slop of the recorded one, and behind
      a group signal a process that leads the group of its own pid. */
  lemma SignalsReachOnlyTheRecordedProcess(acts: seq<Act>, windows: bool, pid: int, recorded: Option<int>,
                                           reading: nat -> Option<LiveProcess>, k: nat) returns (j: nat)
    requires Disciplined(acts) && k < |acts| && acts[k].Signalled?
    requires forall i :: 0 <= i < |acts| && acts[i].Identified? ==>
               acts[i].check == Identify(windows, pid, recorded, reading(i))
    ensures j < k <= j + 2 && recorded.Some? && reading(j).Some?
    ensures Abs(reading(j).value.startMs - recorded.value) < START_TIME_SLOP_MS
    ensures acts[k].to == Group ==> !windows && reading(j).value.pgid == Some(pid)
  {
    assert SignalFits(acts, k);
    j := if Matches(acts[k - 1]) then k - 1 else k - 2;
  }

  /** A session is left alone for a cause: a probe that did not find it alive, a start time not recorded or not
      reported, or one five seconds or more from the recorded one. */
  lemma DeclinedForCause(acts: seq<Act>, windows: bool, pid: int, recorded: Option<int>,
                         reading: nat -> Option<LiveProcess>)
    requires Declined(acts)
    requires forall i :: 0 <= i < |acts| && acts[i].Identified? ==>
               acts[i].check == Identify(windows, pid, recorded, reading(i))
    ensures var last := |acts| - 1;
            || acts[last] == Probed(Dead) || acts[last] == Probed(Unsure)
            || recorded.None? || reading(last).None?
            || reading(last).value.startMs - recorded.value >= 5000
            || recorded.value - reading(last).value.startMs >= 5000
  {
    var last := |acts| - 1;
    assert !Affirms(acts[last]) && (acts[last].Probed? || acts[last].Identified?);
    if acts[last].Probed? { assert acts[last].liveness != Alive; }
  }

  /** An identification counts the session as ended only on a start time that was read and is another's; without one
      it proves nothing. */
  lemma OnlyAReadTimeMismatches(windows: bool, pid: int, recorded: Option<int>, live: Option<LiveProcess>)
    ensures var check := Identify(windows, pid, recorded, live);
            && (check.identity == Unknown <==> recorded.None? || live.None?)
            && (check.identity == Mismatch ==>
                  live.value.startMs >= recorded.value + 5000 || live.value.startMs <= recorded.value - 5000)
            && (check.leadsGroup <==> check.identity == Match && !windows && live.value.pgid == Some(pid))
  {}

  // The summary.

  datatype Summary = Summary(reaped: nat, alreadyDead: nat, unconfirmed: nat, skipped: nat)

  function Count(outcomes: seq<Outcome>, which: Outcome): nat {
    multiset(outcomes)[which]
  }

  /** However the sessions come to an end, each is counted once, under what its probes established. */
  method Tally(outcomes: seq<Outcome>) returns (summary: Summary)
    ensures summary == Summary(Count(outcomes, Reaped), Count(outcomes, AlreadyDead),
                               Count(outcomes, Unconfirmed), Count(outcomes, Skipped))
    ensures summary.reaped + summary.alreadyDead + summary.unconfirmed + summary.skipped == |outcomes|
  {
    summary := Summary(0, 0, 0, 0);
    for i := 0 to |outcomes|
      invariant summary == Summary(Count(outcomes[..i], Reaped), Count(outcomes[..i], AlreadyDead),
                                   Count(outcomes[..i], Unconfirmed), Count(outcomes[..i], Skipped))
      invariant summary.reaped + summary.alreadyDead + summary.unconfirmed + summary.skipped == i
    {
      assert outcomes[..i + 1] == outcomes[..i] + [outcomes[i]];
      match outcomes[i]
      case Reaped => summary := summary.(reaped := summary.reaped + 1);
      case AlreadyDead => summary := summary.(alreadyDead := summary.alreadyDead + 1);
      case Unconfirmed => summary := summary.(unconfirmed := summary.unconfirmed + 1);
      case Skipped => summary := summary.(skipped := summary.skipped + 1);
    }
    assert outcomes[..|outcomes|] == outcomes;
  }
}
