/** Long polls over whole runs: who still sleeps at the end, and when a wakeup is lost. */
module SessionWakeups {
  import opened Options
  import opened WarningRing
  import opened SessionState
  import opened SessionRequests
  import opened SessionRuns
  import opened SessionPolls

  /** None of these steps is the waiter's own timeout or abort. */
  ghost predicate LeavesAlone(es: seq<Event>, q: WaiterId) {
    forall i :: 0 <= i < |es| && IsWait(es[i]) ==> es[i].waiter != q
  }

  /** Every signal notified along a run, in order. */
  ghost function NotifiedAlong(w: World, es: seq<Event>): seq<Signal>
    decreases |es|
  {
    if es == [] then [] else Notified(w, es[0]) + NotifiedAlong(Step(w, es[0]), es[1..])
  }

  lemma LandsOnSplits(a: seq<Signal>, b: seq<Signal>, last: Option<Signal>)
    ensures LandsOn(a + b, last) <==> LandsOn(a, last) && LandsOn(b, last)
  {
    forall i | 0 <= i < |b| ensures b[i] == (a + b)[|a| + i] {}
    forall i | 0 <= i < |a| ensures a[i] == (a + b)[i] {}
  }

  /** One step seen by a sleeper it leaves alone. */
  lemma SleeperSees(w: World, e: Event, q: WaiterId)
    requires PollsFit(w) && Legal(w, e) && q in w.polls.waiters && (IsWait(e) ==> e.waiter != q)
    ensures var t := Step(w, e);
            && PollsFit(t) && q in t.polls.seen && q !in t.polls.refused
            && (LandsOn(Notified(w, e), w.polls.lastNotified) ==>
                  q in t.polls.waiters && t.polls.lastNotified == w.polls.lastNotified)
            && (!LandsOn(Notified(w, e), w.polls.lastNotified) ==> q !in t.polls.waiters)
  {
    hide Step, SignalOf, Distinct, TimesResolved;
    if IsWait(e) {
      WaitStepKeeps(w, e);
      WaitsNotifyNothing(w, e);
    } else {
      hide Notified, LandsOn;
      StepWakesOrNot(w, e);
    }
  }

  lemma WaitsNotifyNothing(w: World, e: Event)
    requires IsWait(e)
    ensures Notified(w, e) == []
  {}

  /** Over any run from any state, a poll still sleeps at the end exactly when every signal notified since is the
      one last notified before; otherwise it was resolved, once. */
  lemma {:induction false} SleepsExactlyWhileNotificationsLand(w: World, es: seq<Event>, q: WaiterId)
    requires PollsFit(w) && LegalRun(w, es) && q in w.polls.waiters && LeavesAlone(es, q)
    ensures var p := RunAll(w, es).polls;
            var landed := LandsOn(NotifiedAlong(w, es), w.polls.lastNotified);
            && (q in p.waiters <==> landed)
            && TimesResolved(p, q) == if landed then 0 else 1
    decreases |es|
  {
    hide PollsFit, Step, Legal, Notified, LandsOn;
    if es == [] {
      AsleepUnresolved(w, q);
      NothingLands(w.polls.lastNotified);
    } else {
      var t, rest := Step(w, es[0]), es[1..];
      SleeperSees(w, es[0], q);
      LandsOnSplits(Notified(w, es[0]), NotifiedAlong(t, rest), w.polls.lastNotified);
      if LandsOn(Notified(w, es[0]), w.polls.lastNotified) {
        SleepsExactlyWhileNotificationsLand(t, rest, q);
      } else {
        StaysAwake(t, rest, q);
      }
    }
  }

  lemma NothingLands(last: Option<Signal>)
    ensures LandsOn([], last)
  {}

  /** A poll that registers is resolved, and then once, exactly when some later notification is news. */
  lemma PollReturnsExactlyOnNews(w: World, q: WaiterId, signal: AbortSignal, es: seq<Event>)
    requires PollsFit(w) && w.registered
    requires q !in w.polls.seen && |w.polls.waiters| < MAX_WAITERS_PER_SESSION && !signal.Aborted?
    requires LegalRun(Step(w, WaitCalled(q, signal)), es) && LeavesAlone(es, q)
    ensures var asleep := Step(w, WaitCalled(q, signal));
            var times := TimesResolved(RunAll(asleep, es).polls, q);
            && times <= 1
            && (times == 1 <==> exists told :: told in NotifiedAlong(asleep, es) && Some(told) != w.polls.lastNotified)
  {
    hide PollsSound, RunAll, LegalRun, NotifiedAlong, SignalOf;
    var asleep := Step(w, WaitCalled(q, signal));
    WaitingKeeps(w, q, signal);
    SleepsExactlyWhileNotificationsLand(asleep, es, q);
  }

  /** The session moved since the poll registered, and the poll sleeps. */
  ghost predicate WakeupLost(w: World, es: seq<Event>, q: WaiterId) {
    q in RunAll(w, es).polls.waiters && !StoodStill(w, es)
  }

  /** No step of the run moved the signal or dropped the session. */
  ghost predicate StoodStill(w: World, es: seq<Event>)
    decreases |es|
  {
    es == [] || (SignalAt(Step(w, es[0])) == SignalAt(w) && StoodStill(Step(w, es[0]), es[1..]))
  }

  ghost predicate AllHeard(w: World, es: seq<Event>)
    decreases |es|
  {
    es == [] || (!GoesUnheard(w, es[0]) && AllHeard(Step(w, es[0]), es[1..]))
  }

  lemma HeardStep(w: World, e: Event)
    requires Sound(w.session) && PollsFit(w) && Fresh(w) && w.registered && Legal(w, e) && !GoesUnheard(w, e)
    ensures var t := Step(w, e);
            && Sound(t.session) && PollsFit(t) && Fresh(t)
            && (SignalAt(t) == SignalAt(w) <==> t.registered && SignalOf(t.session) == SignalOf(w.session))
            && (forall q :: q in w.polls.waiters && (IsWait(e) ==> e.waiter != q) ==>
                  q in t.polls.seen && q !in t.polls.refused
                  && (q in t.polls.waiters <==> SignalAt(t) == SignalAt(w)))
  {
    hide Step, Sound, Unresolved, GoesUnheard, Distinct, TimesResolved;
    StepKeeps(w, e);
    StepKeepsPolls(w, e);
    if IsWait(e) { WaitStepKeeps(w, e); }
    else {
      StaleExactlyWhenUnheard(w, e);
      StepWakesOrNot(w, e);
    }
  }

  /** No lost wakeup: from a notified session, over any run whose steps are heard, a poll still sleeps at the end
      exactly when nothing it waits for has happened since; otherwise it was resolved, once. */
  lemma {:induction false} SleepsExactlyWhileNothingMoves(w: World, es: seq<Event>, q: WaiterId)
    requires Sound(w.session) && PollsFit(w) && Fresh(w) && w.registered && q in w.polls.waiters
    requires LegalRun(w, es) && AllHeard(w, es)
    requires LeavesAlone(es, q)
    ensures var p := RunAll(w, es).polls;
            && (q in p.waiters <==> StoodStill(w, es))
            && TimesResolved(p, q) == if StoodStill(w, es) then 0 else 1
    decreases |es|
  {
    hide Sound, PollsFit, Step, Legal, GoesUnheard, Fresh;
    if es == [] {
      AsleepUnresolved(w, q);
    } else {
      HeardStep(w, es[0]);
      if SignalAt(Step(w, es[0])) == SignalAt(w) {
        SleepsExactlyWhileNothingMoves(Step(w, es[0]), es[1..], q);
      } else {
        StaysAwake(Step(w, es[0]), es[1..], q);
      }
    }
  }

  /** Standing still is every state along the run showing the signal of the first. */
  lemma {:induction false} StoodStillAllAlong(w: World, es: seq<Event>)
    ensures StoodStill(w, es) <==>
              forall k :: 0 <= k <= |es| ==> SignalAt(RunAll(w, es[..k])) == SignalAt(w)
    decreases |es|
  {
    hide Step, SignalAt;
    if es == [] {
      assert forall k :: 0 <= k <= |es| ==> es[..k] == [];
    } else {
      var t, rest := Step(w, es[0]), es[1..];
      StoodStillAllAlong(t, rest);
      forall k | 0 <= k <= |rest| ensures RunAll(w, es[..k + 1]) == RunAll(t, rest[..k]) {
        assert es[..k + 1][1..] == rest[..k] && es[..k + 1][0] == es[0];
      }
      assert RunAll(t, rest[..0]) == t;
      assert RunAll(w, es[..0]) == w;
      if StoodStill(w, es) {
        forall k | 0 <= k <= |es| ensures SignalAt(RunAll(w, es[..k])) == SignalAt(w) {
          if k > 0 { assert RunAll(w, es[..(k - 1) + 1]) == RunAll(t, rest[..k - 1]); }
        }
      }
    }
  }

  /** A poll that reads a notified session and registers in one go is resolved, and then once, exactly when some
      later state differs from the one it read. */
  lemma PollReturnsExactlyOnMove(w: World, q: WaiterId, signal: AbortSignal, es: seq<Event>)
    requires Sound(w.session) && PollsFit(w) && Fresh(w) && w.registered
    requires q !in w.polls.seen && |w.polls.waiters| < MAX_WAITERS_PER_SESSION && !signal.Aborted?
    requires var asleep := Step(w, WaitCalled(q, signal)); LegalRun(asleep, es) && AllHeard(asleep, es)
    requires LeavesAlone(es, q)
    ensures var asleep := Step(w, WaitCalled(q, signal));
            && TimesResolved(RunAll(asleep, es).polls, q) <= 1
            && (TimesResolved(RunAll(asleep, es).polls, q) == 1 <==>
                  exists k :: 0 <= k <= |es| && SignalAt(RunAll(asleep, es[..k])) != SignalOf(w.session))
  {
    hide Sound, PollsSound, SignalOf, RunAll, GoesUnheard, LegalRun, AllHeard, StoodStill;
    var asleep := Step(w, WaitCalled(q, signal));
    WaitingKeeps(w, q, signal);
    SleepsExactlyWhileNothingMoves(asleep, es, q);
    StoodStillAllAlong(asleep, es);
  }

  /** A wakeup is lost exactly when the session moved and every notification landed where the last one before
      stood; a session notified when the poll registered loses none unless a step goes unheard. */
  lemma WakeupLostExactly(w: World, es: seq<Event>, q: WaiterId)
    requires PollsFit(w) && LegalRun(w, es) && q in w.polls.waiters && LeavesAlone(es, q)
    ensures WakeupLost(w, es, q) <==>
              LandsOn(NotifiedAlong(w, es), w.polls.lastNotified) && !StoodStill(w, es)
    ensures WakeupLost(w, es, q) && Sound(w.session) && Fresh(w) ==> !AllHeard(w, es)
  {
    hide PollsFit, Sound, Fresh, LegalRun, RunAll, NotifiedAlong, LandsOn, StoodStill, AllHeard;
    SleepsExactlyWhileNotificationsLand(w, es, q);
    if Sound(w.session) && Fresh(w) && AllHeard(w, es) {
      SleeperRegistered(w, q);
      SleepsExactlyWhileNothingMoves(w, es, q);
    }
  }

  lemma SleeperRegistered(w: World, q: WaiterId)
    requires PollsFit(w) && q in w.polls.waiters
    ensures w.registered
  {}

  /** A heard step too is slept through when the poll registered before the reply it came after was notified:
      the status falls back to the signal last notified. */
  lemma StaleRegistrationIsSleptThrough(w: World, q: WaiterId, at: int)
    requires PollsFit(w) && w.registered && Fresh(w)
    requires w.session.status == Idle && w.session.lastResult.None? && w.session.activeTurnId.None?
    requires w.session.open == []
    requires q !in w.polls.seen && |w.polls.waiters| < MAX_WAITERS_PER_SESSION
    ensures var asleep := Step(Step(w, ReplyOpened(false)), WaitCalled(q, NoSignal));
            var came := NotificationCame(StatusChanged(ThreadIdle), at);
            var t := Step(asleep, came);
            && !GoesUnheard(asleep, came)
            && SignalOf(asleep.session).shown == Running && SignalOf(t.session).shown == Idle
            && WakeupLost(asleep, [came], q)
            && q in t.polls.waiters && TimesResolved(t.polls, q) == 0
  {
    var asleep := Step(Step(w, ReplyOpened(false)), WaitCalled(q, NoSignal));
    var came := NotificationCame(StatusChanged(ThreadIdle), at);
    assert Unresolved(asleep.session) == {};
    assert Step(asleep, came).session == w.session;
    assert RunAll(asleep, [came]) == Step(asleep, came);
    assert StoodStill(Step(asleep, came), []);
  }

  /** Where a step goes unheard a wakeup is lost too: a poll that registered during a reply sleeps through the
      reply's failure, while the session it waits on stands on `error`. */
  lemma ReplyFailureIsSleptThrough(w: World, q: WaiterId)
    requires PollsFit(w) && w.registered && w.session.status == Idle
    requires q !in w.polls.seen && |w.polls.waiters| < MAX_WAITERS_PER_SESSION
    ensures var held := Step(Step(w, ReplyOpened(false)), WaitCalled(q, NoSignal));
            var failed := Step(held, ReplyFailed);
            && q in failed.polls.waiters && TimesResolved(failed.polls, q) == 0
            && SignalOf(held.session).shown == Running && SignalOf(failed.session).shown == Errored
  {
    hide Unresolved;
  }

  /** A session as it enters the store, notified of the signal it starts on, meets what the run theorems ask. */
  lemma EntersFit(session: Session)
    requires Opened(session)
    ensures var w := World(session, true, Polls(Some(SignalOf(session)), [], {}, {}, {}, {}, map[]));
            Sound(w.session) && PollsFit(w) && Fresh(w) && WaitIsAnswerable(w)
  {
    forall rpc ensures OneFate(session, rpc) {}
  }
}
