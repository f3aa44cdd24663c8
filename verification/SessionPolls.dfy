/** The long poll: a waiter sleeps while the session stands where it was, and no change is slept through. */
module SessionPolls {
  import opened Options
  import opened WarningRing
  import opened SessionState
  import opened SessionRequests
  import opened SessionRuns

  /** A sleeper has its timer and has not been resolved; anyone else seen was resolved once or refused. */
  ghost predicate PollsSound(p: Polls) {
    && Distinct(p.waiters)
    && |p.waiters| <= MAX_WAITERS_PER_SESSION
    && (forall q :: q in p.timers <==> q in p.waiters)
    && (forall q :: q in p.listeners ==> q in p.waiters)
    && (forall q :: q in p.waiters ==> q in p.seen && q !in p.refused)
    && (forall q :: q in p.seen ==>
          TimesResolved(p, q) == if q in p.waiters || q in p.refused then 0 else 1)
    && (forall q :: q !in p.seen ==> TimesResolved(p, q) == 0 && q !in p.refused)
  }

  lemma DoneKeeps(p: Polls, q: WaiterId)
    requires PollsSound(p) && q in p.waiters
    ensures PollsSound(Done(p, q))
    ensures forall x :: x in Done(p, q).waiters <==> x in p.waiters && x != q
    ensures forall x :: TimesResolved(Done(p, q), x) == TimesResolved(p, x) + if x == q then 1 else 0
  {}

  /** Waking resolves each sleeper once and leaves none. */
  lemma {:induction false} DoneAllWakes(p: Polls, snapshot: seq<WaiterId>)
    requires PollsSound(p) && snapshot == p.waiters
    ensures var woken := DoneAll(p, snapshot);
            && PollsSound(woken) && woken.waiters == [] && woken.timers == {} && woken.listeners == {}
            && woken.seen == p.seen && woken.refused == p.refused && woken.lastNotified == p.lastNotified
            && forall q :: TimesResolved(woken, q) == TimesResolved(p, q) + if q in p.waiters then 1 else 0
    decreases |snapshot|
  {
    if snapshot == [] {
      assert p.timers == {} by { forall q ensures q !in p.timers { assert q !in p.waiters; } }
      assert p.listeners == {} by { forall q ensures q !in p.listeners { assert q !in p.waiters; } }
    } else {
      DoneKeeps(p, snapshot[0]);
      DoneAllWakes(Done(p, snapshot[0]), snapshot[1..]);
    }
  }

  /** Everyone asleep in `p` has been resolved once more in `q`, with timer and listener gone, and no one else. */
  ghost predicate WokeAll(p: Polls, q: Polls) {
    && q.waiters == [] && q.timers == {} && q.listeners == {}
    && q.seen == p.seen && q.refused == p.refused
    && forall x :: TimesResolved(q, x) == TimesResolved(p, x) + if x in p.waiters then 1 else 0
  }

  /** Notifying sleeps on an unchanged signal and wakes everyone on a changed one. */
  lemma NotifyWakesOnChange(w: World)
    requires PollsSound(w.polls)
    ensures var t := Notify(w);
            && PollsSound(t.polls) && t.polls.lastNotified == Some(SignalAt(w))
            && t.session == w.session && t.registered == w.registered
            && (if w.polls.lastNotified == Some(SignalAt(w)) then t == w else WokeAll(w.polls, t.polls))
  {
    hide SignalOf, Distinct, Done, TimesResolved;
    if w.polls.lastNotified != Some(SignalAt(w)) {
      NewSignalKeeps(w.polls, SignalAt(w));
      DoneAllWakes(w.polls.(lastNotified := Some(SignalAt(w))), w.polls.waiters);
    }
  }

  lemma NewSignalKeeps(p: Polls, signal: Signal)
    requires PollsSound(p)
    ensures PollsSound(p.(lastNotified := Some(signal)))
    ensures forall q :: TimesResolved(p.(lastNotified := Some(signal)), q) == TimesResolved(p, q)
  {}

  /** The waiters of a session are sound, and none sleeps on one that left the store. */
  ghost predicate PollsFit(w: World) {
    && PollsSound(w.polls)
    && (!w.registered ==> w.polls.waiters == [])
    && (w.registered ==> w.polls.lastNotified != Some(Gone))
  }

  /** What was last notified is where the session stands. */
  ghost predicate Fresh(w: World) { w.registered ==> w.polls.lastNotified == Some(SignalOf(w.session)) }

  predicate IsWait(e: Event) { e.WaitCalled? || e.WaitTimedOut? || e.WaitAborted? }

  /** A step from `w` to `t` woke everyone if it moved the signal and no one otherwise. */
  ghost predicate WakesExactly(w: World, t: World) {
    if SignalAt(t) == SignalAt(w) then t.polls == w.polls else WokeAll(w.polls, t.polls)
  }

  lemma NotifyAfter(w: World, s: Session)
    requires PollsSound(w.polls) && Fresh(w) && w.registered
    ensures var t := Notify(w.(session := s));
            t.session == s && t.registered && PollsSound(t.polls) && Fresh(t) && WakesExactly(w, t)
  {
    hide SignalOf, PollsSound;
    NotifyWakesOnChange(w.(session := s));
  }

  /** Notifying twice over one session is notifying once. */
  lemma NotifyAgain(w: World)
    requires Fresh(w) && w.registered
    ensures Notify(w) == w
  {}

  lemma WarningWakes(w: World, method_: string, message: Option<string>, at: int)
    requires PollsSound(w.polls) && Fresh(w) && w.registered
    ensures var t := RecordWarning(w, method_, message, at);
            && t.registered && PollsSound(t.polls) && Fresh(t) && WakesExactly(w, t)
            && t == w.(session := w.session.(ring := t.session.ring), polls := t.polls)
            && (t.session.ring.warningSeq == w.session.ring.warningSeq ==> t.polls == w.polls)
            && (t.session.ring.warningSeq != w.session.ring.warningSeq ==>
                  t.session.ring.warningSeq > w.session.ring.warningSeq && WokeAll(w.polls, t.polls))
  {
    hide PollsSound, Unresolved, WokeAll;
    if message.Some? {
      SameUnresolved(w.session, RecordWarning(w, method_, message, at).session);
      NotifyAfter(w, w.session.(ring := Record(w.session.ring, Warning(method_, message.value, at))));
    }
  }

  lemma HookWakes(w: World, note: Note, at: int)
    requires PollsSound(w.polls) && Fresh(w) && w.registered && note.HookRan?
    ensures var t := OnNote(w, note, at);
            t.registered && PollsSound(t.polls) && Fresh(t) && WakesExactly(w, t)
  {
    hide PollsSound, Unresolved, RecordWarning, MarkerStands;
    var warned := RecordWarning(w, note.hook, note.held, at);
    WarningWakes(w, note.hook, note.held, at);
    if OnNote(w, note, at) != warned {
      NotifyAfter(warned, RecordActivity(warned, note.display.value, at, true).session);
    }
  }

  lemma NoteWakes(w: World, note: Note, at: int)
    requires PollsSound(w.polls) && Fresh(w) && w.registered
    ensures var t := Notify(OnNote(w, note, at));
            t.registered && PollsSound(t.polls) && Fresh(t) && WakesExactly(w, t)
  {
    hide PollsSound, SignalOf, WakesExactly, ThreadStatusAsks, MarkerStands, RecordWarning;
    match note
    case Delta(lines) =>
      if lines == [] { NotifyAgain(w); QuietStep(w, w); }
      else {
        NotifyAfter(w, RecordActivity(w, lines[|lines| - 1], at, false).session);
        NotifyAgain(OnNote(w, note, at));
      }
    case Warned(method_, message) =>
      WarningWakes(w, method_, message, at);
      NotifyAgain(OnNote(w, note, at));
    case HookRan(_, _, _) =>
      HookWakes(w, note, at);
      NotifyAgain(OnNote(w, note, at));
    case _ => NotifyAfter(w, OnNote(w, note, at).session);
  }

  /** The status a poll is shown: a turn the thread calls idle runs on until its record is written. */
  function Shown(s: Session): Status {
    if s.status == Idle && s.activeTurnId.Some? then Running else s.status
  }

  /** The steps that move the signal without notifying. */
  ghost predicate GoesUnheard(w: World, e: Event) {
    var s := w.session;
    match e
    case ApprovalGiven(req, _, valid, sends) =>
      TakesApproval(w, req, valid) && !sends && Shown(s) != WaitingApproval
    case InputGiven(req, _, sends) => TakesInput(w, req) && !sends && Shown(s) != WaitingApproval
    case ProcessLost(_, _) => !s.status.Running? && !s.status.WaitingApproval? && s.open != []
    case ReplyOpened(checkedEarlier) =>
      OpensTurn(w, checkedEarlier) && (Shown(s) != Running || s.lastResult.Some?)
    case ReplyStarted(turn) => turn.Some? && s.status.Idle? && s.activeTurnId.None?
    case ReplyFailed => Shown(s) != Errored
    case _ => false
  }

  /** A step that does not notify leaves the polls as they were; whether that is stale is its signal's doing. */
  lemma QuietStep(w: World, t: World)
    requires w.registered && t.registered && PollsSound(w.polls) && Fresh(w) && t.polls == w.polls
    ensures Fresh(t) <==> SignalOf(t.session) == SignalOf(w.session)
    ensures Fresh(t) ==> WakesExactly(w, t)
  {}

  lemma LossMovesSignal(w: World, failing: set<Rpc>)
    requires Sound(w.session)
    ensures SignalOf(CloseAll(w.session, failing)) == SignalOf(w.session) <==> w.session.open == []
  {
    hide Accounted, CloseAll;
    var s := w.session;
    ClosingAllKeeps(s, failing);
    assert Unresolved(CloseAll(s, failing)) == {};
    if s.open == [] { assert Unresolved(s) == {}; } else {
      assert Tended(s);
      var r := s.open[0];
      assert r in s.open;
      assert r in s.objects;
      assert s.open[0] in Unresolved(s);
    }
  }

  lemma FailedAnswerMovesSignal(s: Session, req: RequestId, answer: Answer, decision: Option<string>)
    requires Sound(s) && Answerable(s, req)
    ensures SignalOf(SendAnswer(s, req, answer, decision, false)) == SignalOf(s)
       <==> Shown(s) == WaitingApproval
  {
    hide Accounted;
    assert Unresolved(SendAnswer(s, req, answer, decision, false)) == Unresolved(s);
  }

  lemma EvictionWakes(w: World, failing: set<Rpc>)
    requires PollsSound(w.polls) && Fresh(w) && w.registered
    ensures var t := OnEvict(w, failing);
            !t.registered && PollsSound(t.polls) && WokeAll(w.polls, t.polls)
  {
    hide Unresolved, CloseAll, PollsSound, Notify;
    var gone := w.(session := CloseAll(w.session, failing), registered := false);
    NotifyWakesOnChange(gone);
    ForgettingKeeps(Notify(gone).polls);
  }

  lemma ForgettingKeeps(p: Polls)
    requires PollsSound(p)
    ensures PollsSound(p.(lastNotified := None))
    ensures forall q :: TimesResolved(p.(lastNotified := None), q) == TimesResolved(p, q)
  {}

  /** From a notified session: a step leaves the last notified signal stale exactly when it goes unheard; one
      that is heard wakes every waiter if it moved the signal or dropped the session, and no one otherwise. */
  lemma StaleExactlyWhenUnheard(w: World, e: Event)
    requires Sound(w.session) && PollsFit(w) && Fresh(w) && w.registered && !IsWait(e)
    ensures Fresh(Step(w, e)) <==> !GoesUnheard(w, e)
    ensures !GoesUnheard(w, e) ==> WakesExactly(w, Step(w, e))
  {
    hide PollsSound, WakesExactly, Fresh, Sound, Notify, CloseAll, OnNote, SignalOf;
    var s, t := w.session, Step(w, e);
    match e
    case NotificationCame(note, at) => NoteWakes(w, note, at);
    case RequestCame(req, rpc, m, sends) => RequestWakes(w, req, rpc, m, sends);
    case ApprovalGiven(req, decision, valid, sends) =>
      if TakesApproval(w, req, valid) { AnswerWakes(w, req, Decision(decision), Some(decision), sends); }
      else { QuietStep(w, w); }
    case InputGiven(req, answers, sends) =>
      if TakesInput(w, req) { AnswerWakes(w, req, Answers(answers), None, sends); } else { QuietStep(w, w); }
    case TimerFired(req, sends) => TimerWakes(w, req, sends);
    case CancelCalled(at, failing) => CancelWakes(w, at, failing);
    case ProcessLost(at, failing) => LossWakes(w, at, failing);
    case SessionEvicted(failing) => EvictionWakes(w, failing); EvictionMoves(w, failing);
    case ResumeFinished => NotifyAfter(w, s.(status := Idle));
    case _ => ReplyIsQuiet(w, e);
  }

  lemma CancelWakes(w: World, at: int, failing: set<Rpc>)
    requires PollsSound(w.polls) && Fresh(w) && w.registered
    ensures var t := OnCancel(w, at, failing);
            t.registered && PollsSound(t.polls) && Fresh(t) && WakesExactly(w, t)
  {
    hide PollsSound, WakesExactly, Notify, SignalOf, CloseAll;
    var s := CloseAll(w.session.(status := Cancelled), failing);
    if w.session.status.Cancelled? { QuietStep(w, w); }
    else {
      NotifyAfter(w, s.(activeTurnId := None, lastResult := if s.lastResult.Some? then s.lastResult
                        else Some(TurnResult(s.activeTurnId, Stopped, at))));
    }
  }

  lemma LossWakes(w: World, at: int, failing: set<Rpc>)
    requires Sound(w.session) && PollsSound(w.polls) && Fresh(w) && w.registered
    ensures var t := OnLoss(w, at, failing);
            && t.registered && PollsSound(t.polls)
            && (Fresh(t) <==> !GoesUnheard(w, ProcessLost(at, failing))) && (Fresh(t) ==> WakesExactly(w, t))
  {
    hide PollsSound, WakesExactly, Fresh, Sound, Notify, SignalOf, CloseAll;
    var s := CloseAll(w.session, failing);
    ClosingAllKeepsStatus(w.session, failing);
    if s.status.Running? || s.status.WaitingApproval? {
      NotifyAfter(w, s.(status := Errored, activeTurnId := None,
                        lastResult := Some(TurnResult(s.activeTurnId, Failed, at))));
    } else {
      QuietStep(w, w.(session := s));
      LossMovesSignal(w, failing);
    }
  }

  lemma EvictionMoves(w: World, failing: set<Rpc>)
    requires PollsSound(w.polls) && Fresh(w) && w.registered
    ensures var t := OnEvict(w, failing); Fresh(t) && WakesExactly(w, t) && t.polls.waiters == []
  {
    hide CloseAll, PollsSound, Notify, WokeAll;
    EvictionWakes(w, failing);
    WokeLeavesNone(w.polls, OnEvict(w, failing).polls);
  }

  lemma WokeLeavesNone(p: Polls, q: Polls)
    requires WokeAll(p, q)
    ensures q.waiters == []
  {}

  lemma ReplyIsQuiet(w: World, e: Event)
    requires PollsSound(w.polls) && Fresh(w) && w.registered
    requires e.ReplyOpened? || e.ReplyStarted? || e.ReplyFailed?
    ensures var t := Step(w, e);
            && t.registered && t.polls == w.polls
            && (Fresh(t) <==> !GoesUnheard(w, e)) && (Fresh(t) ==> WakesExactly(w, t))
  {
    hide PollsSound, WakesExactly, Unresolved;
    QuietStep(w, Step(w, e));
    assert Unresolved(Step(w, e).session) == Unresolved(w.session) by { SameUnresolved(w.session, Step(w, e).session); }
  }

  lemma SameUnresolved(s: Session, t: Session)
    requires s.open == t.open && s.objects == t.objects
    ensures Unresolved(s) == Unresolved(t)
  {}

  lemma RequestWakes(w: World, req: RequestId, rpc: Rpc, m: Method, sends: bool)
    requires PollsSound(w.polls) && Fresh(w) && w.registered
    ensures var t := OnRequest(w, req, rpc, m, sends);
            t.registered && PollsSound(t.polls) && Fresh(t) && WakesExactly(w, t)
  {
    hide PollsSound, WakesExactly, Fresh, Notify, Unresolved;
    var t := OnRequest(w, req, rpc, m, sends);
    if w.session.status.Cancelled? || w.session.status.Errored? {
      QuietStep(w, t);
      SameUnresolved(w.session, t.session);
    } else {
      var held := if KindOf(m).Some?
                  then HoldOpen(w.session.(asked := w.session.asked + {rpc}), req, rpc, KindOf(m).value)
                  else Deliver(w.session.(asked := w.session.asked + {rpc}), rpc, DirectAnswer(m), sends);
      NotifyAfter(w, held);
    }
  }

  lemma AnswerWakes(w: World, req: RequestId, answer: Answer, decision: Option<string>, sends: bool)
    requires Sound(w.session) && PollsSound(w.polls) && Fresh(w) && w.registered && Answerable(w.session, req)
    ensures var t := OnAnswer(w, req, answer, decision, sends);
            && t.registered && PollsSound(t.polls)
            && (Fresh(t) <==> sends || Shown(w.session) == WaitingApproval)
            && (Fresh(t) ==> WakesExactly(w, t))
  {
    hide PollsSound, WakesExactly, Fresh, Sound, Notify, SignalOf, Settled, SendAnswer, Answerable;
    var answered := SendAnswer(w.session, req, answer, decision, sends);
    if sends {
      NotifyAfter(w, Settled(answered, req));
    } else {
      QuietStep(w, w.(session := answered));
      FailedAnswerMovesSignal(w.session, req, answer, decision);
    }
  }

  lemma TimerWakes(w: World, req: RequestId, sends: bool)
    requires Sound(w.session) && PollsSound(w.polls) && Fresh(w) && w.registered
    ensures var t := OnTimer(w, req, sends);
            t.registered && PollsSound(t.polls) && Fresh(t) && WakesExactly(w, t)
  {
    hide PollsSound, WakesExactly, Fresh, Notify, SignalOf, Accounted, Settled;
    if req in w.session.armed {
      var s, obj := w.session.(armed := w.session.armed - {req}), w.session.objects[req];
      var timedOut := s.(objects := s.objects[req := obj.(resolved := true,
                           decision := if obj.kind.UserInput? then obj.decision else Some("decline"))]);
      NotifyAfter(w, Settled(Deliver(timedOut, obj.rpc, TimeoutAnswer(obj.kind), sends), req));
    } else {
      QuietStep(w, w);
    }
  }

  // What a step notifies, stale or not.

  function WarningSignals(w: World, method_: string, message: Option<string>, at: int): seq<Signal> {
    if message.None? || Repeats(w.session.ring.kept, Warning(method_, message.value, at)) then []
    else [SignalAt(RecordWarning(w, method_, message, at))]
  }

  /** What a notification's own handler notifies, before the notification as a whole does. */
  function NoteSignals(w: World, note: Note, at: int): seq<Signal> {
    match note
    case Delta(lines) => if lines == [] then [] else [SignalAt(OnNote(w, note, at))]
    case Warned(method_, message) => WarningSignals(w, method_, message, at)
    case HookRan(hook, held, display) =>
      WarningSignals(w, hook, held, at)
      + if HookShows(w.session, display) then [SignalAt(OnNote(w, note, at))] else []
    case _ => []
  }

  /** Whether a step ends in `notifyWaiters`. */
  predicate Notifies(w: World, e: Event) {
    var s := w.session;
    match e
    case NotificationCame(_, _) => true
    case RequestCame(_, _, _, _) => !s.status.Cancelled? && !s.status.Errored?
    case ApprovalGiven(req, _, valid, sends) => TakesApproval(w, req, valid) && sends
    case InputGiven(req, _, sends) => TakesInput(w, req) && sends
    case TimerFired(req, _) => req in s.armed && Answerable(s.(open := [req]), req)
    case CancelCalled(_, _) => w.registered && !s.status.Cancelled?
    case ProcessLost(_, _) => s.status.Running? || s.status.WaitingApproval?
    case SessionEvicted(_) => w.registered
    case ResumeFinished => true
    case _ => false
  }

  /** The signals a step notifies, in order. */
  function Notified(w: World, e: Event): seq<Signal> {
    (if e.NotificationCame? then NoteSignals(w, e.note, e.at) else [])
    + if Notifies(w, e) then [SignalAt(Step(w, e))] else []
  }

  /** Every one of the signals is the one last notified. */
  predicate LandsOn(signals: seq<Signal>, last: Option<Signal>) {
    forall i :: 0 <= i < |signals| ==> Some(signals[i]) == last
  }

  /** `t` came from `w` by notifying these signals: everyone asleep was woken, once, if one of them was news, and no
      one otherwise. */
  ghost predicate Woke(w: World, t: World, signals: seq<Signal>) {
    && PollsFit(t)
    && (if LandsOn(signals, w.polls.lastNotified) then t.polls == w.polls else WokeAll(w.polls, t.polls))
    && t.polls.lastNotified == if signals == [] then w.polls.lastNotified else Some(signals[|signals| - 1])
  }

  lemma NotifyWoke(w: World, t: World)
    requires PollsFit(w) && t.polls == w.polls && (t.registered ==> w.registered)
    ensures Woke(w, Notify(t), [SignalAt(t)])
  {
    hide Unresolved, PollsSound, Notify, WokeAll;
    NotifyWakesOnChange(t);
    assert [SignalAt(t)][0] == SignalAt(t);
    if w.polls.lastNotified != Some(SignalAt(t)) { WokeLeavesNone(w.polls, Notify(t).polls); }
  }

  lemma QuietWoke(w: World, s: Session)
    requires PollsFit(w)
    ensures Woke(w, w.(session := s), [])
  {}

  lemma WokeChains(w: World, t: World, u: World, a: seq<Signal>, b: seq<Signal>)
    requires Woke(w, t, a) && Woke(t, u, b)
    ensures Woke(w, u, a + b)
  {
    hide PollsFit;
    if LandsOn(a, w.polls.lastNotified) {
      assert LandsOn(a + b, w.polls.lastNotified) <==> LandsOn(b, w.polls.lastNotified) by {
        forall i | 0 <= i < |b| ensures b[i] == (a + b)[|a| + i] {}
      }
    } else {
      var i :| 0 <= i < |a| && Some(a[i]) != w.polls.lastNotified;
      assert (a + b)[i] == a[i];
    }
  }

  lemma WarningWoke(w: World, method_: string, message: Option<string>, at: int)
    requires PollsFit(w)
    ensures var t := RecordWarning(w, method_, message, at);
            Woke(w, t, WarningSignals(w, method_, message, at)) && t.registered == w.registered
  {
    hide PollsFit, Notify, Record, Repeats, SignalOf, Woke;
    if message.None? {
      QuietWoke(w, w.session);
    } else {
      var recorded := w.(session := w.session.(ring := Record(w.session.ring, Warning(method_, message.value, at))));
      QuietWoke(w, recorded.session);
      NotifyWoke(w, recorded);
      NotifyLeavesSession(recorded);
    }
  }

  lemma ActivityWoke(w: World, line: string, at: int, fromHook: bool)
    requires PollsFit(w)
    ensures var t := Notify(RecordActivity(w, line, at, fromHook));
            Woke(w, t, [SignalAt(t)]) && t.registered == w.registered
  {
    hide PollsFit, Notify, SignalOf, Woke;
    NotifyWoke(w, RecordActivity(w, line, at, fromHook));
    NotifyLeavesSession(RecordActivity(w, line, at, fromHook));
  }

  lemma NoteWoke(w: World, note: Note, at: int)
    requires PollsFit(w)
    ensures Woke(w, OnNote(w, note, at), NoteSignals(w, note, at)) && OnNote(w, note, at).registered == w.registered
  {
    hide PollsFit, Notify, ThreadStatusAsks, HookShows, SignalOf, Woke, RecordWarning, WarningSignals, RecordActivity;
    match note
    case Delta(lines) =>
      if lines == [] { QuietWoke(w, w.session); } else { ActivityWoke(w, lines[|lines| - 1], at, false); }
    case Warned(method_, message) => WarningWoke(w, method_, message, at);
    case HookRan(hook, held, display) =>
      WarningWoke(w, hook, held, at);
      var warned, signals := RecordWarning(w, hook, held, at), WarningSignals(w, hook, held, at);
      if HookShows(w.session, display) {
        WokeFits(w, warned, signals);
        ShownDisplay(w.session, display);
        ActivityWoke(warned, display.value, at, true);
        WokeChains(w, warned, OnNote(w, note, at), signals, [SignalAt(OnNote(w, note, at))]);
      } else {
        assert signals + [] == signals;
      }
    case Reviewed(verdict) =>
      ReviewLeavesPolls(w, note, at);
      QuietWoke(w, OnNote(w, note, at).session);
    case _ => QuietWoke(w, OnNote(w, note, at).session);
  }

  lemma ShownDisplay(s: Session, display: Option<string>)
    requires HookShows(s, display)
    ensures display.Some?
  {}

  lemma ReviewLeavesPolls(w: World, note: Note, at: int)
    requires note.Reviewed?
    ensures OnNote(w, note, at) == w.(session := OnNote(w, note, at).session)
  {}

  lemma WokeFits(w: World, t: World, signals: seq<Signal>)
    requires Woke(w, t, signals)
    ensures PollsFit(t)
  {}

  /** Notifying once, at the end of a step. */
  lemma EndWoke(w: World, s: Session)
    requires PollsFit(w)
    ensures var t := Notify(w.(session := s)); Woke(w, t, [] + [SignalAt(t)])
  {
    hide PollsFit, Notify, SignalOf, Woke;
    NotifyWoke(w, w.(session := s));
    NotifyLeavesSession(w.(session := s));
    assert [] + [SignalAt(Notify(w.(session := s)))] == [SignalAt(Notify(w.(session := s)))];
  }

  lemma NothingWoke(w: World, s: Session)
    requires PollsFit(w)
    ensures Woke(w, w.(session := s), [] + [])
  {
    var none: seq<Signal> := [];
    assert none + none == none;
    QuietWoke(w, s);
  }

  /** In any state a step but an eviction wakes everyone if a signal it notifies differs from the last notified one,
      and no one otherwise. */
  lemma StepWakes(w: World, e: Event)
    requires PollsFit(w) && !IsWait(e) && !e.SessionEvicted?
    ensures Woke(w, Step(w, e), Notified(w, e))
  {
    hide PollsFit, Notify, CloseAll, OnNote, NoteSignals, Settled, SendAnswer, Deliver, HoldOpen, Woke, SignalOf;
    NothingWoke(w, w.session);
    match e
    case NotificationCame(note, at) =>
      NoteWoke(w, note, at);
      var noted, signals := OnNote(w, note, at), NoteSignals(w, note, at);
      WokeFits(w, noted, signals);
      NotifyWoke(noted, noted);
      NotifyLeavesSession(noted);
      WokeChains(w, noted, Notify(noted), signals, [SignalAt(noted)]);
    case RequestCame(req, rpc, m, sends) =>
      var asked := w.session.(asked := w.session.asked + {rpc});
      NothingWoke(w, Deliver(asked, rpc, DirectAnswer(m), sends));
      EndWoke(w, Deliver(asked, rpc, DirectAnswer(m), sends));
      if KindOf(m).Some? { EndWoke(w, HoldOpen(asked, req, rpc, KindOf(m).value)); }
    case ApprovalGiven(req, decision, valid, sends) =>
      if TakesApproval(w, req, valid) { AnswerWoke(w, req, Decision(decision), Some(decision), sends); }
    case InputGiven(req, answers, sends) =>
      if TakesInput(w, req) { AnswerWoke(w, req, Answers(answers), None, sends); }
    case TimerFired(req, sends) => TimerWoke(w, req, sends);
    case CancelCalled(at, failing) =>
      var s := CloseAll(w.session.(status := Cancelled), failing);
      EndWoke(w, s.(activeTurnId := None,
        lastResult := if s.lastResult.Some? then s.lastResult
                      else Some(TurnResult(s.activeTurnId, Stopped, at))));
    case ProcessLost(at, failing) =>
      var s := CloseAll(w.session, failing);
      ClosingAllKeepsStatus(w.session, failing);
      NothingWoke(w, s);
      EndWoke(w, s.(status := Errored, activeTurnId := None,
        lastResult := Some(TurnResult(s.activeTurnId, Failed, at))));
    case ResumeFinished => EndWoke(w, w.session.(status := Idle));
    case _ => NothingWoke(w, Step(w, e).session);
  }

  lemma AnswerWoke(w: World, req: RequestId, answer: Answer, decision: Option<string>, sends: bool)
    requires PollsFit(w) && Answerable(w.session, req)
    ensures var t := OnAnswer(w, req, answer, decision, sends);
            Woke(w, t, [] + if sends then [SignalAt(t)] else [])
  {
    hide PollsFit, Woke, Notify, SendAnswer, Settled, SignalOf;
    var answered := SendAnswer(w.session, req, answer, decision, sends);
    NothingWoke(w, answered);
    EndWoke(w, Settled(answered, req));
  }

  lemma TimerWoke(w: World, req: RequestId, sends: bool)
    requires PollsFit(w)
    ensures Woke(w, OnTimer(w, req, sends), Notified(w, TimerFired(req, sends)))
  {
    hide PollsFit, Woke, Notify, Settled, SignalOf;
    var s := w.session.(armed := w.session.armed - {req});
    NothingWoke(w, s);
    NothingWoke(w, w.session);
    if req in w.session.armed && req in s.objects && !s.objects[req].resolved {
      var obj := s.objects[req];
      var timedOut := s.(objects := s.objects[req := obj.(resolved := true,
                           decision := if obj.kind.UserInput? then obj.decision else Some("decline"))]);
      EndWoke(w, Settled(Deliver(timedOut, obj.rpc, TimeoutAnswer(obj.kind), sends), req));
    }
  }

  /** An eviction is news to everyone asleep: no session is last notified as gone. */
  lemma EvictionWoke(w: World, failing: set<Rpc>)
    requires PollsFit(w) && w.registered
    ensures var e := SessionEvicted(failing); var t := Step(w, e);
            && PollsFit(t) && !t.registered && WokeAll(w.polls, t.polls) && t.polls.lastNotified.None?
            && Notified(w, e) == [Gone] && !LandsOn(Notified(w, e), w.polls.lastNotified)
  {
    hide Unresolved, PollsSound, Notify, CloseAll;
    var gone := w.(session := CloseAll(w.session, failing), registered := false);
    NotifyWakesOnChange(gone);
    WokeLeavesNone(w.polls, Notify(gone).polls);
    ForgettingKeeps(Notify(gone).polls);
    assert Notified(w, SessionEvicted(failing))[0] == Gone;
  }

  /** A waiter's own comings and goings touch no other, nor the session. */
  lemma WaitStepKeeps(w: World, e: Event)
    requires PollsFit(w) && IsWait(e) && Legal(w, e)
    ensures var t := Step(w, e);
            && PollsFit(t) && t.session == w.session && t.registered == w.registered
            && t.polls.lastNotified == w.polls.lastNotified && w.polls.seen <= t.polls.seen
            && (forall q :: q in w.polls.seen && q != e.waiter ==>
                  (q in t.polls.waiters <==> q in w.polls.waiters) && (q in t.polls.refused <==> q in w.polls.refused))
            && (forall q :: q in w.polls.seen && q !in w.polls.waiters ==> q !in t.polls.waiters)
            && (forall q :: q in w.polls.seen && q !in w.polls.refused ==> q !in t.polls.refused)
  {
    hide SignalOf, PollsSound;
    match e
    case WaitCalled(q, signal) => WaitingKeeps(w, q, signal);
    case WaitTimedOut(q) => if q in w.polls.timers { AsleepWithTimer(w.polls, q); DoneKeeps(w.polls, q); }
    case WaitAborted(q) => if q in w.polls.listeners { AsleepWithTimer(w.polls, q); DoneKeeps(w.polls, q); }
    case _ =>
  }

  lemma AsleepWithTimer(p: Polls, q: WaiterId)
    requires PollsSound(p) && (q in p.timers || q in p.listeners)
    ensures q in p.waiters
  {}

  lemma WaitingKeeps(w: World, q: WaiterId, signal: AbortSignal)
    requires PollsFit(w) && q !in w.polls.seen
    ensures PollsFit(Wait(w, q, signal))
  {
    hide Without;
  }

  /** At most four sleep at a time, each with its timer, and each call resolves once or is refused. */
  lemma {:induction false} RunKeepsPolls(w: World, es: seq<Event>)
    requires PollsFit(w) && LegalRun(w, es)
    ensures PollsFit(RunAll(w, es))
    decreases |es|
  {
    hide PollsFit, Step;
    if es != [] {
      StepKeepsPolls(w, es[0]);
      RunKeepsPolls(Step(w, es[0]), es[1..]);
    }
  }

  /** Each step but a wait itself wakes everyone or no one, and everyone exactly if it notifies some news. */
  lemma StepWakesOrNot(w: World, e: Event)
    requires PollsFit(w) && !IsWait(e)
    ensures var t := Step(w, e);
            && PollsFit(t)
            && (if LandsOn(Notified(w, e), w.polls.lastNotified) then t.polls == w.polls
                else WokeAll(w.polls, t.polls))
  {
    hide PollsSound, WokeAll;
    if e.SessionEvicted? {
      if w.registered { EvictionWoke(w, e.failing); }
    } else {
      StepWakes(w, e);
    }
  }

  lemma StepKeepsPolls(w: World, e: Event)
    requires PollsFit(w) && Legal(w, e)
    ensures PollsFit(Step(w, e))
    ensures forall q :: q in w.polls.seen && q !in w.polls.waiters && q !in w.polls.refused ==>
              q in Step(w, e).polls.seen && q !in Step(w, e).polls.waiters && q !in Step(w, e).polls.refused
  {
    hide PollsSound, Step, Notified;
    if IsWait(e) {
      WaitStepKeeps(w, e);
    } else {
      StepWakesOrNot(w, e);
    }
  }

  /** A resolved poll never sleeps again. */
  lemma {:induction false} StaysAwake(w: World, es: seq<Event>, q: WaiterId)
    requires PollsFit(w) && LegalRun(w, es)
    requires q in w.polls.seen && q !in w.polls.waiters && q !in w.polls.refused
    ensures var p := RunAll(w, es).polls; q !in p.waiters && TimesResolved(p, q) == 1
    decreases |es|
  {
    hide PollsFit, Step, Legal;
    if es == [] {
      assert TimesResolved(w.polls, q) == 1 by { ResolvedOnce(w, q); }
    } else {
      StepKeepsPolls(w, es[0]);
      StaysAwake(Step(w, es[0]), es[1..], q);
    }
  }

  lemma ResolvedOnce(w: World, q: WaiterId)
    requires PollsFit(w) && q in w.polls.seen && q !in w.polls.refused
    ensures TimesResolved(w.polls, q) == if q in w.polls.waiters then 0 else 1
  {}

  lemma AsleepUnresolved(w: World, q: WaiterId)
    requires PollsFit(w) && q in w.polls.waiters
    ensures TimesResolved(w.polls, q) == 0
  {}

  /** A poll on a stored session sleeps with its timer, and with the abort of the call where it has one; an aborted
      call is resolved at once, and a fifth is refused. */
  lemma WaitRegisters(w: World, q: WaiterId, signal: AbortSignal)
    requires PollsFit(w) && w.registered && q !in w.polls.seen
    ensures var p, t := w.polls, Step(w, WaitCalled(q, signal));
            && t.session == w.session && t.registered && q in t.polls.seen && t.polls.lastNotified == p.lastNotified
            && (signal.Aborted? ==> t.polls.waiters == p.waiters && TimesResolved(t.polls, q) == 1)
            && (!signal.Aborted? && |p.waiters| == 4 ==> t.polls.waiters == p.waiters && q in t.polls.refused)
            && (!signal.Aborted? && |p.waiters| < 4 ==>
                  && t.polls.waiters == p.waiters + [q] && q in t.polls.timers && TimesResolved(t.polls, q) == 0
                  && (q in t.polls.listeners <==> signal.Live?))
  {}

  /** A sleeper's own timeout resolves it, and so does its abort where the call has one; its slot, timer and listener
      go and no other sleeper's do. */
  lemma WaitEnds(w: World, e: Event, q: WaiterId)
    requires PollsFit(w) && q in w.polls.waiters
    requires e == WaitTimedOut(q) || (e == WaitAborted(q) && q in w.polls.listeners)
    ensures var p, t := w.polls, Step(w, e);
            && t.session == w.session && t.registered == w.registered && t.polls.lastNotified == p.lastNotified
            && TimesResolved(t.polls, q) == 1 && q !in t.polls.timers && q !in t.polls.listeners
            && (forall x :: x in t.polls.waiters <==> x in p.waiters && x != q)
            && (forall x :: x != q ==> TimesResolved(t.polls, x) == TimesResolved(p, x)
                                       && (x in t.polls.timers <==> x in p.timers)
                                       && (x in t.polls.listeners <==> x in p.listeners))
  {
    DoneKeeps(w.polls, q);
  }
}
