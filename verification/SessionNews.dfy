/** What a long poll is woken for, event by event: the changes a caller can read, and no other. */
module SessionNews {
  import opened Options
  import opened WarningRing
  import opened SessionState
  import opened SessionRequests
  import opened SessionRuns
  import opened SessionPolls
  import opened SessionWakeups

  predicate Awaited(s: Session, r: RequestId) { r in s.open && r in s.objects && !s.objects[r].resolved }

  function ResultAt(s: Session): Option<int> {
    if s.lastResult.Some? then Some(s.lastResult.value.completedAt) else None
  }

  function ActivityAt(s: Session): Option<int> {
    if s.activity.Some? then Some(s.activity.value.at) else None
  }

  /** A caller reads the same of both: the status shown, the requests to answer, the instants of the last result and
      of the activity line, and how many warnings there were. */
  ghost predicate ReadsAlike(s: Session, t: Session) {
    && Shown(s) == Shown(t)
    && (forall r :: Awaited(s, r) <==> Awaited(t, r))
    && ResultAt(s) == ResultAt(t) && ActivityAt(s) == ActivityAt(t)
    && s.ring.warningSeq == t.ring.warningSeq
  }

  /** The signal carries exactly what a caller reads. */
  lemma SignalIsWhatIsRead(s: Session, t: Session)
    ensures SignalOf(s) == SignalOf(t) <==> ReadsAlike(s, t)
  {
    if SignalOf(s) == SignalOf(t) {
      forall r ensures Awaited(s, r) <==> Awaited(t, r) {
        assert Awaited(s, r) <==> r in SignalOf(s).waiting;
        assert Awaited(t, r) <==> r in SignalOf(t).waiting;
      }
    }
    if ReadsAlike(s, t) {
      forall r ensures r in Unresolved(s) <==> r in Unresolved(t) {
        assert Awaited(s, r) <==> Awaited(t, r);
      }
    }
  }

  /** A warning that does not repeat the one before it. */
  predicate NewWarning(s: Session, method_: string, message: Option<string>) {
    message.Some? &&
    (s.ring.kept == [] || s.ring.kept[|s.ring.kept| - 1].method_ != method_
     || s.ring.kept[|s.ring.kept| - 1].message != message.value)
  }

  /** The notifications a caller is woken for. */
  predicate NewsOfNote(s: Session, note: Note, at: int) {
    match note
    case TurnStarted(turn) =>
      s.status != Cancelled
      && (s.activity.Some? || (s.status == Idle && (s.activeTurnId.Some? <==> turn.None?)))
    case TurnCompleted(_) => s.status != Cancelled && (Shown(s) != Idle || ResultAt(s) != Some(at))
    case ErrorNote(willRetry) => s.status != Cancelled && s.status != Errored && !willRetry
    case StatusChanged(t) =>
      s.status != Cancelled && s.status != Errored &&
      (match t
       case Active => s.open != [] && Shown(s) != WaitingApproval
       case ThreadIdle => s.open == [] && Shown(s) != (if s.activeTurnId.Some? then Running else Idle)
       case SystemError => true
       case OtherStatus => false)
    case Delta(lines) => lines != [] && ActivityAt(s) != Some(at)
    case Warned(method_, message) => NewWarning(s, method_, message)
    case HookRan(hook, held, display) =>
      NewWarning(s, hook, held) ||
      (display.Some? && (s.activity.None? || (s.activity.value.fromHook && s.activity.value.line != display.value))
       && ActivityAt(s) != Some(at))
    case Reviewed(verdict) => verdict.Some? && ActivityAt(s) != Some(at)
    case OtherNote => false
  }

  predicate IsApprovable(m: Method) { m == CommandApproval || m == FileChangeApproval || m == UserInputRequest }

  /** The events a caller is woken for. */
  predicate News(s: Session, e: Event) {
    match e
    case NotificationCame(note, at) => NewsOfNote(s, note, at)
    case RequestCame(_, _, m, _) => s.status != Cancelled && s.status != Errored && IsApprovable(m)
    case ApprovalGiven(req, _, valid, sends) => Awaited(s, req) && s.objects[req].kind != UserInput && valid && sends
    case InputGiven(req, _, sends) => Awaited(s, req) && s.objects[req].kind == UserInput && sends
    case TimerFired(req, _) => Awaited(s, req)
    case CancelCalled(_, _) => s.status != Cancelled
    case ProcessLost(_, _) => s.status == Running || s.status == WaitingApproval
    case SessionEvicted(_) => true
    case ResumeFinished => Shown(s) != (if s.activeTurnId.Some? then Running else Idle)
    case _ => false
  }

  /** What a caller reads moves at a step, or the session leaves the store. */
  ghost predicate Moves(w: World, t: World) { !t.registered || !ReadsAlike(w.session, t.session) }

  lemma {:induction false} OpenIsAwaited(s: Session)
    requires Tended(s)
    ensures forall r :: Awaited(s, r) <==> r in s.open
  {}

  lemma WarningMoves(w: World, method_: string, message: Option<string>, at: int)
    ensures var t := RecordWarning(w, method_, message, at);
            && t.session == w.session.(ring := t.session.ring) && t.registered == w.registered
            && t.session.ring.warningSeq
            == w.session.ring.warningSeq + if NewWarning(w.session, method_, message) then 1 else 0
  {
    hide Notify;
    if message.Some? {
      var ring := Record(w.session.ring, Warning(method_, message.value, at));
      NotifyLeavesSession(w.(session := w.session.(ring := ring)));
    }
  }

  lemma NoteMoves(w: World, note: Note, at: int)
    requires Tended(w.session) && w.registered
    ensures Moves(w, OnNote(w, note, at)) <==> NewsOfNote(w.session, note, at)
  {
    hide Notify, RecordWarning, NewWarning;
    OpenIsAwaited(w.session);
    match note
    case Delta(lines) =>
      if lines != [] { NotifyLeavesSession(RecordActivity(w, lines[|lines| - 1], at, false)); }
    case Warned(method_, message) => WarningMoves(w, method_, message, at);
    case HookRan(hook, held, display) =>
      WarningMoves(w, hook, held, at);
      var warned := RecordWarning(w, hook, held, at);
      if display.Some? { NotifyLeavesSession(RecordActivity(warned, display.value, at, true)); }
    case StatusChanged(_) =>
      assert Unresolved(w.session) != {} <==> w.session.open != [] by { OpenIsUnresolved(w.session); }
    case _ =>
  }

  lemma OpenIsUnresolved(s: Session)
    requires Tended(s)
    ensures Unresolved(s) != {} <==> s.open != []
  {
    if s.open != [] {
      var r := s.open[0];
      assert r in s.open;
      assert r in s.objects && !s.objects[r].resolved;
      assert r in Unresolved(s);
    }
  }

  /** An approval or a question asked of a live session is one more request to answer. */
  lemma RequestMoves(w: World, req: RequestId, rpc: Rpc, m: Method, sends: bool)
    requires Tended(w.session) && w.registered && req !in w.session.objects
    ensures Moves(w, OnRequest(w, req, rpc, m, sends)) <==> News(w.session, RequestCame(req, rpc, m, sends))
  {
    hide Notify, Tended;
    var s := w.session.(asked := w.session.asked + {rpc});
    NotifyLeavesSession(w.(session := Deliver(s, rpc, DirectAnswer(m), sends)));
    if KindOf(m).Some? {
      var held := HoldOpen(s, req, rpc, KindOf(m).value);
      NotifyLeavesSession(w.(session := held));
      assert Awaited(held, req) && !Awaited(w.session, req) by { assert held.open[|w.session.open|] == req; }
    }
  }

  /** Any request answered is one fewer. */
  lemma ClosingMoves(s: Session, t: Session, req: RequestId, answer: Answer, sends: bool)
    requires Tended(s) && Closes(s, t, req, answer, sends)
    ensures !ReadsAlike(s, t)
  {
    assert Awaited(s, req) && !Awaited(t, req);
  }

  lemma AnswerMoves(w: World, req: RequestId, answer: Answer, decision: Option<string>)
    requires Sound(w.session) && Answerable(w.session, req)
    ensures !ReadsAlike(w.session, OnAnswer(w, req, answer, decision, true).session)
  {
    hide Notify, Accounted, ReadsAlike, Closes;
    var t := Settled(SendAnswer(w.session, req, answer, decision, true), req);
    NotifyLeavesSession(w.(session := t));
    ClosesByAnswer(w.session, t, req, answer, decision);
    ClosingMoves(w.session, t, req, answer, true);
  }

  lemma TimerMoves(w: World, req: RequestId, sends: bool)
    requires Sound(w.session) && req in w.session.open
    ensures !ReadsAlike(w.session, OnTimer(w, req, sends).session)
  {
    hide Notify, Accounted, ReadsAlike;
    var s, t, obj := w.session, OnTimer(w, req, sends).session, w.session.objects[req];
    var timedOut := s.(armed := s.armed - {req}, objects := s.objects[req := obj.(resolved := true,
                         decision := if obj.kind.UserInput? then obj.decision else Some("decline"))]);
    NotifyLeavesSession(w.(session := Settled(Deliver(timedOut, obj.rpc, TimeoutAnswer(obj.kind), sends), req)));
    assert t.objects == s.objects[req := t.objects[req]];
    ClosingMoves(s, t, req, TimeoutAnswer(obj.kind), sends);
  }

  lemma CancelMoves(w: World, at: int, failing: set<Rpc>)
    requires Sound(w.session) && w.registered
    ensures Moves(w, OnCancel(w, at, failing)) <==> w.session.status != Cancelled
  {
    hide Notify, CloseAll, Accounted;
    var s := CloseAll(w.session.(status := Cancelled), failing);
    ClosingAllKeepsStatus(w.session.(status := Cancelled), failing);
    NotifyLeavesSession(w.(session := s.(activeTurnId := None, lastResult := if s.lastResult.Some? then s.lastResult
                                         else Some(TurnResult(s.activeTurnId, Stopped, at)))));
  }

  lemma LossMoves(w: World, at: int, failing: set<Rpc>)
    requires Sound(w.session) && w.registered && !GoesUnheard(w, ProcessLost(at, failing))
    ensures Moves(w, OnLoss(w, at, failing))
       <==> w.session.status == Running || w.session.status == WaitingApproval
  {
    hide Notify, CloseAll, Accounted;
    var s := CloseAll(w.session, failing);
    ClosingAllKeepsStatus(w.session, failing);
    NotifyLeavesSession(w.(session := s.(status := Errored, activeTurnId := None,
                                         lastResult := Some(TurnResult(s.activeTurnId, Failed, at)))));
    if w.session.open == [] { assert s == w.session by { NothingToClose(w.session, failing); } }
  }

  lemma NothingToClose(s: Session, failing: set<Rpc>)
    requires s.open == []
    ensures CloseAll(s, failing) == s
  {}

  /** What a caller reads moves on exactly the events that are news. */
  lemma MovesOnNews(w: World, e: Event)
    requires Sound(w.session) && w.registered && Legal(w, e) && !IsWait(e) && !GoesUnheard(w, e)
    ensures Moves(w, Step(w, e)) <==> News(w.session, e)
  {
    hide Notify, CloseAll, OnNote, OnRequest, OnAnswer, OnTimer, OnCancel, OnLoss, NewsOfNote, Accounted;
    var s, t := w.session, Step(w, e);
    OpenIsAwaited(s);
    match e
    case NotificationCame(note, at) =>
      NoteMoves(w, note, at);
      NotifyLeavesSession(OnNote(w, note, at));
    case RequestCame(req, rpc, m, sends) => RequestMoves(w, req, rpc, m, sends);
    case ApprovalGiven(req, decision, valid, sends) =>
      if TakesApproval(w, req, valid) {
        if sends { AnswerMoves(w, req, Decision(decision), Some(decision)); }
        else { FailedAnswerReads(w, req, Decision(decision), Some(decision)); }
      }
    case InputGiven(req, answers, sends) =>
      if TakesInput(w, req) {
        if sends { AnswerMoves(w, req, Answers(answers), None); }
        else { FailedAnswerReads(w, req, Answers(answers), None); }
      }
    case TimerFired(req, sends) =>
      if req in s.open { TimerMoves(w, req, sends); } else { TimerWithoutRequest(w, req, sends); }
    case CancelCalled(at, failing) => CancelMoves(w, at, failing);
    case ProcessLost(at, failing) => LossMoves(w, at, failing);
    case ResumeFinished => NotifyLeavesSession(w.(session := s.(status := Idle)));
    case SessionEvicted(failing) => EvictionLeaves(w, failing);
    case _ =>
  }

  lemma EvictionLeaves(w: World, failing: set<Rpc>)
    requires w.registered
    ensures !OnEvict(w, failing).registered
  {
    hide Notify, CloseAll;
    NotifyLeavesSession(w.(session := CloseAll(w.session, failing), registered := false));
  }

  lemma TimerWithoutRequest(w: World, req: RequestId, sends: bool)
    requires Tended(w.session) && req !in w.session.open
    ensures OnTimer(w, req, sends) == w
  {}

  lemma FailedAnswerReads(w: World, req: RequestId, answer: Answer, decision: Option<string>)
    requires Sound(w.session) && Answerable(w.session, req) && Shown(w.session) == WaitingApproval
    ensures ReadsAlike(w.session, OnAnswer(w, req, answer, decision, false).session)
    ensures OnAnswer(w, req, answer, decision, false).registered == w.registered
  {}

  /** From a notified session a heard step wakes every sleeper, once, exactly if it is news to a caller; and it
      wakes no one exactly if it is not. */
  lemma WakesExactlyOnNews(w: World, e: Event)
    requires Sound(w.session) && PollsFit(w) && Fresh(w) && w.registered && Legal(w, e) && !IsWait(e)
    requires !GoesUnheard(w, e)
    ensures if News(w.session, e) then WokeAll(w.polls, Step(w, e).polls) else Step(w, e).polls == w.polls
  {
    hide PollsSound, Sound, News, ReadsAlike, Step, SignalOf, WokeAll, Legal;
    StaleExactlyWhenUnheard(w, e);
    MovesOnNews(w, e);
    SignalIsWhatIsRead(w.session, Step(w, e).session);
  }

  // Over runs.

  /** Nothing along the run was news. */
  ghost predicate NoNews(w: World, es: seq<Event>)
    decreases |es|
  {
    es == [] || ((IsWait(es[0]) || !News(w.session, es[0])) && NoNews(Step(w, es[0]), es[1..]))
  }

  lemma StandsWithoutNews(w: World, e: Event)
    requires Sound(w.session) && PollsFit(w) && Fresh(w) && w.registered && Legal(w, e) && !GoesUnheard(w, e)
    ensures SignalAt(Step(w, e)) == SignalAt(w) <==> IsWait(e) || !News(w.session, e)
  {
    hide Sound, News, ReadsAlike, Step, SignalOf, Legal, PollsSound;
    if IsWait(e) {
      WaitStepKeeps(w, e);
    } else {
      MovesOnNews(w, e);
      SignalIsWhatIsRead(w.session, Step(w, e).session);
    }
  }

  /** From a notified session, over heard steps: a poll is still asleep if and only if nothing since was news to its
      caller; otherwise it was resolved, once. */
  lemma {:induction false} SleepsExactlyWithoutNews(w: World, es: seq<Event>, q: WaiterId)
    requires Sound(w.session) && PollsFit(w) && Fresh(w) && w.registered && q in w.polls.waiters
    requires LegalRun(w, es) && AllHeard(w, es) && LeavesAlone(es, q)
    ensures var p := RunAll(w, es).polls;
            && (q in p.waiters <==> NoNews(w, es))
            && TimesResolved(p, q) == if NoNews(w, es) then 0 else 1
    decreases |es|
  {
    hide Sound, PollsFit, Step, Legal, GoesUnheard, Fresh, News, SignalAt;
    if es == [] {
      AsleepUnresolved(w, q);
    } else {
      HeardStep(w, es[0]);
      StandsWithoutNews(w, es[0]);
      if SignalAt(Step(w, es[0])) == SignalAt(w) {
        SleepsExactlyWithoutNews(Step(w, es[0]), es[1..], q);
      } else {
        StaysAwake(Step(w, es[0]), es[1..], q);
      }
    }
  }
}
