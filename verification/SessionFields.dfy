/** Who moves what of a session: for its status, its turn, the answer of its last turn and its activity line, the events
    that move it and how. */
module SessionFields {
  import opened Options
  import opened WarningRing
  import opened SessionState
  import opened SessionRequests
  import opened SessionRuns

  predicate Terminal(s: Session) { s.status == Cancelled || s.status == Errored }

  predicate Live(s: Session) { s.status == Running || s.status == WaitingApproval }

  predicate Opens(w: World, checkedEarlier: bool) {
    checkedEarlier || (w.registered && (w.session.status == Idle || w.session.status == Errored))
  }

  /** The answer of the last turn: a turn that completes, is cancelled without one or dies with the process writes it,
      a reply drops it, and a cancel keeps that of a turn that ended. */
  lemma ResultMoves(w: World, e: Event)
    ensures var s, t := w.session, Step(w, e).session;
            t.lastResult ==
            if e.NotificationCame? && e.note.TurnCompleted? && s.status != Cancelled then
              Some(TurnResult(e.note.completed, Completed, e.at))
            else if e.CancelCalled? && w.registered && s.status != Cancelled && s.lastResult == None then
              Some(TurnResult(s.activeTurnId, Stopped, e.at))
            else if e.ProcessLost? && Live(s) then Some(TurnResult(s.activeTurnId, Failed, e.at))
            else if e.ReplyOpened? && Opens(w, e.checkedEarlier) then None
            else s.lastResult
  {
    hide Notify, CloseAll, OnNote, Without, SignalOf, Unresolved;
    match e
    case NotificationCame(note, at) => NoteMovesTurn(w, note, at); NotifyLeavesSession(OnNote(w, note, at));
    case CancelCalled(at, failing) => CancelEnds(w, at, failing);
    case ProcessLost(at, failing) => LossEnds(w, at, failing);
    case SessionEvicted(failing) => EvictionEnds(w, failing);
    case ResumeFinished => NotifyLeavesSession(w.(session := w.session.(status := Idle)));
    case _ => RequestsLeaveTurn(w, e);
  }

  /** The turn a session is on. */
  lemma TurnMoves(w: World, e: Event)
    ensures var s, t := w.session, Step(w, e).session;
            t.activeTurnId ==
            if e.NotificationCame? && e.note.TurnStarted? && s.status != Cancelled then e.note.turn
            else if e.NotificationCame? && e.note.TurnCompleted? && s.status != Cancelled then None
            else if e.CancelCalled? && w.registered && s.status != Cancelled then None
            else if e.ProcessLost? && Live(s) then None
            else if e.ReplyStarted? && e.turn.Some? then e.turn
            else s.activeTurnId
  {
    hide Notify, CloseAll, OnNote, Without, SignalOf, Unresolved;
    match e
    case NotificationCame(note, at) => NoteMovesTurn(w, note, at); NotifyLeavesSession(OnNote(w, note, at));
    case CancelCalled(at, failing) => CancelEnds(w, at, failing);
    case ProcessLost(at, failing) => LossEnds(w, at, failing);
    case SessionEvicted(failing) => EvictionEnds(w, failing);
    case ResumeFinished => NotifyLeavesSession(w.(session := w.session.(status := Idle)));
    case _ => RequestsLeaveTurn(w, e);
  }

  /** The line a poll reports: deltas and a reviewer's verdict replace it, a hook's line where no marker stands, and a
      new turn drops it. */
  lemma ActivityMoves(w: World, e: Event)
    ensures var s, t := w.session, Step(w, e).session;
            t.activity ==
            if e.NotificationCame? && e.note.TurnStarted? && s.status != Cancelled then None
            else if e.NotificationCame? && e.note.Delta? && e.note.lines != [] then
              Some(Activity(e.note.lines[|e.note.lines| - 1], e.at, false))
            else if e.NotificationCame? && e.note.Reviewed? && e.note.verdict.Some? then
              Some(Activity(e.note.verdict.value, e.at, false))
            else if e.NotificationCame? && e.note.HookRan? && e.note.display.Some?
                    && (s.activity.None?
                        || (s.activity.value.fromHook && s.activity.value.line != e.note.display.value))
            then Some(Activity(e.note.display.value, e.at, true))
            else s.activity
  {
    hide Notify, CloseAll, OnNote, Without, SignalOf, Unresolved;
    match e
    case NotificationCame(note, at) => NoteMovesActivity(w, note, at); NotifyLeavesSession(OnNote(w, note, at));
    case CancelCalled(at, failing) => CancelEnds(w, at, failing);
    case ProcessLost(at, failing) => LossEnds(w, at, failing);
    case SessionEvicted(failing) => EvictionEnds(w, failing);
    case ResumeFinished => NotifyLeavesSession(w.(session := w.session.(status := Idle)));
    case _ => RequestsLeaveTurn(w, e);
  }

  /** The warnings: the messages of warnings and of hooks that held the turn, and nothing else. */
  lemma WarningsMove(w: World, e: Event)
    ensures var s, t := w.session, Step(w, e).session;
            t.ring ==
            if e.NotificationCame? && e.note.Warned? && e.note.message.Some? then
              Record(s.ring, Warning(e.note.method_, e.note.message.value, e.at))
            else if e.NotificationCame? && e.note.HookRan? && e.note.held.Some? then
              Record(s.ring, Warning(e.note.hook, e.note.held.value, e.at))
            else s.ring
  {
    hide Notify, CloseAll, OnNote, Without, SignalOf, Unresolved, Record;
    match e
    case NotificationCame(note, at) => NoteMovesWarnings(w, note, at); NotifyLeavesSession(OnNote(w, note, at));
    case CancelCalled(at, failing) => CancelEnds(w, at, failing);
    case ProcessLost(at, failing) => LossEnds(w, at, failing);
    case SessionEvicted(failing) => EvictionEnds(w, failing);
    case ResumeFinished => NotifyLeavesSession(w.(session := w.session.(status := Idle)));
    case _ => RequestsLeaveTurn(w, e);
  }

  /** The status: what the open requests decide, the caller's calls, and how a turn ends. */
  lemma StatusMoves(w: World, e: Event)
    requires Sound(w.session) && !e.InputGiven? && !e.ApprovalGiven? && !e.TimerFired? && !e.RequestCame?
    ensures var s, t := w.session, Step(w, e).session;
            t.status ==
            match e
            case NotificationCame(note, at) => NoteStatus(s, note)
            case CancelCalled(_, _) => if w.registered then Cancelled else s.status
            case ProcessLost(_, _) => if Live(s) then Errored else s.status
            case ReplyOpened(checkedEarlier) => if Opens(w, checkedEarlier) then Running else s.status
            case ReplyFailed => Errored
            case ResumeFinished => Idle
            case _ => s.status
  {
    hide Notify, CloseAll, OnNote, Without, SignalOf, Unresolved, Accounted, NoteStatus;
    match e
    case NotificationCame(note, at) => NoteMovesStatus(w, note, at); NotifyLeavesSession(OnNote(w, note, at));
    case CancelCalled(at, failing) => CancelEnds(w, at, failing);
    case ProcessLost(at, failing) => LossEnds(w, at, failing);
    case SessionEvicted(failing) => EvictionEnds(w, failing);
    case ResumeFinished => NotifyLeavesSession(w.(session := w.session.(status := Idle)));
    case _ =>
  }

  /** A cancelled session hears no notification, an errored one no thread status, and a thread status never says
      whether the session waits: the open requests do. */
  function NoteStatus(s: Session, note: Note): Status {
    match note
    case TurnCompleted(_) => if s.status == Cancelled then s.status else Idle
    case ErrorNote(willRetry) => if s.status == Cancelled || willRetry then s.status else Errored
    case StatusChanged(SystemError) => if Terminal(s) then s.status else Errored
    case StatusChanged(Active) => if Terminal(s) || s.open == [] then s.status else WaitingApproval
    case StatusChanged(ThreadIdle) => if Terminal(s) || s.open != [] then s.status else Idle
    case _ => s.status
  }

  /** A failed send of the caller's answer leaves the session waiting with the request as it was. */
  lemma FailedSendWaits(w: World, e: Event)
    requires Sound(w.session) && w.registered && (e.ApprovalGiven? || e.InputGiven?) && !e.sends
    requires e.req in w.session.open && (w.session.objects[e.req].kind == UserInput <==> e.InputGiven?)
    requires e.ApprovalGiven? ==> e.valid
    ensures var s, t := w.session, Step(w, e);
            && t.session.status == WaitingApproval && t.session.open == s.open && t.session.armed == s.armed
            && t.session.wire == s.wire && t.polls == w.polls
            && t.session.objects
            == s.objects[e.req := s.objects[e.req].(decision := if e.ApprovalGiven? then None
                                                              else s.objects[e.req].decision)]
  {
    hide Accounted;
  }

  /** A session cancelled meanwhile stays cancelled where a send fails. */
  lemma FailedSendLeavesCancelled(w: World, e: Event)
    requires w.session.status == Cancelled && (e.ApprovalGiven? || e.InputGiven?) && !e.sends
    ensures Step(w, e).session.status == Cancelled
  {}

  // The steps.

  lemma NoteMovesTurn(w: World, note: Note, at: int)
    ensures var s, t := w.session, OnNote(w, note, at).session;
            && t.lastResult == (if note.TurnCompleted? && s.status != Cancelled
                                then Some(TurnResult(note.completed, Completed, at)) else s.lastResult)
            && t.activeTurnId == (if note.TurnStarted? && s.status != Cancelled then note.turn
                                  else if note.TurnCompleted? && s.status != Cancelled then None else s.activeTurnId)
  {
    hide Notify, Record, Repeats, Unresolved, MarkerStands;
    NoteNotifies(w, note, at);
  }

  lemma NoteMovesActivity(w: World, note: Note, at: int)
    ensures var s, t := w.session, OnNote(w, note, at).session;
            t.activity ==
            if note.TurnStarted? && s.status != Cancelled then None
            else if note.Delta? && note.lines != [] then Some(Activity(note.lines[|note.lines| - 1], at, false))
            else if note.Reviewed? && note.verdict.Some? then Some(Activity(note.verdict.value, at, false))
            else if note.HookRan? && note.display.Some?
                    && (s.activity.None? || (s.activity.value.fromHook && s.activity.value.line != note.display.value))
            then Some(Activity(note.display.value, at, true))
            else s.activity
  {
    hide Notify, Record, Repeats, Unresolved;
    NoteNotifies(w, note, at);
  }

  lemma NoteMovesWarnings(w: World, note: Note, at: int)
    ensures var s, t := w.session, OnNote(w, note, at).session;
            t.ring ==
            if note.Warned? && note.message.Some? then Record(s.ring, Warning(note.method_, note.message.value, at))
            else if note.HookRan? && note.held.Some? then Record(s.ring, Warning(note.hook, note.held.value, at))
            else s.ring
  {
    hide Notify, Record, Repeats, Unresolved, MarkerStands;
    NoteNotifies(w, note, at);
    match note
    case Warned(method_, message) => WarningIsRecorded(w, method_, message, at);
    case HookRan(hook, held, _) => WarningIsRecorded(w, hook, held, at);
    case _ =>
  }

  lemma NoteMovesStatus(w: World, note: Note, at: int)
    requires Tended(w.session)
    ensures OnNote(w, note, at).session.status == NoteStatus(w.session, note)
  {
    hide Notify, Record, Repeats, MarkerStands;
    NoteNotifies(w, note, at);
    if w.session.open != [] {
      var r := w.session.open[0];
      assert r in w.session.open;
      assert r in w.session.objects && !w.session.objects[r].resolved;
      assert r in Unresolved(w.session);
    } else {
      assert Unresolved(w.session) == {};
    }
  }

  lemma NoteNotifies(w: World, note: Note, at: int)
    ensures note.Delta? && note.lines != [] ==>
              var acted := RecordActivity(w, note.lines[|note.lines| - 1], at, false);
              Notify(acted).session == acted.session
    ensures note.Warned? ==>
              var t := RecordWarning(w, note.method_, note.message, at); t.session == w.session.(ring := t.session.ring)
    ensures note.HookRan? ==>
              var t := RecordWarning(w, note.hook, note.held, at); t.session == w.session.(ring := t.session.ring)
    ensures note.HookRan? && note.display.Some? ==>
              var acted := RecordActivity(RecordWarning(w, note.hook, note.held, at), note.display.value, at, true);
              Notify(acted).session == acted.session
  {
    hide Notify, Record, Repeats;
    match note
    case Delta(lines) =>
      if lines != [] { NotifyLeavesSession(RecordActivity(w, lines[|lines| - 1], at, false)); }
    case Warned(method_, message) => WarningIsRecorded(w, method_, message, at);
    case HookRan(hook, held, display) =>
      WarningIsRecorded(w, hook, held, at);
      if display.Some? {
        NotifyLeavesSession(RecordActivity(RecordWarning(w, hook, held, at), display.value, at, true));
      }
    case _ =>
  }

  lemma WarningIsRecorded(w: World, method_: string, message: Option<string>, at: int)
    ensures var t := RecordWarning(w, method_, message, at);
            && t.session.ring == (if message.None? then w.session.ring
                                  else Record(w.session.ring, Warning(method_, message.value, at)))
            && t.session == w.session.(ring := t.session.ring)
  {
    hide Notify, Record, Repeats;
    if message.Some? {
      var ring := Record(w.session.ring, Warning(method_, message.value, at));
      NotifyLeavesSession(w.(session := w.session.(ring := ring)));
    }
  }

  lemma {:induction false} ClosingLeavesTurn(s: Session, failing: set<Rpc>)
    ensures var t := CloseAll(s, failing);
            && t.status == s.status && t.activeTurnId == s.activeTurnId && t.lastResult == s.lastResult
            && t.activity == s.activity && t.ring == s.ring && t.open == []
    decreases |s.open|
  {
    if s.open != [] { ClosingLeavesTurn(CloseFirst(s, failing), failing); }
  }

  lemma CancelEnds(w: World, at: int, failing: set<Rpc>)
    ensures var s, t := w.session, OnCancel(w, at, failing).session;
            && t.activity == s.activity && t.ring == s.ring
            && (!w.registered || s.status == Cancelled ==> t == s)
            && (w.registered && s.status != Cancelled ==>
                  && t.status == Cancelled && t.activeTurnId == None
                  && t.lastResult == if s.lastResult.Some? then s.lastResult
                                     else Some(TurnResult(s.activeTurnId, Stopped, at)))
  {
    hide Notify, CloseAll;
    var s := CloseAll(w.session.(status := Cancelled), failing);
    ClosingLeavesTurn(w.session.(status := Cancelled), failing);
    NotifyLeavesSession(w.(session := s.(activeTurnId := None, lastResult := if s.lastResult.Some? then s.lastResult
                                         else Some(TurnResult(s.activeTurnId, Stopped, at)))));
  }

  lemma LossEnds(w: World, at: int, failing: set<Rpc>)
    ensures var s, t := w.session, OnLoss(w, at, failing).session;
            && t.activity == s.activity && t.ring == s.ring && t.status == (if Live(s) then Errored else s.status)
            && t.activeTurnId == (if Live(s) then None else s.activeTurnId)
            && t.lastResult == if Live(s) then Some(TurnResult(s.activeTurnId, Failed, at)) else s.lastResult
  {
    hide Notify, CloseAll;
    var s := CloseAll(w.session, failing);
    ClosingLeavesTurn(w.session, failing);
    NotifyLeavesSession(w.(session := s.(status := Errored, activeTurnId := None,
                                         lastResult := Some(TurnResult(s.activeTurnId, Failed, at)))));
  }

  lemma EvictionEnds(w: World, failing: set<Rpc>)
    ensures var s, t := w.session, OnEvict(w, failing).session;
            && t.activity == s.activity && t.ring == s.ring && t.status == s.status && t.activeTurnId == s.activeTurnId
            && t.lastResult == s.lastResult
  {
    hide Notify, CloseAll;
    ClosingLeavesTurn(w.session, failing);
    NotifyLeavesSession(w.(session := CloseAll(w.session, failing), registered := false));
  }

  /** Requests, answers, timers, waits and replies leave the activity line and the warnings; all but replies the turn
      and its result. */
  lemma RequestsLeaveTurn(w: World, e: Event)
    requires !e.NotificationCame? && !e.CancelCalled? && !e.ProcessLost? && !e.SessionEvicted?
    ensures var s, t := w.session, Step(w, e).session;
            && t.activity == s.activity && t.ring == s.ring
            && t.activeTurnId == (if e.ReplyStarted? && e.turn.Some? then e.turn else s.activeTurnId)
            && t.lastResult == if e.ReplyOpened? && Opens(w, e.checkedEarlier) then None else s.lastResult
  {
    hide OnRequest, OnAnswer, OnTimer, Wait, Done, Notify, Answerable;
    match e
    case RequestCame(req, rpc, m, sends) => RequestLeavesTurn(w, req, rpc, m, sends);
    case ApprovalGiven(req, decision, valid, sends) =>
      if TakesApproval(w, req, valid) { AnswerLeavesTurn(w, req, Decision(decision), Some(decision), sends); }
    case InputGiven(req, answers, sends) =>
      if TakesInput(w, req) { AnswerLeavesTurn(w, req, Answers(answers), None, sends); }
    case TimerFired(req, sends) => TimerLeavesTurn(w, req, sends);
    case WaitCalled(q, signal) => WaitLeavesSession(w, q, signal);
    case ResumeFinished => NotifyLeavesSession(w.(session := w.session.(status := Idle)));
    case _ =>
  }

  ghost predicate SameTurn(s: Session, t: Session) {
    t.activity == s.activity && t.ring == s.ring && t.activeTurnId == s.activeTurnId && t.lastResult == s.lastResult
  }

  lemma RequestLeavesTurn(w: World, req: RequestId, rpc: Rpc, m: Method, sends: bool)
    ensures SameTurn(w.session, OnRequest(w, req, rpc, m, sends).session)
  {
    hide Notify;
    var s := w.session.(asked := w.session.asked + {rpc});
    NotifyLeavesSession(w.(session := Deliver(s, rpc, DirectAnswer(m), sends)));
    if KindOf(m).Some? { NotifyLeavesSession(w.(session := HoldOpen(s, req, rpc, KindOf(m).value))); }
  }

  lemma AnswerLeavesTurn(w: World, req: RequestId, answer: Answer, decision: Option<string>, sends: bool)
    requires Answerable(w.session, req)
    ensures SameTurn(w.session, OnAnswer(w, req, answer, decision, sends).session)
  {
    hide Notify, Without;
    NotifyLeavesSession(w.(session := Settled(SendAnswer(w.session, req, answer, decision, sends), req)));
  }

  lemma TimerLeavesTurn(w: World, req: RequestId, sends: bool)
    ensures SameTurn(w.session, OnTimer(w, req, sends).session)
  {
    hide SignalOf, DoneAll, Without;
  }

  lemma WaitLeavesSession(w: World, q: WaiterId, signal: AbortSignal)
    ensures Wait(w, q, signal).session == w.session
  {}
}
