/** The session's requests and its status over whole runs of events. */
module SessionRuns {
  import opened Options
  import opened WarningRing
  import opened SessionState
  import opened SessionRequests

  /** Notifying moves only who sleeps. */
  lemma NotifyLeavesSession(w: World)
    ensures Notify(w).session == w.session && Notify(w).registered == w.registered
  {}

  /** A notification neither opens nor closes a request, and none cancels or revives a session. */
  lemma NoteLeavesRequests(w: World, note: Note, at: int)
    ensures SameRequests(w.session, OnNote(w, note, at).session)
    ensures OnNote(w, note, at).session.status.Cancelled? <==> w.session.status.Cancelled?
    ensures OnNote(w, note, at).registered == w.registered
  {
    hide Notify, Record, Repeats, Unresolved, MarkerStands;
    match note
    case HookRan(hook, held, display) =>
      WarningLeavesRequests(w, hook, held, at);
      var warned := RecordWarning(w, hook, held, at);
      if display.Some? { NotifyLeavesSession(RecordActivity(warned, display.value, at, true)); }
    case Warned(method_, message) => WarningLeavesRequests(w, method_, message, at);
    case Delta(lines) =>
      if lines != [] { NotifyLeavesSession(RecordActivity(w, lines[|lines| - 1], at, false)); }
    case _ =>
  }

  lemma WarningLeavesRequests(w: World, method_: string, message: Option<string>, at: int)
    ensures var t := RecordWarning(w, method_, message, at);
            SameRequests(w.session, t.session) && t.session.status == w.session.status && t.registered == w.registered
            && t.session.activity == w.session.activity
  {
    hide Record, DoneAll;
  }

  lemma NoteKeeps(w: World, note: Note, at: int)
    requires Sound(w.session)
    ensures Sound(OnNote(w, note, at).session)
    ensures SameRequests(w.session, OnNote(w, note, at).session)
  {
    hide Tended, Accounted, OnNote;
    NoteLeavesRequests(w, note, at);
    SameRequestsKeep(w.session, OnNote(w, note, at).session);
  }

  lemma RequestKeeps(w: World, req: RequestId, rpc: Rpc, m: Method, sends: bool)
    requires Sound(w.session) && req !in w.session.objects && rpc !in w.session.asked
    ensures Sound(OnRequest(w, req, rpc, m, sends).session)
    ensures sends ==> OnRequest(w, req, rpc, m, sends).session.undelivered == w.session.undelivered
  {
    hide Sound, DoneAll;
    var s := w.session;
    if s.status.Cancelled? || s.status.Errored? || KindOf(m).None? {
      DirectAnswerKeeps(s, rpc, DirectAnswer(m), sends);
    } else {
      HoldingOpenKeeps(s, req, rpc, KindOf(m).value);
    }
  }

  lemma AnswerKeeps(w: World, req: RequestId, answer: Answer, decision: Option<string>, sends: bool)
    requires Sound(w.session) && Answerable(w.session, req)
    ensures Sound(OnAnswer(w, req, answer, decision, sends).session)
    ensures OnAnswer(w, req, answer, decision, sends).session.undelivered == w.session.undelivered
  {
    hide OneFate, Held, Told, ToldOnce, OwnRpcs, DoneAll;
    var s, t := w.session, OnAnswer(w, req, answer, decision, sends).session;
    if sends {
      assert Closes(s, t, req, answer, sends) by { ClosesByAnswer(s, t, req, answer, decision); }
      ClosingTends(s, t, req, answer, sends);
      ClosingAccounts(s, t, req, answer, sends);
    } else {
      FailedAnswerAccounts(s, req, decision);
    }
  }

  lemma ClosesByAnswer(s: Session, t: Session, req: RequestId, answer: Answer, decision: Option<string>)
    requires Tended(s) && Answerable(s, req) && t == Settled(SendAnswer(s, req, answer, decision, true), req)
    ensures Closes(s, t, req, answer, true)
  {
    var o := SendAnswer(s, req, answer, decision, true).objects[req];
    assert t.objects == s.objects[req := o];
  }

  lemma FailedAnswerAccounts(s: Session, req: RequestId, decision: Option<string>)
    requires Sound(s) && Answerable(s, req)
    ensures Sound(SendAnswer(s, req, Unsupported, decision, false))
  {
    var t := SendAnswer(s, req, Unsupported, decision, false);
    assert forall r :: r in s.objects ==> t.objects[r].rpc == s.objects[r].rpc;
    forall id ensures OneFate(t, id) {
      assert OneFate(s, id);
      if Held(s, id) {
        var r :| r in s.open && r in s.objects && s.objects[r].rpc == id;
        assert t.objects[r].rpc == id;
      }
      assert Held(t, id) <==> Held(s, id);
    }
  }

  lemma TimerKeeps(w: World, req: RequestId, sends: bool)
    requires Sound(w.session)
    ensures Sound(OnTimer(w, req, sends).session)
    ensures sends ==> OnTimer(w, req, sends).session.undelivered == w.session.undelivered
  {
    hide OneFate, Held, Told, ToldOnce, OwnRpcs, DoneAll;
    var s, t := w.session, OnTimer(w, req, sends).session;
    if req in s.armed {
      var obj := s.objects[req];
      assert t.objects == s.objects[req := t.objects[req]];
      ClosingTends(s, t, req, TimeoutAnswer(obj.kind), sends);
      ClosingAccounts(s, t, req, TimeoutAnswer(obj.kind), sends);
    }
  }

  lemma ClosingStepKeeps(w: World, e: Event)
    requires Sound(w.session) && (e.CancelCalled? || e.ProcessLost? || e.SessionEvicted?)
    ensures Sound(Step(w, e).session)
    ensures e.failing == {} ==> Step(w, e).session.undelivered == w.session.undelivered
  {
    hide Tended, Accounted, DoneAll, CloseAll, SignalOf;
    var before := if e.CancelCalled? then w.session.(status := Cancelled) else w.session;
    SameRequestsKeep(w.session, before);
    ClosingAllKeeps(before, e.failing);
    var closed, after := CloseAll(before, e.failing), Step(w, e).session;
    if after != w.session { SameRequestsKeep(closed, after); }
  }

  /** No send of the step fails. */
  ghost predicate Sends(e: Event) {
    match e
    case RequestCame(_, _, _, sends) => sends
    case ApprovalGiven(_, _, _, sends) => sends
    case InputGiven(_, _, sends) => sends
    case TimerFired(_, sends) => sends
    case CancelCalled(_, failing) => failing == {}
    case ProcessLost(_, failing) => failing == {}
    case SessionEvicted(failing) => failing == {}
    case _ => true
  }

  /** Every step keeps the accounts; only the one answer a request gets from the server itself can be lost. */
  lemma StepKeeps(w: World, e: Event)
    requires Sound(w.session) && Legal(w, e)
    ensures Sound(Step(w, e).session)
    ensures Sends(e) || e.ApprovalGiven? || e.InputGiven? ==>
              Step(w, e).session.undelivered == w.session.undelivered
  {
    hide Tended, Accounted, DoneAll, CloseAll, OnNote, OnRequest, OnAnswer, OnTimer;
    match e
    case NotificationCame(note, at) => NoteKeeps(w, note, at);
    case RequestCame(req, rpc, m, sends) => RequestKeeps(w, req, rpc, m, sends);
    case ApprovalGiven(req, decision, valid, sends) =>
      if TakesApproval(w, req, valid) { AnswerKeeps(w, req, Decision(decision), Some(decision), sends); }
    case InputGiven(req, answers, sends) =>
      if TakesInput(w, req) { AnswerKeeps(w, req, Answers(answers), None, sends); }
    case TimerFired(req, sends) => TimerKeeps(w, req, sends);
    case CancelCalled(_, _) => ClosingStepKeeps(w, e);
    case ProcessLost(_, _) => ClosingStepKeeps(w, e);
    case SessionEvicted(_) => ClosingStepKeeps(w, e);
    case _ => SameRequestsKeep(w.session, Step(w, e).session);
  }

  /** No step parks a session in the store on a wait that no caller can end. */
  lemma StepKeepsWaitAnswerable(w: World, e: Event)
    requires Sound(w.session) && WaitIsAnswerable(w)
    ensures WaitIsAnswerable(Step(w, e))
  {
    hide Accounted, DoneAll, CloseAll, OnNote, SignalOf;
    match e
    case NotificationCame(note, at) => NoteKeepsWaitAnswerable(w, note, at);
    case CancelCalled(_, failing) => ClosingAllKeepsStatus(w.session.(status := Cancelled), failing);
    case ProcessLost(_, failing) => ClosingAllKeepsStatus(w.session, failing);
    case _ =>
  }

  lemma NoteKeepsWaitAnswerable(w: World, note: Note, at: int)
    requires WaitIsAnswerable(w)
    ensures WaitIsAnswerable(OnNote(w, note, at))
  {
    hide DoneAll, Record;
    var s := w.session;
    if note.StatusChanged? && note.threadStatus.Active? && s.open == [] {
      assert Unresolved(s) == {};
    }
  }

  lemma {:induction false} ClosingAllKeepsStatus(s: Session, failing: set<Rpc>)
    ensures CloseAll(s, failing).status == s.status
    decreases |s.open|
  {
    if s.open != [] { ClosingAllKeepsStatus(CloseFirst(s, failing), failing); }
  }

  ghost predicate AllSend(es: seq<Event>) { forall i :: 0 <= i < |es| ==> Sends(es[i]) }

  lemma {:induction false} RunKeeps(w: World, es: seq<Event>)
    requires Sound(w.session) && LegalRun(w, es)
    ensures Sound(RunAll(w, es).session)
    ensures WaitIsAnswerable(w) ==> WaitIsAnswerable(RunAll(w, es))
    ensures AllSend(es) ==> RunAll(w, es).session.undelivered == w.session.undelivered
    decreases |es|
  {
    hide Sound, WaitIsAnswerable, Step, Legal;
    if es != [] {
      StepKeeps(w, es[0]);
      if WaitIsAnswerable(w) { StepKeepsWaitAnswerable(w, es[0]); }
      RunKeeps(Step(w, es[0]), es[1..]);
    }
  }

  /** A session as it enters the store. */
  ghost predicate Opened(s: Session) {
    && s.objects == map[] && s.open == [] && s.armed == {} && s.asked == {} && s.wire == [] && s.undelivered == {}
    && !s.status.WaitingApproval?
  }

  /** Over every run no JSON-RPC id is answered twice, and each one asked has exactly one fate; while the
      client takes every answer, that is held open or answered. Open requests have live timers, and a
      waiting session has one. */
  lemma OneAnswerPerRequest(w: World, es: seq<Event>)
    requires Opened(w.session) && LegalRun(w, es)
    ensures var s := RunAll(w, es).session;
            && (forall i, j :: 0 <= i < j < |s.wire| ==> s.wire[i].rpc != s.wire[j].rpc)
            && (forall rpc :: OneFate(s, rpc))
            && (AllSend(es) ==> forall rpc :: rpc in s.asked ==> (Held(s, rpc) <==> !Told(s, rpc)))
            && Tended(s) && WaitIsAnswerable(RunAll(w, es))
  {
    hide RunAll, Step, Legal;
    RunKeeps(w, es);
    var s := RunAll(w, es).session;
    forall rpc | AllSend(es) && rpc in s.asked ensures Held(s, rpc) <==> !Told(s, rpc) {
      assert OneFate(s, rpc);
    }
  }

  /** What went on the wire stays there. */
  lemma {:induction false} ClosingOnlyAddsToWire(s: Session, failing: set<Rpc>)
    ensures s.wire <= CloseAll(s, failing).wire
    decreases |s.open|
  {
    if s.open != [] { ClosingOnlyAddsToWire(CloseFirst(s, failing), failing); }
  }

  lemma RequestOnlyAddsToWire(w: World, req: RequestId, rpc: Rpc, m: Method, sends: bool)
    ensures w.session.wire <= OnRequest(w, req, rpc, m, sends).session.wire
  {
    hide Notify, KindOf, DirectAnswer;
    var s := w.session.(asked := w.session.asked + {rpc});
    NotifyLeavesSession(w.(session := Deliver(s, rpc, DirectAnswer(m), sends)));
    if KindOf(m).Some? { NotifyLeavesSession(w.(session := HoldOpen(s, req, rpc, KindOf(m).value))); }
  }

  lemma AnswerOnlyAddsToWire(w: World, req: RequestId, answer: Answer, decision: Option<string>, sends: bool)
    requires Answerable(w.session, req)
    ensures w.session.wire <= OnAnswer(w, req, answer, decision, sends).session.wire
  {
    hide Notify, Without;
    NotifyLeavesSession(w.(session := Settled(SendAnswer(w.session, req, answer, decision, sends), req)));
  }

  lemma TimerOnlyAddsToWire(w: World, req: RequestId, sends: bool)
    ensures w.session.wire <= OnTimer(w, req, sends).session.wire
  {
    hide Without, DoneAll, SignalOf;
  }

  lemma WireOnlyGrows(w: World, e: Event)
    ensures w.session.wire <= Step(w, e).session.wire
  {
    hide CloseAll, DoneAll, OnNote, SignalOf, OnRequest, OnAnswer, OnTimer, Answerable;
    match e
    case NotificationCame(note, at) => NoteLeavesRequests(w, note, at);
    case RequestCame(req, rpc, m, sends) => RequestOnlyAddsToWire(w, req, rpc, m, sends);
    case ApprovalGiven(req, decision, valid, sends) =>
      if TakesApproval(w, req, valid) { AnswerOnlyAddsToWire(w, req, Decision(decision), Some(decision), sends); }
    case InputGiven(req, answers, sends) =>
      if TakesInput(w, req) { AnswerOnlyAddsToWire(w, req, Answers(answers), None, sends); }
    case TimerFired(req, sends) => TimerOnlyAddsToWire(w, req, sends);
    case CancelCalled(_, failing) => ClosingOnlyAddsToWire(w.session.(status := Cancelled), failing);
    case ProcessLost(_, failing) => ClosingOnlyAddsToWire(w.session, failing);
    case SessionEvicted(failing) => ClosingOnlyAddsToWire(w.session, failing);
    case _ =>
  }

  /** An answer the client did not take loses nothing: the next one that goes out is what the app-server reads. */
  lemma FailedAnswerCanBeRetried(w: World, req: RequestId, decision: string, later: string)
    requires Sound(w.session) && TakesApproval(w, req, true)
    ensures var failed := Step(w, ApprovalGiven(req, decision, true, false));
            && failed.session.wire == w.session.wire && failed.session.open == w.session.open
            && failed.session.armed == w.session.armed && failed.session.objects[req].decision.None?
            && failed.session.status == WaitingApproval
            && TakesApproval(failed, req, true)
            && var sent := Step(failed, ApprovalGiven(req, later, true, true));
               sent.session.wire == w.session.wire + [Delivery(w.session.objects[req].rpc, Decision(later))]
               && !Answerable(sent.session, req) && req !in sent.session.armed
  {
    hide DoneAll, Accounted;
    assert w.session.open != [];
  }

  lemma {:induction false} ClosingTellsTheRest(s: Session, failing: set<Rpc>, req: RequestId)
    requires Tended(s) && Accounted(s) && req in s.open
    ensures s.objects[req].rpc !in failing ==>
              Delivery(s.objects[req].rpc, CancelAnswer(s.objects[req].kind)) in CloseAll(s, failing).wire
    decreases |s.open|
  {
    var t, first := CloseFirst(s, failing), s.open[0];
    if s.objects[req].rpc !in failing {
      if first == req {
        assert t.wire[|s.wire|] == Delivery(s.objects[req].rpc, CancelAnswer(s.objects[req].kind));
        ClosingOnlyAddsToWire(t, failing);
      } else {
        assert Closes(s, t, first, CancelAnswer(s.objects[first].kind), s.objects[first].rpc !in failing) by {
          hide OneFate, Held, Told;
          assert t.objects == s.objects[first := s.objects[first].(resolved := true)];
        }
        ClosingTends(s, t, first, CancelAnswer(s.objects[first].kind), s.objects[first].rpc !in failing);
        ClosingAccounts(s, t, first, CancelAnswer(s.objects[first].kind), s.objects[first].rpc !in failing);
        ClosingTellsTheRest(t, failing, req);
      }
    }
  }

  /** Cancelling, losing the process or dropping the session answers every request it held open. */
  lemma GoingAwayAnswersEveryOpenRequest(w: World, e: Event, req: RequestId)
    requires Sound(w.session) && req in w.session.open
    requires (e.CancelCalled? || e.SessionEvicted? ==> w.registered)
    requires e.CancelCalled? || e.ProcessLost? || e.SessionEvicted?
    ensures var s, t := w.session, Step(w, e).session;
            t.open == [] && (s.objects[req].rpc !in e.failing ==>
              Delivery(s.objects[req].rpc, if s.objects[req].kind.UserInput? then Answers("") else Decision("cancel"))
              in t.wire)
  {
    hide CloseAll, DoneAll, Accounted;
    var s := if e.CancelCalled? then w.session.(status := Cancelled) else w.session;
    SameRequestsKeep(w.session, s);
    ClosingAllKeeps(s, e.failing);
    ClosingTellsTheRest(s, e.failing, req);
  }

  // Cancellation.

  /** The calls behind an await that assign the status whatever it has become meanwhile. */
  ghost predicate OverridesCancel(e: Event) {
    e.ReplyFailed? || e.ResumeFinished? || (e.ReplyOpened? && e.checkedEarlier)
  }

  /** A cancelled session leaves `cancelled` on exactly those, and no step gives it a request to hold. */
  lemma CancelledLeftExactlyByOverrides(w: World, e: Event)
    requires Sound(w.session) && Legal(w, e) && w.session.status == Cancelled
    ensures Step(w, e).session.status != Cancelled <==> OverridesCancel(e)
    ensures Step(w, e).session.open == []
  {
    hide CloseAll, DoneAll, Accounted, OnNote, SignalOf;
    if e.NotificationCame? { NoteLeavesRequests(w, e.note, e.at); }
    if e.ProcessLost? || e.SessionEvicted? { ClosingAllKeeps(w.session, e.failing); }
  }

  lemma {:induction false} CancelledStays(w: World, es: seq<Event>)
    requires Sound(w.session) && LegalRun(w, es) && w.session.status == Cancelled
    requires forall i :: 0 <= i < |es| ==> !OverridesCancel(es[i])
    ensures RunAll(w, es).session.status == Cancelled && RunAll(w, es).session.open == []
    decreases |es|
  {
    hide Tended, Accounted, Step, Legal;
    if es != [] {
      StepKeeps(w, es[0]);
      CancelledLeftExactlyByOverrides(w, es[0]);
      CancelledStays(Step(w, es[0]), es[1..]);
    }
  }
}
