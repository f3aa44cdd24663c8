/** What the app-server is told: every answer on the wire, who gave it, and that no decision is made up. */
module SessionAnswers {
  import opened Options
  import opened WarningRing
  import opened SessionState
  import opened SessionRequests
  import opened SessionRuns

  /** The answers the server gives by itself to a request it does not hold open. */
  predicate SelfGiven(m: Method, answer: Answer) {
    match m
    case CommandApproval => answer == Decision("cancel")
    case FileChangeApproval => answer == Decision("cancel")
    case UserInputRequest => answer == Answers("")
    case LegacyApproval => answer == Decision("denied")
    case _ => answer == Unsupported
  }

  /** The answer of an open request that nobody gave. */
  predicate ClosedWith(kind: Kind, decision: string, answer: Answer) {
    if kind.UserInput? then answer == Answers("") else answer == Decision(decision)
  }

  predicate IsOpen(s: Session, req: RequestId, question: bool) {
    req in s.open && req in s.objects && s.objects[req].kind.UserInput? == question
  }

  /** Why a step of `e` says this to the app-server. */
  ghost predicate SaidBy(s: Session, e: Event, d: Delivery) {
    match e
    case RequestCame(_, rpc, m, _) => d.rpc == rpc && SelfGiven(m, d.answer)
    case ApprovalGiven(req, decision, valid, sends) =>
      valid && sends && IsOpen(s, req, false) && d == Delivery(s.objects[req].rpc, Decision(decision))
    case InputGiven(req, answers, sends) =>
      sends && IsOpen(s, req, true) && d == Delivery(s.objects[req].rpc, Answers(answers))
    case TimerFired(req, _) =>
      req in s.objects && d.rpc == s.objects[req].rpc && ClosedWith(s.objects[req].kind, "decline", d.answer)
    case CancelCalled(_, _) => ClosesOne(s, d)
    case ProcessLost(_, _) => ClosesOne(s, d)
    case SessionEvicted(_) => ClosesOne(s, d)
    case _ => false
  }

  ghost predicate ClosesOne(s: Session, d: Delivery) {
    exists r :: r in s.open && r in s.objects && d.rpc == s.objects[r].rpc
                && ClosedWith(s.objects[r].kind, "cancel", d.answer)
  }

  lemma {:induction false} ClosingSays(s: Session, failing: set<Rpc>)
    requires Tended(s)
    ensures s.wire <= CloseAll(s, failing).wire
    ensures forall i :: |s.wire| <= i < |CloseAll(s, failing).wire| ==> ClosesOne(s, CloseAll(s, failing).wire[i])
    decreases |s.open|
  {
    if s.open != [] {
      var t, req := CloseFirst(s, failing), s.open[0];
      assert Tended(t) by {
        assert forall r :: r in s.open[1..] <==> r in s.open && r != req;
      }
      ClosingSays(t, failing);
      var wire := CloseAll(t, failing).wire;
      forall i | |s.wire| <= i < |wire| ensures ClosesOne(s, wire[i]) {
        if i == |s.wire| && |t.wire| > |s.wire| {
          assert wire[i] == t.wire[i];
          assert req in s.open;
        } else {
          assert ClosesOne(t, wire[i]);
          var r :| r in t.open && r in t.objects && wire[i].rpc == t.objects[r].rpc
                   && ClosedWith(t.objects[r].kind, "cancel", wire[i].answer);
          assert r in s.open && s.objects[r].kind == t.objects[r].kind;
        }
      }
    }
  }

  lemma RequestSays(w: World, req: RequestId, rpc: Rpc, m: Method, sends: bool)
    ensures var t := OnRequest(w, req, rpc, m, sends).session;
            || t.wire == w.session.wire
            || (t.wire == w.session.wire + [Delivery(rpc, DirectAnswer(m))] && SelfGiven(m, DirectAnswer(m)))
  {
    hide Notify;
    var s := w.session.(asked := w.session.asked + {rpc});
    NotifyLeavesSession(w.(session := Deliver(s, rpc, DirectAnswer(m), sends)));
    if KindOf(m).Some? { NotifyLeavesSession(w.(session := HoldOpen(s, req, rpc, KindOf(m).value))); }
  }

  lemma AnswerSays(w: World, req: RequestId, answer: Answer, decision: Option<string>, sends: bool)
    requires Answerable(w.session, req)
    ensures var t := OnAnswer(w, req, answer, decision, sends).session;
            t.wire == w.session.wire + if sends then [Delivery(w.session.objects[req].rpc, answer)] else []
  {
    hide Notify, Without;
    assert w.session.wire + [] == w.session.wire;
    NotifyLeavesSession(w.(session := Settled(SendAnswer(w.session, req, answer, decision, sends), req)));
  }

  /** Nobody answers an open request in time: an approval is declined and a question answered empty, once. */
  lemma TimeoutDeclines(w: World, req: RequestId, sends: bool)
    requires Sound(w.session) && req in w.session.open
    ensures var s, t := w.session, Step(w, TimerFired(req, sends)).session;
            var answer := if s.objects[req].kind.UserInput? then Answers("") else Decision("decline");
            && t.wire == s.wire + (if sends then [Delivery(s.objects[req].rpc, answer)] else [])
            && req in t.objects && t.objects[req].resolved && req !in t.open && req !in t.armed
            && (!s.objects[req].kind.UserInput? ==> t.objects[req].decision == Some("decline"))
            && (s.objects[req].kind.UserInput? ==> t.objects[req].decision == s.objects[req].decision)
  {
    hide Notify, Accounted;
    var s, obj := w.session.(armed := w.session.armed - {req}), w.session.objects[req];
    var timedOut := s.(objects := s.objects[req := obj.(resolved := true,
                         decision := if obj.kind.UserInput? then obj.decision else Some("decline"))]);
    assert w.session.wire + [] == w.session.wire;
    NotifyLeavesSession(w.(session := Settled(Deliver(timedOut, obj.rpc, TimeoutAnswer(obj.kind), sends), req)));
  }

  /** A timer whose request was answered says nothing. */
  lemma LateTimerSaysNothing(w: World, req: RequestId, sends: bool)
    requires Sound(w.session) && req !in w.session.open
    ensures Step(w, TimerFired(req, sends)) == w
  {
    hide Accounted;
  }

  lemma ClosingStepSays(w: World, e: Event)
    requires Sound(w.session) && (e.CancelCalled? || e.ProcessLost? || e.SessionEvicted?)
    ensures var s, t := w.session, Step(w, e).session;
            s.wire <= t.wire && forall i :: |s.wire| <= i < |t.wire| ==> ClosesOne(s, t.wire[i])
  {
    hide Accounted, DoneAll, CloseAll, ClosedWith;
    var s := if e.CancelCalled? then w.session.(status := Cancelled) else w.session;
    ClosingSays(s, e.failing);
    var closed := CloseAll(s, e.failing).wire;
    forall i | |s.wire| <= i < |closed| ensures ClosesOne(w.session, closed[i]) {
      assert ClosesOne(s, closed[i]);
    }
  }

  /** Every step only adds to the wire, and only what its event accounts for. */
  lemma StepSays(w: World, e: Event)
    requires Sound(w.session)
    ensures var s, t := w.session, Step(w, e).session;
            s.wire <= t.wire && forall i :: |s.wire| <= i < |t.wire| ==> SaidBy(s, e, t.wire[i])
  {
    hide Accounted, DoneAll, CloseAll, OnNote, OnRequest, OnAnswer, OnTimer, OnCancel, OnLoss, OnEvict, SignalOf,
         ClosesOne;
    match e
    case NotificationCame(note, at) => NoteLeavesRequests(w, note, at);
    case RequestCame(req, rpc, m, sends) => RequestSays(w, req, rpc, m, sends);
    case ApprovalGiven(req, decision, valid, sends) =>
      if TakesApproval(w, req, valid) { AnswerSays(w, req, Decision(decision), Some(decision), sends); }
    case InputGiven(req, answers, sends) =>
      if TakesInput(w, req) { AnswerSays(w, req, Answers(answers), None, sends); }
    case TimerFired(req, sends) =>
      if req in w.session.open { TimeoutDeclines(w, req, sends); } else { LateTimerSaysNothing(w, req, sends); }
    case CancelCalled(_, _) => ClosingStepSays(w, e);
    case ProcessLost(_, _) => ClosingStepSays(w, e);
    case SessionEvicted(_) => ClosingStepSays(w, e);
    case _ =>
  }

  /** What an answered request leaves: its object resolved, its slot and timer gone, and the status the last open one
      gives back. */
  ghost predicate ClosedBy(s: Session, t: Session, req: RequestId, decision: Option<string>) {
    && req in s.objects && t.objects == s.objects[req := s.objects[req].(resolved := true, decision := decision)]
    && (forall r :: r in t.open <==> r in s.open && r != req) && t.armed == s.armed - {req}
    && t.status == if t.open == [] && s.status == WaitingApproval then Running else s.status
  }

  /** The caller's decision on an open approval is what the app-server is told; one for anything else is refused. */
  lemma DecisionIsPassedOn(w: World, req: RequestId, decision: string, valid: bool)
    requires Sound(w.session)
    ensures var s, t := w.session, Step(w, ApprovalGiven(req, decision, valid, true));
            if w.registered && valid && IsOpen(s, req, false) then
              && t.session.wire == s.wire + [Delivery(s.objects[req].rpc, Decision(decision))]
              && ClosedBy(s, t.session, req, Some(decision))
            else t == w
  {
    hide Notify, Accounted;
    if w.registered && valid && IsOpen(w.session, req, false) {
      AnswerSays(w, req, Decision(decision), Some(decision), true);
      var sent := SendAnswer(w.session, req, Decision(decision), Some(decision), true);
      NotifyLeavesSession(w.(session := Settled(sent, req)));
    }
  }

  /** And so are the answers to an open question. */
  lemma AnswersArePassedOn(w: World, req: RequestId, answers: string)
    requires Sound(w.session)
    ensures var s, t := w.session, Step(w, InputGiven(req, answers, true));
            if w.registered && IsOpen(s, req, true) then
              && t.session.wire == s.wire + [Delivery(s.objects[req].rpc, Answers(answers))]
              && ClosedBy(s, t.session, req, s.objects[req].decision)
            else t == w
  {
    hide Notify, Accounted;
    if w.registered && IsOpen(w.session, req, true) {
      AnswerSays(w, req, Answers(answers), None, true);
      NotifyLeavesSession(w.(session := Settled(SendAnswer(w.session, req, Answers(answers), None, true), req)));
    }
  }

  /** A request this server does not hold open is answered at once, and in a terminal session every one is. */
  lemma AnsweredAtOnce(w: World, req: RequestId, rpc: Rpc, m: Method)
    requires || w.session.status == Cancelled || w.session.status == Errored
             || (m != CommandApproval && m != FileChangeApproval && m != UserInputRequest)
    ensures var s, t := w.session, Step(w, RequestCame(req, rpc, m, true)).session;
            && |t.wire| == |s.wire| + 1 && t.wire[..|s.wire|] == s.wire
            && t.wire[|s.wire|].rpc == rpc && SelfGiven(m, t.wire[|s.wire|].answer)
            && t.objects == s.objects && t.open == s.open && t.status == s.status
  {
    hide DoneAll, SignalOf;
  }

  /** Any other is held open, unresolved, and nothing is said. */
  lemma HeldUntilAnswered(w: World, req: RequestId, rpc: Rpc, m: Method, sends: bool)
    requires w.session.status != Cancelled && w.session.status != Errored && req !in w.session.open
    requires m == CommandApproval || m == FileChangeApproval || m == UserInputRequest
    ensures var s, t := w.session, Step(w, RequestCame(req, rpc, m, sends)).session;
            && t.wire == s.wire && t.open == s.open + [req] && t.status == WaitingApproval && req in t.armed
            && req in t.objects && t.objects[req].rpc == rpc && !t.objects[req].resolved
            && t.objects[req].decision == None && (t.objects[req].kind == UserInput <==> m == UserInputRequest)
            && (t.objects[req].kind == Command <==> m == CommandApproval)
  {
    hide DoneAll, SignalOf;
  }

  // Over runs.

  /** Whatever a run added to the wire was said by one of its steps. */
  lemma {:induction false} SaidAlong(w: World, es: seq<Event>, i: nat) returns (k: nat)
    requires Sound(w.session) && LegalRun(w, es)
    requires |w.session.wire| <= i < |RunAll(w, es).session.wire|
    ensures k < |es| && SaidBy(RunAll(w, es[..k]).session, es[k], RunAll(w, es).session.wire[i])
    decreases |es|
  {
    hide Sound, Step, Legal, SaidBy;
    var t, rest := Step(w, es[0]), es[1..];
    StepKeeps(w, es[0]);
    StepSays(w, es[0]);
    RunOnlyAddsToWire(t, rest);
    if i < |t.session.wire| {
      k := 0;
      assert es[..0] == [];
      assert RunAll(w, es).session.wire[i] == t.session.wire[i];
    } else {
      var j := SaidAlong(t, rest, i);
      k := j + 1;
      assert es[..k][0] == es[0] && es[..k][1..] == rest[..j];
    }
  }

  lemma {:induction false} RunOnlyAddsToWire(w: World, es: seq<Event>)
    ensures w.session.wire <= RunAll(w, es).session.wire
    decreases |es|
  {
    hide Step;
    if es != [] {
      WireOnlyGrows(w, es[0]);
      RunOnlyAddsToWire(Step(w, es[0]), es[1..]);
    }
  }

  /** The caller gave this decision, or these answers, for the request the app-server knows by `rpc`. */
  ghost predicate CallerGave(w: World, es: seq<Event>, rpc: Rpc, answer: Answer) {
    exists k :: 0 <= k < |es| && GaveAt(RunAll(w, es[..k]).session, es[k], rpc, answer)
  }

  ghost predicate GaveAt(s: Session, e: Event, rpc: Rpc, answer: Answer) {
    match e
    case ApprovalGiven(req, decision, valid, _) =>
      valid && IsOpen(s, req, false) && s.objects[req].rpc == rpc && answer == Decision(decision)
    case InputGiven(req, answers, _) =>
      IsOpen(s, req, true) && s.objects[req].rpc == rpc && answer == Answers(answers)
    case _ => false
  }

  /** No decision is made up: over any run what the app-server reads beyond a decline, a cancel, a denial, an empty
      answer or a refusal was given by the caller, in that run and for that request. */
  lemma NoDecisionIsMadeUp(w: World, es: seq<Event>, i: nat)
    requires Sound(w.session) && LegalRun(w, es)
    requires |w.session.wire| <= i < |RunAll(w, es).session.wire|
    ensures var d := RunAll(w, es).session.wire[i];
            || d.answer == Unsupported || d.answer == Answers("")
            || d.answer == Decision("decline") || d.answer == Decision("cancel") || d.answer == Decision("denied")
            || CallerGave(w, es, d.rpc, d.answer)
  {
    hide Sound, RunAll, LegalRun;
    var k := SaidAlong(w, es, i);
    var s, d := RunAll(w, es[..k]).session, RunAll(w, es).session.wire[i];
    if es[k].ApprovalGiven? || es[k].InputGiven? { assert GaveAt(s, es[k], d.rpc, d.answer); }
  }
}
