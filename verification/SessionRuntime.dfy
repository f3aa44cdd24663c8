/** The handlers as they run: each assigns fields of one session and its pollers, and ends where its step does. */
module SessionRuntime {
  import opened Options
  import opened WarningRing
  import opened SessionState
  import opened SessionRequests
  import SessionRuns
  import opened SessionPolls

  /** How a caller's answer came back: the errors the call throws, or none. */
  datatype AnswerOutcome = Taken | NotFound | NotAnApproval | InvalidDecision | SendFailed

  datatype WaitOutcome = Registered | AlreadyAborted | TooManyWaiters | NoSession

  datatype Calls = Calls(asked: set<Rpc>, wire: seq<Delivery>, undelivered: set<Rpc>)

  datatype Waits = Waits(refused: set<WaiterId>, seen: set<WaiterId>, resolved: map<WaiterId, nat>)

  class Runtime {
    var status: Status
    var activeTurnId: Option<string>
    /** Every request object alive, in the map or held by a timeout closure. */
    var objects: map<RequestId, Pending>
    /** The keys of the session's `pendingRequests`, as inserted. */
    var open: seq<RequestId>
    var armed: set<RequestId>
    var lastResult: Option<TurnResult>
    var activity: Option<Activity>
    var warnings: seq<Warning>
    var warningSeq: nat
    var registered: bool
    var lastNotifiedSignal: Option<Signal>
    var notifiers: seq<WaiterId>
    var timers: set<WaiterId>
    var listeners: set<WaiterId>
    /** What the app-server asked and was told, and who waited and was resolved. */
    ghost var calls: Calls
    ghost var waits: Waits

    ghost function Now(): World
      reads this
    {
      World(
        Session(status, activeTurnId, objects, open, armed, lastResult, activity, Ring(warnings, warningSeq),
                calls.asked, calls.wire, calls.undelivered),
        registered,
        Polls(lastNotifiedSignal, notifiers, timers, listeners, waits.refused, waits.seen, waits.resolved))
    }

    /** Take a new session into the store with the signal it starts on. */
    constructor (initial: Status)
      ensures Now().session == Session(initial, None, map[], [], {}, None, None, Empty, {}, [], {})
      ensures registered && Now().polls == Polls(Some(SignalOf(Now().session)), [], {}, {}, {}, {}, map[])
    {
      status, activeTurnId := initial, None;
      objects, open, armed := map[], [], {};
      lastResult, activity, warnings, warningSeq := None, None, [], 0;
      registered := true;
      notifiers, timers, listeners := [], {}, {};
      calls, waits := Calls({}, [], {}), Waits({}, {}, map[]);
      lastNotifiedSignal := None;
      new;
      lastNotifiedSignal := Some(SignalNow());
    }

    function UnresolvedNow(): set<RequestId>
      reads this
    {
      set r | r in open && r in objects && !objects[r].resolved
    }

    function SignalNow(): (signal: Signal)
      reads this
      ensures signal == SignalAt(Now())
    {
      if !registered then Gone
      else
        Signal(
          if status.Idle? && activeTurnId.Some? then Running else status,
          UnresolvedNow(),
          if lastResult.Some? then Some(lastResult.value.completedAt) else None,
          if activity.Some? then Some(activity.value.at) else None,
          warningSeq)
    }

    // waiters.ts

    method Resolve(q: WaiterId)
      modifies this
      ensures Now() == old(Now()).(polls := Done(old(Now()).polls, q))
    {
      waits := waits.(resolved := waits.resolved[q := TimesResolved(Now().polls, q) + 1]);
      notifiers := Without(notifiers, q);
      timers := timers - {q};
      listeners := listeners - {q};
    }

    method NotifyWaiters()
      modifies this
      ensures Now() == Notify(old(Now()))
    {
      var signal := SignalNow();
      if lastNotifiedSignal == Some(signal) { return; }
      lastNotifiedSignal := Some(signal);
      var snapshot := notifiers;
      var i := 0;
      assert snapshot[0..] == snapshot;
      while i < |snapshot|
        invariant i <= |snapshot|
        invariant Now() == old(Now()).(polls := Now().polls)
        invariant DoneAll(Now().polls, snapshot[i..])
               == DoneAll(old(Now()).polls.(lastNotified := Some(signal)), snapshot)
      {
        Resolve(snapshot[i]);
        assert snapshot[i..][1..] == snapshot[i + 1..];
        i := i + 1;
      }
    }

    method WaitForChange(q: WaiterId, signal: AbortSignal) returns (outcome: WaitOutcome)
      modifies this
      ensures Now() == Wait(old(Now()), q, signal)
      ensures outcome.TooManyWaiters? <==>
                registered && !signal.Aborted? && |old(notifiers)| >= MAX_WAITERS_PER_SESSION
    {
      if !registered { return NoSession; }
      waits := waits.(seen := waits.seen + {q});
      if signal.Aborted? {
        waits := waits.(resolved := waits.resolved[q := TimesResolved(Now().polls, q) + 1]);
        return AlreadyAborted;
      }
      if |notifiers| >= MAX_WAITERS_PER_SESSION {
        waits := waits.(refused := waits.refused + {q});
        return TooManyWaiters;
      }
      timers := timers + {q};
      if signal.Live? { listeners := listeners + {q}; }
      notifiers := notifiers + [q];
      return Registered;
    }

    // pending-requests.ts, server-requests.ts, approvals.ts

    /** One answer handed to the client; the history records whether it took it. */
    ghost method Send(rpc: Rpc, answer: Answer, sends: bool)
      modifies this
      ensures Now() == old(Now()).(session := Deliver(old(Now()).session, rpc, answer, sends))
    {
      calls := if sends then calls.(wire := calls.wire + [Delivery(rpc, answer)])
               else calls.(undelivered := calls.undelivered + {rpc});
    }

    method SettlePendingRequest(req: RequestId)
      modifies this
      ensures Now() == Notify(old(Now()).(session := Settled(old(Now()).session, req)))
    {
      open := Without(open, req);
      if open == [] && status == WaitingApproval { status := Running; }
      NotifyWaiters();
    }

    method AwaitPendingRequest(req: RequestId, rpc: Rpc, kind: Kind)
      modifies this
      ensures Now() == old(Now()).(session := HoldOpen(old(Now()).session, req, rpc, kind))
    {
      armed := armed + {req};
      objects := objects[req := Pending(rpc, kind, false, None)];
      open := open + [req];
      status := WaitingApproval;
    }

    /** A server request: a terminal session answers it at once, an approval or a question is held open. */
    method HandleServerRequest(req: RequestId, rpc: Rpc, m: Method, sends: bool)
      modifies this
      ensures Now() == OnRequest(old(Now()), req, rpc, m, sends)
    {
      hide Notify, SignalAt;
      calls := calls.(asked := calls.asked + {rpc});
      if status == Cancelled || status == Errored {
        Send(rpc, DirectAnswer(m), sends);
        return;
      }
      match m {
      case CommandApproval => AwaitPendingRequest(req, rpc, Command);
      case FileChangeApproval => AwaitPendingRequest(req, rpc, FileChange);
      case UserInputRequest => AwaitPendingRequest(req, rpc, UserInput);
      case DynamicToolCall => Send(rpc, Unsupported, sends);
      case AuthRefresh => Send(rpc, Unsupported, sends);
      case LegacyApproval => Send(rpc, Decision("denied"), sends);
      case UnknownMethod => Send(rpc, Unsupported, sends);
      }
      NotifyWaiters();
    }

    /** The answer did not go out: the request stands as it did, and the session waits on it. */
    method PutBack(req: RequestId, decided: bool)
      requires req in objects
      modifies this
      ensures Now() == old(Now()).(session := old(Now()).session.(
                objects := old(objects)[req := old(objects)[req].(resolved := false,
                  decision := if decided then None else old(objects)[req].decision)],
                status := if old(status).Cancelled? then Cancelled else WaitingApproval))
    {
      var put := objects[req];
      objects := objects[req := put.(resolved := false, decision := if decided then None else put.decision)];
      if status != Cancelled { status := WaitingApproval; }
    }

    method SendPendingAnswer(req: RequestId, answer: Answer, decision: Option<string>, sends: bool)
      requires Answerable(Now().session, req)
      modifies this
      ensures Now() == old(Now()).(session := SendAnswer(old(Now()).session, req, answer, decision, sends))
    {
      var was := objects[req];
      objects := objects[req := was.(resolved := true, decision := if decision.Some? then decision else was.decision)];
      if !sends {
        PutBack(req, decision.Some?);
        assert old(objects)[req := objects[req]] == objects;
        return;
      }
      Send(was.rpc, answer, true);
      armed := armed - {req};
    }

    method ResolveApproval(req: RequestId, decision: string, valid: bool, sends: bool)
      returns (outcome: AnswerOutcome)
      requires Tended(Now().session)
      modifies this
      ensures Now() == Step(old(Now()), ApprovalGiven(req, decision, valid, sends))
      ensures outcome.NotFound? <==> !(old(registered) && req in old(open))
      ensures outcome.Taken? <==> TakesApproval(old(Now()), req, valid) && sends
      ensures outcome.SendFailed? <==> TakesApproval(old(Now()), req, valid) && !sends
    {
      if !registered || req !in open || objects[req].resolved { return NotFound; }
      if objects[req].kind == UserInput { return NotAnApproval; }
      if !valid { return InvalidDecision; }
      SendPendingAnswer(req, Decision(decision), Some(decision), sends);
      if !sends { return SendFailed; }
      SettlePendingRequest(req);
      return Taken;
    }

    method ResolveUserInput(req: RequestId, answers: string, sends: bool) returns (outcome: AnswerOutcome)
      requires Tended(Now().session)
      modifies this
      ensures Now() == Step(old(Now()), InputGiven(req, answers, sends))
      ensures outcome.Taken? <==> TakesInput(old(Now()), req) && sends
      ensures outcome.SendFailed? <==> TakesInput(old(Now()), req) && !sends
    {
      if !registered || req !in open || objects[req].resolved || objects[req].kind != UserInput {
        return NotFound;
      }
      SendPendingAnswer(req, Answers(answers), None, sends);
      if !sends { return SendFailed; }
      SettlePendingRequest(req);
      return Taken;
    }

    /** The timeout closure of one request. */
    method FireTimeout(req: RequestId, sends: bool)
      modifies this
      ensures Now() == OnTimer(old(Now()), req, sends)
    {
      hide Notify, SignalAt;
      if req !in armed || req !in objects { return; }
      armed := armed - {req};
      if objects[req].resolved { return; }
      var pending := objects[req];
      objects := objects[req := pending.(resolved := true,
        decision := if pending.kind == UserInput then pending.decision else Some("decline"))];
      Send(pending.rpc, TimeoutAnswer(pending.kind), sends);
      SettlePendingRequest(req);
    }

    /** Close every request of a session that goes away, in the order they came. */
    method ClearPendingRequests(ghost failing: set<Rpc>)
      modifies this
      ensures Now() == old(Now()).(session := CloseAll(old(Now()).session, failing))
    {
      while open != []
        invariant CloseAll(Now().session, failing) == CloseAll(old(Now()).session, failing)
        invariant Now() == old(Now()).(session := Now().session)
        decreases |open|
      {
        ClosePendingRequest(failing);
      }
    }

    /** The oldest request leaves the map: its timer stops, and an unanswered one is answered `cancel`. */
    method ClosePendingRequest(ghost failing: set<Rpc>)
      requires open != []
      modifies this
      ensures Now() == old(Now()).(session := CloseFirst(old(Now()).session, failing))
    {
      var req := open[0];
      open := open[1..];
      armed := armed - {req};
      if req in objects && !objects[req].resolved {
        var pending := objects[req];
        objects := objects[req := pending.(resolved := true)];
        Send(pending.rpc, CancelAnswer(pending.kind), pending.rpc !in failing);
      }
    }

    // cleanup.ts, handlers.ts, store.ts

    method PerformCancelSession(at: int, ghost failing: set<Rpc>)
      modifies this
      ensures Now() == OnCancel(old(Now()), at, failing)
    {
      hide Notify, SignalAt, CloseAll;

      if !registered || status == Cancelled { return; }
      status := Cancelled;
      ClearPendingRequests(failing);
      var cancelledTurnId := activeTurnId;
      activeTurnId := None;
      if lastResult.None? { lastResult := Some(TurnResult(cancelledTurnId, Stopped, at)); }
      NotifyWaiters();
    }

    method FailOnSubprocessLoss(at: int, ghost failing: set<Rpc>)
      modifies this
      ensures Now() == OnLoss(old(Now()), at, failing)
    {
      hide Notify, SignalAt, CloseAll;
      ClearPendingRequests(failing);
      if status == Running || status == WaitingApproval {
        status := Errored;
        var failedTurnId := activeTurnId;
        activeTurnId := None;
        lastResult := Some(TurnResult(failedTurnId, Failed, at));
        NotifyWaiters();
      }
    }

    method EvictSession(ghost failing: set<Rpc>)
      modifies this
      ensures Now() == OnEvict(old(Now()), failing)
    {
      hide Notify, SignalAt, CloseAll;
      if !registered { return; }
      ClearPendingRequests(failing);
      registered := false;
      NotifyWaiters();
      lastNotifiedSignal := None;
    }

    // turns.ts, fork-resume.ts

    method OpenReplyTurn(checkedEarlier: bool)
      modifies this
      ensures Now() == Step(old(Now()), ReplyOpened(checkedEarlier))
    {
      if !checkedEarlier && !(registered && (status == Idle || status == Errored)) { return; }
      lastResult := None;
      status := Running;
    }

    method EndReply(started: bool, turn: Option<string>)
      modifies this
      ensures Now() == Step(old(Now()), if started then ReplyStarted(turn) else ReplyFailed)
    {
      if !started { status := Errored; }
      else if turn.Some? { activeTurnId := turn; }
    }

    method FinishResume()
      modifies this
      ensures Now() == Step(old(Now()), ResumeFinished)
    {
      status := Idle;
      NotifyWaiters();
    }

    // notifications.ts, notifications-stream.ts

    method ShiftOldest()
      modifies this
      ensures Now() == old(Now()).(session := old(Now()).session.(ring := Ring(warnings, warningSeq)))
      ensures warningSeq == old(warningSeq) && warnings == Newest(old(warnings), MAX_SESSION_WARNINGS)
    {
      while |warnings| > MAX_SESSION_WARNINGS
        invariant Now() == old(Now()).(session := old(Now()).session.(ring := Ring(warnings, warningSeq)))
        invariant warningSeq == old(warningSeq)
        invariant Newest(warnings, MAX_SESSION_WARNINGS) == Newest(old(warnings), MAX_SESSION_WARNINGS)
      {
        warnings := warnings[1..];
      }
    }

    method RecordWarning(method_: string, message: Option<string>, at: int)
      modifies this
      ensures Now() == SessionState.RecordWarning(old(Now()), method_, message, at)
    {
      hide Notify, SignalAt;
      if message.None? { return; }
      if warnings != [] && warnings[|warnings| - 1].method_ == method_
         && warnings[|warnings| - 1].message == message.value {
        warnings := warnings[|warnings| - 1 := Warning(method_, message.value, at)];
        return;
      }
      warnings := warnings + [Warning(method_, message.value, at)];
      ShiftOldest();
      warningSeq := warningSeq + 1;
      NotifyWaiters();
    }

    method OnHookNotification(hook: string, held: Option<string>, display: Option<string>, at: int)
      modifies this
      ensures Now() == OnNote(old(Now()), HookRan(hook, held, display), at)
    {
      hide Notify, SignalAt, Newest, Record, SessionState.RecordWarning;
      RecordWarning(hook, held, at);
      SessionRuns.WarningLeavesRequests(old(Now()), hook, held, at);
      if display.None? || (activity.Some? && !activity.value.fromHook) { return; }
      if activity.Some? && activity.value.line == display.value { return; }
      activity := Some(Activity(display.value, at, true));
      NotifyWaiters();
    }

    /** The lines that closed on one delta: the last one stands. */
    method OnAgentMessageDelta(lines: seq<string>, at: int)
      modifies this
      ensures Now() == OnNote(old(Now()), Delta(lines), at)
    {
      hide Notify, SignalAt;
      for i := 0 to |lines|
        invariant Now() == if i == 0 then old(Now())
                           else SessionState.RecordActivity(old(Now()), lines[i - 1], at, false)
      {
        activity := Some(Activity(lines[i], at, false));
      }
      if |lines| > 0 { NotifyWaiters(); }
    }

    method OnThreadStatusChanged(t: ThreadStatus, at: int)
      modifies this
      ensures Now() == OnNote(old(Now()), StatusChanged(t), at)
    {
      if status == Cancelled || status == Errored { return; }
      var waitingOnCaller := UnresolvedNow() != {};
      match t
      case Active => if waitingOnCaller { status := WaitingApproval; }
      case ThreadIdle => if !waitingOnCaller { status := Idle; }
      case SystemError => status := Errored;
      case OtherStatus =>
    }

    /** The notifications a cancelled session no longer acts on. */
    method OnLiveTurn(note: Note, at: int)
      requires note.TurnStarted? || note.TurnCompleted? || note.ErrorNote?
      modifies this
      ensures Now() == OnNote(old(Now()), note, at)
    {
      if status == Cancelled { return; }
      match note {
        case TurnStarted(turn) => activeTurnId, activity := turn, None;
        case TurnCompleted(completed) =>
          status, activeTurnId := Idle, None;
          lastResult := Some(TurnResult(completed, Completed, at));
        case ErrorNote(willRetry) => if !willRetry { status := Errored; }
      }
    }

    method OnAutoApprovalReviewCompleted(verdict: Option<string>, at: int)
      modifies this
      ensures Now() == OnNote(old(Now()), Reviewed(verdict), at)
    {
      if verdict.Some? { activity := Some(Activity(verdict.value, at, false)); }
    }

    method OnWarningNotification(method_: string, message: Option<string>, at: int)
      modifies this
      ensures Now() == OnNote(old(Now()), Warned(method_, message), at)
    {
      hide Notify, Record, Repeats;
      RecordWarning(method_, message, at);
    }

    /** Every notification: act on it, then wake whoever it moved. */
    method HandleNotification(note: Note, at: int)
      modifies this
      ensures Now() == Notify(OnNote(old(Now()), note, at))
    {
      assert note.OtherNote? ==> OnNote(Now(), note, at) == Now();
      hide Notify, OnNote;
      match note {
        case TurnStarted(_) => OnLiveTurn(note, at);
        case TurnCompleted(_) => OnLiveTurn(note, at);
        case ErrorNote(_) => OnLiveTurn(note, at);
        case StatusChanged(t) => OnThreadStatusChanged(t, at);
        case Delta(lines) => OnAgentMessageDelta(lines, at);
        case Warned(method_, message) => OnWarningNotification(method_, message, at);
        case HookRan(hook, held, display) => OnHookNotification(hook, held, display, at);
        case Reviewed(verdict) => OnAutoApprovalReviewCompleted(verdict, at);
        case OtherNote =>
      }
      NotifyWaiters();
    }

    /** The requests are tended and accounted for, and the pollers fit the session. */
    ghost predicate Valid() reads this { Sound(Now().session) && PollsFit(Now()) }

    /** Whatever arrives, the object takes the step of the model and keeps what every step keeps. */
    method Handle(e: Event)
      requires Valid() && Legal(Now(), e)
      modifies this
      ensures Now() == Step(old(Now()), e) && Valid()
      ensures old(WaitIsAnswerable(Now())) ==> WaitIsAnswerable(Now())
    {
      hide Notify, SignalAt, Accounted, Tended, PollsFit, WaitIsAnswerable, OnNote, OnRequest, OnAnswer, OnTimer,
        OnCancel, OnLoss, OnEvict, Wait, Done;
      ghost var w := Now();
      SessionRuns.StepKeeps(w, e);
      StepKeepsPolls(w, e);
      if WaitIsAnswerable(w) { SessionRuns.StepKeepsWaitAnswerable(w, e); }
      match e {
        case NotificationCame(note, at) => HandleNotification(note, at);
        case RequestCame(req, rpc, m, sends) => HandleServerRequest(req, rpc, m, sends);
        case ApprovalGiven(req, decision, valid, sends) =>
          var _ := ResolveApproval(req, decision, valid, sends);
        case InputGiven(req, answers, sends) => var _ := ResolveUserInput(req, answers, sends);
        case TimerFired(req, sends) => FireTimeout(req, sends);
        case CancelCalled(at, failing) => PerformCancelSession(at, failing);
        case ProcessLost(at, failing) => FailOnSubprocessLoss(at, failing);
        case SessionEvicted(failing) => EvictSession(failing);
        case ReplyOpened(checkedEarlier) => OpenReplyTurn(checkedEarlier);
        case ReplyStarted(turn) => EndReply(true, turn);
        case ReplyFailed => EndReply(false, None);
        case ResumeFinished => FinishResume();
        case WaitCalled(q, signal) => var _ := WaitForChange(q, signal);
        case WaitTimedOut(q) => if q in timers { Resolve(q); }
        case WaitAborted(q) => if q in listeners { Resolve(q); }
      }
    }
  }
}
