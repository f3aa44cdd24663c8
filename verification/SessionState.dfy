/**
 * One session of the runtime as the handlers see it: its status, the requests it holds open for
 * the caller, what went back on the wire, and who sleeps on it.
 */
module SessionState {
  import opened Options
  import opened WarningRing

  const MAX_WAITERS_PER_SESSION := 4

  /** A JSON-RPC id of the app-server, together with the connection it arrived on. */
  type Rpc = int
  type RequestId = int
  type WaiterId = int

  datatype Status = Running | Idle | WaitingApproval | Errored | Cancelled | Abandoned

  datatype Kind = Command | FileChange | UserInput

  datatype Answer = Decision(decision: string) | Answers(answers: string) | Unsupported

  /** One answer the client took for the app-server. */
  datatype Delivery = Delivery(rpc: Rpc, answer: Answer)

  /** A request object; its timeout closure keeps it even after it leaves the session's map. */
  datatype Pending = Pending(rpc: Rpc, kind: Kind, resolved: bool, decision: Option<string>)

  datatype Outcome = Completed | Failed | Stopped

  datatype TurnResult = TurnResult(turnId: Option<string>, outcome: Outcome, completedAt: int)

  datatype Activity = Activity(line: string, at: int, fromHook: bool)

  /** `open` lists the keys of the session's map as inserted; `armed` the requests whose timer runs.
      `asked`, `wire` and `undelivered` are the history of the app-server's requests. */
  datatype Session = Session(
    status: Status,
    activeTurnId: Option<string>,
    objects: map<RequestId, Pending>,
    open: seq<RequestId>,
    armed: set<RequestId>,
    lastResult: Option<TurnResult>,
    activity: Option<Activity>,
    ring: Ring,
    asked: set<Rpc>,
    wire: seq<Delivery>,
    undelivered: set<Rpc>)

  /** What a long poll wakes on. */
  datatype Signal =
    | Signal(shown: Status, waiting: set<RequestId>, completedAt: Option<int>, activityAt: Option<int>,
             warningSeq: nat)
    | Gone

  /** The sleepers of one session; `seen` and `resolved` are their history. */
  datatype Polls = Polls(
    lastNotified: Option<Signal>,
    waiters: seq<WaiterId>,
    timers: set<WaiterId>,
    listeners: set<WaiterId>,
    refused: set<WaiterId>,
    seen: set<WaiterId>,
    resolved: map<WaiterId, nat>)

  datatype World = World(session: Session, registered: bool, polls: Polls)

  // What arrives.

  datatype ThreadStatus = Active | ThreadIdle | SystemError | OtherStatus

  datatype Note =
    | TurnStarted(turn: Option<string>)
    | TurnCompleted(completed: Option<string>)
    | ErrorNote(willRetry: bool)
    | StatusChanged(threadStatus: ThreadStatus)
    | Delta(lines: seq<string>)
    | Warned(method_: string, message: Option<string>)
    | HookRan(hook: string, held: Option<string>, display: Option<string>)
    | Reviewed(verdict: Option<string>)
    | OtherNote

  datatype Method =
    | CommandApproval | FileChangeApproval | UserInputRequest
    | DynamicToolCall | AuthRefresh | LegacyApproval | UnknownMethod

  datatype AbortSignal = NoSignal | Live | Aborted

  /** `sends` says whether the client takes the answer of the step, `failing` which answers it refuses. */
  datatype Event =
    | NotificationCame(note: Note, at: int)
    | RequestCame(req: RequestId, rpc: Rpc, method_: Method, sends: bool)
    | ApprovalGiven(req: RequestId, decision: string, valid: bool, sends: bool)
    | InputGiven(req: RequestId, answers: string, sends: bool)
    | TimerFired(req: RequestId, sends: bool)
    | CancelCalled(at: int, failing: set<Rpc>)
    | ProcessLost(at: int, failing: set<Rpc>)
    | SessionEvicted(failing: set<Rpc>)
    | ReplyOpened(checkedEarlier: bool)
    | ReplyStarted(turn: Option<string>)
    | ReplyFailed
    | ResumeFinished
    | WaitCalled(waiter: WaiterId, signal: AbortSignal)
    | WaitTimedOut(waiter: WaiterId)
    | WaitAborted(waiter: WaiterId)

  // Lists.

  predicate Distinct<T(==)>(q: seq<T>) { forall i, j :: 0 <= i < j < |q| ==> q[i] != q[j] }

  function Without<T(==)>(q: seq<T>, x: T): (r: seq<T>)
    ensures forall y :: y in r ==> y in q
    ensures forall y :: y in q && y != x ==> y in r
    ensures |r| <= |q|
    ensures Distinct(q) ==> Distinct(r) && x !in r
  {
    if q == [] then []
    else if q[0] == x then q[1..]
    else
      var rest := Without(q[1..], x);
      assert Distinct(q) ==> Distinct(q[1..]) && q[0] !in q[1..];
      assert Distinct(q) ==> q[0] !in rest;
      [q[0]] + rest
  }

  // What a caller reads.

  function Unresolved(s: Session): set<RequestId> {
    set r | r in s.open && r in s.objects && !s.objects[r].resolved
  }

  predicate AwaitsTurnRecord(s: Session) { s.status == Idle && s.activeTurnId.Some? }

  function SignalOf(s: Session): Signal {
    Signal(
      if AwaitsTurnRecord(s) then Running else s.status,
      Unresolved(s),
      if s.lastResult.Some? then Some(s.lastResult.value.completedAt) else None,
      if s.activity.Some? then Some(s.activity.value.at) else None,
      s.ring.warningSeq)
  }

  function SignalAt(w: World): Signal { if w.registered then SignalOf(w.session) else Gone }

  predicate MarkerStands(s: Session) { s.activity.Some? && !s.activity.value.fromHook }

  // The sleepers.

  function TimesResolved(p: Polls, q: WaiterId): nat { if q in p.resolved then p.resolved[q] else 0 }

  /** One waiter's promise resolves; its slot, timer and abort listener go. */
  function Done(p: Polls, q: WaiterId): Polls {
    p.(waiters := Without(p.waiters, q), timers := p.timers - {q}, listeners := p.listeners - {q},
       resolved := p.resolved[q := TimesResolved(p, q) + 1])
  }

  function DoneAll(p: Polls, snapshot: seq<WaiterId>): Polls
    decreases |snapshot|
  {
    if snapshot == [] then p else DoneAll(Done(p, snapshot[0]), snapshot[1..])
  }

  function Notify(w: World): World {
    if w.polls.lastNotified == Some(SignalAt(w)) then w
    else w.(polls := DoneAll(w.polls.(lastNotified := Some(SignalAt(w))), w.polls.waiters))
  }

  /** A session that is not registered throws before any wait is reached. */
  function Wait(w: World, q: WaiterId, signal: AbortSignal): World {
    var p := w.polls.(seen := w.polls.seen + {q});
    if !w.registered then w
    else if signal.Aborted? then w.(polls := p.(resolved := p.resolved[q := TimesResolved(p, q) + 1]))
    else if |p.waiters| >= MAX_WAITERS_PER_SESSION then w.(polls := p.(refused := p.refused + {q}))
    else w.(polls := p.(waiters := p.waiters + [q], timers := p.timers + {q},
                        listeners := if signal.Live? then p.listeners + {q} else p.listeners))
  }

  // The requests held open.

  function Deliver(s: Session, rpc: Rpc, answer: Answer, sends: bool): Session {
    if sends then s.(wire := s.wire + [Delivery(rpc, answer)])
    else s.(undelivered := s.undelivered + {rpc})
  }

  function CancelAnswer(kind: Kind): Answer { if kind.UserInput? then Answers("") else Decision("cancel") }

  function TimeoutAnswer(kind: Kind): Answer { if kind.UserInput? then Answers("") else Decision("decline") }

  /** The answer a method gets without the caller: it is one this server does not hold open. */
  function DirectAnswer(m: Method): Answer {
    match m
    case CommandApproval => CancelAnswer(Command)
    case FileChangeApproval => CancelAnswer(FileChange)
    case UserInputRequest => CancelAnswer(UserInput)
    case LegacyApproval => Decision("denied")
    case _ => Unsupported
  }

  function KindOf(m: Method): Option<Kind> {
    match m
    case CommandApproval => Some(Command)
    case FileChangeApproval => Some(FileChange)
    case UserInputRequest => Some(UserInput)
    case _ => None
  }

  function HoldOpen(s: Session, req: RequestId, rpc: Rpc, kind: Kind): Session {
    s.(objects := s.objects[req := Pending(rpc, kind, false, None)], open := s.open + [req],
       armed := s.armed + {req}, status := WaitingApproval)
  }

  predicate Answerable(s: Session, req: RequestId) {
    req in s.open && req in s.objects && !s.objects[req].resolved
  }

  /** The caller's answer; one the client does not take leaves the request as it was, session waiting. */
  function SendAnswer(s: Session, req: RequestId, answer: Answer, decision: Option<string>, sends: bool): Session
    requires Answerable(s, req)
  {
    var obj := s.objects[req];
    if sends then
      Deliver(s.(objects := s.objects[req := obj.(resolved := true,
                   decision := if decision.Some? then decision else obj.decision)],
                 armed := s.armed - {req}), obj.rpc, answer, true)
    else
      s.(objects := s.objects[req := obj.(decision := if decision.Some? then None else obj.decision)],
         status := if s.status.Cancelled? then Cancelled else WaitingApproval)
  }

  /** Take an answered request off the map; the last one gone gives the session its turn back. */
  function Settled(s: Session, req: RequestId): Session {
    var rest := Without(s.open, req);
    s.(open := rest, status := if rest == [] && s.status.WaitingApproval? then Running else s.status)
  }

  /** Close the oldest request: its timer stops, an unanswered one is told the session goes away. */
  function CloseFirst(s: Session, failing: set<Rpc>): Session
    requires s.open != []
  {
    var req := s.open[0];
    var gone := s.(open := s.open[1..], armed := s.armed - {req});
    if req !in s.objects || s.objects[req].resolved then gone
    else
      var obj := s.objects[req];
      Deliver(gone.(objects := s.objects[req := obj.(resolved := true)]), obj.rpc,
              CancelAnswer(obj.kind), obj.rpc !in failing)
  }

  function CloseAll(s: Session, failing: set<Rpc>): Session
    decreases |s.open|
  {
    if s.open == [] then s else CloseAll(CloseFirst(s, failing), failing)
  }

  // The handlers.

  function ThreadStatusAsks(s: Session, t: ThreadStatus): Option<Status> {
    if s.status.Cancelled? || s.status.Errored? then None
    else
      match t
      case Active => if Unresolved(s) != {} then Some(WaitingApproval) else None
      case ThreadIdle => if Unresolved(s) != {} then None else Some(Idle)
      case SystemError => Some(Errored)
      case OtherStatus => None
  }

  function RecordWarning(w: World, method_: string, message: Option<string>, at: int): World {
    if message.None? then w
    else
      var warning := Warning(method_, message.value, at);
      var recorded := w.(session := w.session.(ring := Record(w.session.ring, warning)));
      if Repeats(w.session.ring.kept, warning) then recorded else Notify(recorded)
  }

  function RecordActivity(w: World, line: string, at: int, fromHook: bool): World {
    w.(session := w.session.(activity := Some(Activity(line, at, fromHook))))
  }

  /** A hook's line stands only while no marker of the turn does, and once. */
  predicate HookShows(s: Session, display: Option<string>) {
    display.Some? && !MarkerStands(s) && !(s.activity.Some? && s.activity.value.line == display.value)
  }

  function OnNote(w: World, note: Note, at: int): World {
    var s := w.session;
    match note
    case TurnStarted(turn) =>
      if s.status.Cancelled? then w else w.(session := s.(activeTurnId := turn, activity := None))
    case TurnCompleted(completed) =>
      if s.status.Cancelled? then w
      else w.(session := s.(status := Idle, activeTurnId := None,
                            lastResult := Some(TurnResult(completed, Completed, at))))
    case ErrorNote(willRetry) =>
      if s.status.Cancelled? || willRetry then w else w.(session := s.(status := Errored))
    case StatusChanged(t) =>
      if ThreadStatusAsks(s, t).Some? then w.(session := s.(status := ThreadStatusAsks(s, t).value)) else w
    case Delta(lines) =>
      if lines == [] then w else Notify(RecordActivity(w, lines[|lines| - 1], at, false))
    case Warned(method_, message) => RecordWarning(w, method_, message, at)
    case HookRan(hook, held, display) =>
      var warned := RecordWarning(w, hook, held, at);
      if HookShows(s, display) then Notify(RecordActivity(warned, display.value, at, true)) else warned
    case Reviewed(verdict) =>
      if verdict.None? then w else RecordActivity(w, verdict.value, at, false)
    case OtherNote => w
  }

  function OnRequest(w: World, req: RequestId, rpc: Rpc, m: Method, sends: bool): World {
    var s := w.session.(asked := w.session.asked + {rpc});
    if s.status.Cancelled? || s.status.Errored? then w.(session := Deliver(s, rpc, DirectAnswer(m), sends))
    else if KindOf(m).Some? then Notify(w.(session := HoldOpen(s, req, rpc, KindOf(m).value)))
    else Notify(w.(session := Deliver(s, rpc, DirectAnswer(m), sends)))
  }

  function OnAnswer(w: World, req: RequestId, answer: Answer, decision: Option<string>, sends: bool): World
    requires Answerable(w.session, req)
  {
    var answered := SendAnswer(w.session, req, answer, decision, sends);
    if sends then Notify(w.(session := Settled(answered, req))) else w.(session := answered)
  }

  /** An approval is refused for a request that is gone, is a question, or does not take the decision. */
  predicate TakesApproval(w: World, req: RequestId, valid: bool) {
    w.registered && Answerable(w.session, req) && !w.session.objects[req].kind.UserInput? && valid
  }

  predicate TakesInput(w: World, req: RequestId) {
    w.registered && Answerable(w.session, req) && w.session.objects[req].kind.UserInput?
  }

  function OnTimer(w: World, req: RequestId, sends: bool): World {
    var s := w.session.(armed := w.session.armed - {req});
    if req !in w.session.armed || req !in s.objects then w
    else if s.objects[req].resolved then w.(session := s)
    else
      var obj := s.objects[req];
      var timedOut := s.(objects := s.objects[req := obj.(resolved := true,
                           decision := if obj.kind.UserInput? then obj.decision else Some("decline"))]);
      Notify(w.(session := Settled(Deliver(timedOut, obj.rpc, TimeoutAnswer(obj.kind), sends), req)))
  }

  function OnCancel(w: World, at: int, failing: set<Rpc>): World {
    if !w.registered || w.session.status.Cancelled? then w
    else
      var s := CloseAll(w.session.(status := Cancelled), failing);
      Notify(w.(session := s.(activeTurnId := None,
        lastResult := if s.lastResult.Some? then s.lastResult
                      else Some(TurnResult(s.activeTurnId, Stopped, at)))))
  }

  function OnLoss(w: World, at: int, failing: set<Rpc>): World {
    var s := CloseAll(w.session, failing);
    if s.status.Running? || s.status.WaitingApproval? then
      Notify(w.(session := s.(status := Errored, activeTurnId := None,
        lastResult := Some(TurnResult(s.activeTurnId, Failed, at)))))
    else w.(session := s)
  }

  function OnEvict(w: World, failing: set<Rpc>): World {
    if !w.registered then w
    else
      var gone := Notify(w.(session := CloseAll(w.session, failing), registered := false));
      gone.(polls := gone.polls.(lastNotified := None))
  }

  predicate OpensTurn(w: World, checkedEarlier: bool) {
    checkedEarlier || (w.registered && (w.session.status.Idle? || w.session.status.Errored?))
  }

  /** One handler run to its end; a call the runtime refuses changes nothing. */
  function Step(w: World, e: Event): World {
    var s := w.session;
    match e
    case NotificationCame(note, at) => Notify(OnNote(w, note, at))
    case RequestCame(req, rpc, m, sends) => OnRequest(w, req, rpc, m, sends)
    case ApprovalGiven(req, decision, valid, sends) =>
      if TakesApproval(w, req, valid) then OnAnswer(w, req, Decision(decision), Some(decision), sends) else w
    case InputGiven(req, answers, sends) =>
      if TakesInput(w, req) then OnAnswer(w, req, Answers(answers), None, sends) else w
    case TimerFired(req, sends) => OnTimer(w, req, sends)
    case CancelCalled(at, failing) => OnCancel(w, at, failing)
    case ProcessLost(at, failing) => OnLoss(w, at, failing)
    case SessionEvicted(failing) => OnEvict(w, failing)
    case ReplyOpened(checkedEarlier) =>
      if OpensTurn(w, checkedEarlier) then w.(session := s.(lastResult := None, status := Running)) else w
    case ReplyStarted(turn) =>
      if turn.Some? then w.(session := s.(activeTurnId := turn)) else w
    case ReplyFailed => w.(session := s.(status := Errored))
    case ResumeFinished => Notify(w.(session := s.(status := Idle)))
    case WaitCalled(q, signal) => Wait(w, q, signal)
    case WaitTimedOut(q) => if q in w.polls.timers then w.(polls := Done(w.polls, q)) else w
    case WaitAborted(q) => if q in w.polls.listeners then w.(polls := Done(w.polls, q)) else w
  }

  function RunAll(w: World, es: seq<Event>): World
    decreases |es|
  {
    if es == [] then w else RunAll(Step(w, es[0]), es[1..])
  }
}
