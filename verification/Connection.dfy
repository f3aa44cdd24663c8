/**
 * The requests of one app-server connection, each under its own id, and what settles them
 * (section 5 of the JSON-RPC 2.0 Specification).
 */
module Connection {
  import opened Options
  import opened WriteQueue

  type Id = nat

  datatype Settlement = Resolved(result: string) | RpcError(message: string) | TimedOut | Rejected(reason: string)

  /** `open` are the ids in the map and `timers` those whose timer runs; `outcome` is how each settled promise
      stands, `asked` the ids a response arrived for. */
  datatype Client = Client(
    destroyed: bool,
    lastFailure: Option<string>,
    nextId: Id,
    open: set<Id>,
    timers: set<Id>,
    outcome: map<Id, Settlement>,
    writes: Queue)

  const Fresh := Client(false, None, 1, {}, {}, map[], WriteQueue.Empty)

  datatype Stdin = Stdin(present: bool, writable: bool)

  datatype Event =
    | RequestCalled(payload: string, stdin: Stdin, answer: PipeAnswer)
    | ResponseGiven(payload: string, stdin: Stdin, answer: PipeAnswer)
    | ResponseCame(id: Id, settlement: Settlement)
    | TimerFired(id: Id)
    | StdinDrained(stdin: Stdin, pipe: nat -> PipeAnswer)
    | ConnectionErred(reason: string)
    | ConnectionEnded(reason: string)
    | LineUnreadable(reason: string)
    | DestroyCalled

  /** A promise keeps the first settlement it gets. */
  function Settle(outcome: map<Id, Settlement>, id: Id, how: Settlement): map<Id, Settlement> {
    if id in outcome then outcome else outcome[id := how]
  }

  function RejectAll(outcome: map<Id, Settlement>, ids: set<Id>, reason: string): map<Id, Settlement> {
    map id | id in outcome.Keys + ids :: if id in outcome then outcome[id] else Rejected(reason)
  }

  lemma RejectOneMore(outcome: map<Id, Settlement>, ids: set<Id>, id: Id, reason: string)
    ensures RejectAll(outcome, ids + {id}, reason) == Settle(RejectAll(outcome, ids, reason), id, Rejected(reason))
  {}

  lemma RejectNone(outcome: map<Id, Settlement>, reason: string)
    ensures RejectAll(outcome, {}, reason) == outcome
  {}

  function FailAll(c: Client, reason: string): Client {
    c.(open := {}, timers := c.timers - c.open, outcome := RejectAll(c.outcome, c.open, reason))
  }

  /** The hook every lost write calls: the connection failed, and so did everything waiting on it. */
  function RecordFailure(c: Client, reason: string): Client {
    FailAll(c.(lastFailure := Some(reason)), reason)
  }

  /** The end of the connection; the first failure recorded is the one reported. */
  function EndWith(c: Client, reason: string): Client {
    var first := if c.lastFailure.Some? then c.lastFailure.value else reason;
    FailAll(c.(lastFailure := Some(first)), first)
  }

  /** A line the stream cannot be followed past: everything waiting is told of that line. */
  function FailParse(c: Client, reason: string): Client {
    FailAll(c.(lastFailure := if c.lastFailure.Some? then c.lastFailure else Some(reason)), reason)
  }

  /** Take what the queue did to itself, and answer for it where it called `fail`. */
  function AfterWrite(c: Client, q: Queue): Client {
    var written := c.(writes := q);
    if q.failures > c.writes.failures then RecordFailure(written, "write failed") else written
  }

  /** One message to stdin; false is a throw. */
  function Send(c: Client, payload: string, stdin: Stdin, answer: PipeAnswer): (Client, bool) {
    if !stdin.present || !stdin.writable then (c, false)
    else
      var (q, outcome) := Wrote(c.writes, payload, true, answer);
      (AfterWrite(c, q), outcome.Accepted?)
  }

  /** Open a slot and send under its id; a throw drops the slot and rejects the promise. */
  function Request(c: Client, payload: string, stdin: Stdin, answer: PipeAnswer): Client {
    if c.destroyed || !stdin.present || !stdin.writable then c
    else
      var id := c.nextId;
      var slotted := c.(nextId := id + 1, open := c.open + {id}, timers := c.timers + {id});
      var (sent, accepted) := Send(slotted, payload, stdin, answer);
      if accepted then sent
      else sent.(open := sent.open - {id}, timers := sent.timers - {id},
                 outcome := Settle(sent.outcome, id, Rejected("write refused")))
  }

  function Step(c: Client, e: Event): Client {
    match e
    case RequestCalled(payload, stdin, answer) => Request(c, payload, stdin, answer)
    case ResponseGiven(payload, stdin, answer) => Send(c, payload, stdin, answer).0
    case ResponseCame(id, settlement) =>
      if id !in c.open then c
      else c.(open := c.open - {id}, timers := c.timers - {id}, outcome := Settle(c.outcome, id, settlement))
    case TimerFired(id) =>
      if id !in c.timers then c
      else c.(open := c.open - {id}, timers := c.timers - {id}, outcome := Settle(c.outcome, id, TimedOut))
    case StdinDrained(stdin, pipe) => AfterWrite(c, Flushed(c.writes, stdin.present && stdin.writable, pipe))
    case ConnectionErred(reason) => RecordFailure(c, reason)
    case ConnectionEnded(reason) => EndWith(c, reason)
    case LineUnreadable(reason) => FailParse(c, reason)
    case DestroyCalled => if c.destroyed then c else FailAll(c.(destroyed := true), "Client destroyed")
  }

  function RunAll(c: Client, es: seq<Event>): Client
    decreases |es|
  {
    if es == [] then c else RunAll(Step(c, es[0]), es[1..])
  }

  // What every step keeps.

  /** Each id issued is either open, with its timer running, or settled. */
  ghost predicate Correlated(c: Client) {
    && c.nextId >= 1
    && c.timers == c.open
    && (forall id :: id in c.open ==> id !in c.outcome)
    && (forall id :: 1 <= id < c.nextId <==> id in c.open || id in c.outcome)
  }

  ghost predicate Sound(c: Client) { Correlated(c) && Fits(c.writes) }

  /** What settled once stays as it settled, and no id is issued again. */
  ghost predicate Settles(c: Client, t: Client) {
    && c.nextId <= t.nextId
    && (forall id :: id in c.outcome ==> id in t.outcome && t.outcome[id] == c.outcome[id])
  }

  lemma FailAllKeeps(c: Client, reason: string)
    requires Correlated(c)
    ensures var t := FailAll(c, reason);
            && Correlated(t) && Settles(c, t) && t.open == {} && t.writes == c.writes && t.nextId == c.nextId
            && forall id :: id in c.open ==> t.outcome[id] == Rejected(reason)
  {}

  lemma AfterWriteKeeps(c: Client, q: Queue)
    requires Correlated(c)
    ensures var t := AfterWrite(c, q);
            && Correlated(t) && Settles(c, t) && t.writes == q && t.nextId == c.nextId
            && (q.failures > c.writes.failures ==> t.open == {} && t.lastFailure.Some?)
            && (q.failures <= c.writes.failures ==> t.open == c.open && t.outcome == c.outcome)
  {
    FailAllKeeps(c.(writes := q, lastFailure := Some("write failed")), "write failed");
  }

  lemma SendKeeps(c: Client, payload: string, stdin: Stdin, answer: PipeAnswer)
    requires Sound(c)
    ensures var (t, accepted) := Send(c, payload, stdin, answer);
            && Sound(t) && Settles(c, t) && t.nextId == c.nextId
            && (accepted <==> stdin.present && stdin.writable && Wrote(c.writes, payload, true, answer).1 == Accepted)
            && (t.writes.failures > c.writes.failures ==> t.open == {} && !accepted)
            && (t.writes.failures <= c.writes.failures ==> t.open == c.open && t.outcome == c.outcome)
  {
    hide Fits, Correlated, AfterWrite, Wrote, Follows;
    if stdin.present && stdin.writable {
      WriteKeeps(c.writes, payload, true, answer);
      AfterWriteKeeps(c, Wrote(c.writes, payload, true, answer).0);
    }
    SettlesItself(c);
  }

  lemma SettlesItself(c: Client)
    ensures Settles(c, c)
  {}

  /** A request takes the next id; one whose write was refused is settled before the call returns. */
  lemma RequestKeeps(c: Client, payload: string, stdin: Stdin, answer: PipeAnswer)
    requires Sound(c)
    ensures var t := Request(c, payload, stdin, answer);
            && Sound(t) && Settles(c, t)
            && (t.nextId == c.nextId ==> t == c)
            && (t.nextId == c.nextId <==> c.destroyed || !stdin.present || !stdin.writable)
            && (t.nextId != c.nextId ==>
                  t.nextId == c.nextId + 1 && (c.nextId in t.open <==> Send(c, payload, stdin, answer).1))
            && (t.writes.failures > c.writes.failures ==> t.open == {} && c.nextId in t.outcome)
  {
    hide Fits, AfterWrite, Wrote;
    var id := c.nextId;
    var slotted := c.(nextId := id + 1, open := c.open + {id}, timers := c.timers + {id});
    assert Correlated(slotted);
    SendKeeps(slotted, payload, stdin, answer);
  }

  lemma DrainKeeps(c: Client, writable: bool, pipe: nat -> PipeAnswer)
    requires Sound(c)
    ensures var t := AfterWrite(c, Flushed(c.writes, writable, pipe));
            && Sound(t) && Settles(c, t) && t.nextId == c.nextId
            && (t.writes.failures > c.writes.failures ==> t.open == {})
  {
    hide Fits, Correlated, AfterWrite, Flushed, Follows;
    FlushKeeps(c.writes, writable, pipe);
    AfterWriteKeeps(c, Flushed(c.writes, writable, pipe));
  }

  /** Whether the step records a failure of the connection or ends it. */
  ghost predicate Fails(c: Client, e: Event) {
    e.ConnectionErred? || e.ConnectionEnded? || e.LineUnreadable? || (e.DestroyCalled? && !c.destroyed)
    || Step(c, e).writes.failures > c.writes.failures
  }

  /** No request outlives a failure of its connection, its own refused write included; a response settles the
      request it answers and no other. */
  lemma StepKeeps(c: Client, e: Event)
    requires Sound(c)
    ensures var t := Step(c, e);
            && Sound(t) && Settles(c, t)
            && (Fails(c, e) ==> t.open == {})
            && (e.ResponseCame? ==>
                  forall id :: id in c.open ==>
                    if id == e.id then id in t.outcome && t.outcome[id] == e.settlement else id in t.open)
  {
    hide Fits, Request, Send, AfterWrite, FailAll;
    SettlesItself(c);
    match e
    case RequestCalled(payload, stdin, answer) => RequestKeeps(c, payload, stdin, answer);
    case ResponseGiven(payload, stdin, answer) => SendKeeps(c, payload, stdin, answer);
    case StdinDrained(stdin, pipe) => DrainKeeps(c, stdin.present && stdin.writable, pipe);
    case ConnectionErred(reason) => FailAllKeeps(c.(lastFailure := Some(reason)), reason);
    case ConnectionEnded(reason) =>
      var first := if c.lastFailure.Some? then c.lastFailure.value else reason;
      FailAllKeeps(c.(lastFailure := Some(first)), first);
    case LineUnreadable(reason) =>
      FailAllKeeps(c.(lastFailure := if c.lastFailure.Some? then c.lastFailure else Some(reason)), reason);
    case DestroyCalled => FailAllKeeps(c.(destroyed := true), "Client destroyed");
    case _ =>
  }

  lemma {:induction false} RunKeeps(c: Client, es: seq<Event>)
    requires Sound(c)
    ensures Sound(RunAll(c, es)) && Settles(c, RunAll(c, es))
    decreases |es|
  {
    hide Sound, Step;
    if es == [] {
      SettlesItself(c);
    } else {
      StepKeeps(c, es[0]);
      RunKeeps(Step(c, es[0]), es[1..]);
    }
  }

  /** Over any run each id issued is waiting with its timer or settled, and it settles once: whatever a prefix
      of the run left settled stands at the end as it stood then. */
  lemma EachRequestSettlesOnce(before: seq<Event>, after: seq<Event>)
    ensures var c := RunAll(Fresh, before);
            var t := RunAll(c, after);
            && Correlated(c) && Correlated(t)
            && (forall id :: id in c.outcome ==> id in t.outcome && t.outcome[id] == c.outcome[id])
            && (forall id :: id in c.open ==> id in t.open || id in t.outcome)
  {
    RunKeeps(Fresh, before);
    RunKeeps(RunAll(Fresh, before), after);
  }

  /** Why a step settles a request: its own response, its own timer, a failure of the connection or the refusal of
      its own write; and as what. A failure speaks with the first one recorded, its own reason where there is none. */
  ghost predicate Settled(c: Client, e: Event, id: Id, how: Settlement) {
    || (e == ResponseCame(id, how) && id in c.open)
    || (e == TimerFired(id) && id in c.open && how == TimedOut)
    || (e.ConnectionErred? && id in c.open && how == Rejected(e.reason))
    || (e.LineUnreadable? && id in c.open && how == Rejected(e.reason))
    || (e.ConnectionEnded? && id in c.open
        && how == Rejected(if c.lastFailure.Some? then c.lastFailure.value else e.reason))
    || (e == DestroyCalled && !c.destroyed && id in c.open && how == Rejected("Client destroyed"))
    || (LosesWrite(c, e) && (id in c.open || (e.RequestCalled? && id == c.nextId)) && how == Rejected("write failed"))
    || (e.RequestCalled? && id == c.nextId && !LosesWrite(c, e) && Refuses(c, e) && how == Rejected("write refused"))
  }

  /** The step wrote to stdin or flushed, and the queue called `fail`. */
  ghost predicate LosesWrite(c: Client, e: Event) { Step(c, e).writes.failures > c.writes.failures }

  /** A request got as far as its id and its write was not accepted. */
  ghost predicate Refuses(c: Client, e: Event) {
    && e.RequestCalled? && !c.destroyed && e.stdin.present && e.stdin.writable
    && !Wrote(c.writes, e.payload, true, e.answer).1.Accepted?
  }

  /** A request is settled by a step if and only if there is such a cause, and then as that cause says. */
  lemma SettlesExactlyOnCause(c: Client, e: Event, id: Id, how: Settlement)
    requires Sound(c) && id !in c.outcome
    ensures id in Step(c, e).outcome && Step(c, e).outcome[id] == how <==> Settled(c, e, id, how)
  {
    hide Fits, Wrote, Flushed, Request, Send, AfterWrite;
    match e
    case RequestCalled(payload, stdin, answer) => RequestSettles(c, payload, stdin, answer, id);
    case ResponseGiven(payload, stdin, answer) => SendSettles(c, payload, stdin, answer, id);
    case StdinDrained(stdin, pipe) =>
      AfterWriteSettles(c, Flushed(c.writes, stdin.present && stdin.writable, pipe), id);
    case _ =>
  }

  /** A lost write rejects everything open, and nothing else is settled by one. */
  lemma AfterWriteSettles(c: Client, q: Queue, id: Id)
    requires id !in c.outcome
    ensures var t := AfterWrite(c, q);
            && t.writes == q && (id in t.outcome <==> q.failures > c.writes.failures && id in c.open)
            && (id in t.outcome ==> t.outcome[id] == Rejected("write failed"))
  {}

  lemma SendSettles(c: Client, payload: string, stdin: Stdin, answer: PipeAnswer, id: Id)
    requires id !in c.outcome
    ensures var (t, accepted) := Send(c, payload, stdin, answer);
            && (accepted <==> stdin.present && stdin.writable && Wrote(c.writes, payload, true, answer).1.Accepted?)
            && (id in t.outcome <==> t.writes.failures > c.writes.failures && id in c.open)
            && (id in t.outcome ==> t.outcome[id] == Rejected("write failed"))
  {
    hide Wrote, AfterWrite;
    if stdin.present && stdin.writable { AfterWriteSettles(c, Wrote(c.writes, payload, true, answer).0, id); }
  }

  lemma RequestSettles(c: Client, payload: string, stdin: Stdin, answer: PipeAnswer, id: Id)
    requires Sound(c) && id !in c.outcome
    ensures var e := RequestCalled(payload, stdin, answer); var t := Request(c, payload, stdin, answer);
            var lost := t.writes.failures > c.writes.failures;
            && (id in t.outcome <==>
                  (lost && (id in c.open || id == c.nextId)) || (id == c.nextId && !lost && Refuses(c, e)))
            && (id in t.outcome ==> t.outcome[id] == Rejected(if lost then "write failed" else "write refused"))
  {
    hide Wrote, AfterWrite, Send, Fits;
    var slotted := c.(nextId := c.nextId + 1, open := c.open + {c.nextId}, timers := c.timers + {c.nextId});
    if !c.destroyed && stdin.present && stdin.writable {
      SendSettles(slotted, payload, stdin, answer, id);
      SendSettles(slotted, payload, stdin, answer, c.nextId);
    }
  }

  /** A timer that fires closes its own request as timed out and leaves every other as it was. */
  lemma TimerSettlesItsOwn(c: Client, id: Id)
    requires Sound(c) && id in c.open
    ensures var t := Step(c, TimerFired(id));
            && id !in t.open && id !in t.timers && id in t.outcome && t.outcome[id] == TimedOut
            && t.writes == c.writes && t.nextId == c.nextId
            && forall other :: other != id ==>
                 (other in t.open <==> other in c.open) && (other in t.timers <==> other in c.timers)
                 && (other in t.outcome <==> other in c.outcome)
                 && (other in c.outcome ==> t.outcome[other] == c.outcome[other])
  {
    hide Fits;
  }

  /** What a step writes: a request or an answer goes to the queue as one payload, a drain flushes it, and nothing
      else touches it. */
  lemma StepWrites(c: Client, e: Event)
    ensures Step(c, e).writes ==
            if (e.RequestCalled? && !c.destroyed && e.stdin.present && e.stdin.writable)
               || (e.ResponseGiven? && e.stdin.present && e.stdin.writable)
            then Wrote(c.writes, e.payload, true, e.answer).0
            else if e.StdinDrained? then Flushed(c.writes, e.stdin.present && e.stdin.writable, e.pipe)
            else c.writes
  {
    hide Wrote, Flushed;
  }

  /** What a later failure of the connection reports: the first one on record, save that an error of stdin itself or a
      lost write is recorded over it. */
  lemma FailureIsRecorded(c: Client, e: Event)
    ensures Step(c, e).lastFailure ==
            if LosesWrite(c, e) then Some("write failed")
            else if e.ConnectionErred? then Some(e.reason)
            else if (e.ConnectionEnded? || e.LineUnreadable?) && c.lastFailure.None? then Some(e.reason)
            else c.lastFailure
  {
    hide Wrote, Flushed;
  }

  /** A destroyed client stays destroyed and issues no id. */
  lemma {:induction false} DestroyedStays(c: Client, es: seq<Event>)
    requires c.destroyed
    ensures RunAll(c, es).destroyed && RunAll(c, es).nextId == c.nextId
    decreases |es|
  {
    hide Wrote, Flushed;
    if es != [] { DestroyedStays(Step(c, es[0]), es[1..]); }
  }

  lemma DestroyDestroys(c: Client, e: Event)
    ensures Step(c, e).destroyed <==> c.destroyed || e == DestroyCalled
  {
    hide Wrote, Flushed;
  }

  /** The first request of a client takes id 1 and waits for its response once the pipe took it. */
  lemma FirstRequestWaits(payload: string, stdin: Stdin, answer: PipeAnswer)
    requires stdin.present && stdin.writable && answer != Threw
    ensures var t := Step(Fresh, RequestCalled(payload, stdin, answer));
            t.open == {1} && t.timers == {1} && t.nextId == 2 && t.writes.accepted == [payload]
  {}
}
