/** The stdin side of the connection: a bounded first-in first-out queue behind a pipe that fills up. */
module WriteQueue {

  const MAX_WRITE_QUEUE_BYTES := 5 * 1024 * 1024

  /** How the pipe answers one write: taken, taken with the pipe now full, or thrown. */
  datatype PipeAnswer = Took | TookAndFull | Threw

  /** What became of one accepted payload. */
  datatype Entry = Entry(payload: string, sent: bool)

  /** `done` and `accepted` are the history of accepted payloads, `failures` how often `fail` was called. */
  datatype Queue = Queue(
    backpressure: bool,
    held: seq<string>,
    heldBytes: int,
    done: seq<Entry>,
    accepted: seq<string>,
    failures: nat)

  const Empty := Queue(false, [], 0, [], [], 0)

  datatype WriteOutcome = Accepted | NotWritable | Refused | Overflowed

  /** Lengths in UTF-16 units, which is what the limit counts. */
  function Bytes(held: seq<string>): nat {
    if held == [] then 0 else |held[0]| + Bytes(held[1..])
  }

  function Marked(payloads: seq<string>, sent: bool): (r: seq<Entry>)
    ensures |r| == |payloads| && forall i :: 0 <= i < |r| ==> r[i] == Entry(payloads[i], sent)
  {
    seq(|payloads|, i requires 0 <= i < |payloads| => Entry(payloads[i], sent))
  }

  /** What reached stdin, oldest first. */
  function Sent(done: seq<Entry>): seq<string> {
    if done == [] then []
    else Sent(done[..|done| - 1]) + if done[|done| - 1].sent then [done[|done| - 1].payload] else []
  }

  function DropAll(q: Queue): Queue {
    q.(done := q.done + Marked(q.held, false), held := [], heldBytes := 0, failures := q.failures + 1)
  }

  function Written(q: Queue, payload: string): Queue { q.(done := q.done + [Entry(payload, true)]) }

  function Wrote(q: Queue, payload: string, writable: bool, answer: PipeAnswer): (Queue, WriteOutcome) {
    if !writable then (q, NotWritable)
    else if q.backpressure || q.held != [] then
      if q.heldBytes + |payload| > MAX_WRITE_QUEUE_BYTES then (DropAll(q), Overflowed)
      else (q.(held := q.held + [payload], heldBytes := q.heldBytes + |payload|,
               accepted := q.accepted + [payload]), Accepted)
    else
      match answer
      case Threw => (q.(failures := q.failures + 1), Refused)
      case Took => (Written(q.(accepted := q.accepted + [payload]), payload), Accepted)
      case TookAndFull =>
        (Written(q.(accepted := q.accepted + [payload], backpressure := true), payload), Accepted)
  }

  /** `q` with its oldest payload taken off and marked. */
  function Shifted(q: Queue, sent: bool): Queue
    requires q.held != []
  {
    q.(held := q.held[1..], heldBytes := q.heldBytes - |q.held[0]|, done := q.done + [Entry(q.held[0], sent)])
  }

  function FlushFrom(q: Queue, pipe: nat -> PipeAnswer, i: nat): Queue
    decreases |q.held|
  {
    if q.backpressure || q.held == [] then q
    else
      match pipe(i)
      case Threw => DropAll(Shifted(q, false))
      case Took => FlushFrom(Shifted(q, true), pipe, i + 1)
      case TookAndFull => Shifted(q, true).(backpressure := true)
  }

  function Flushed(q: Queue, writable: bool, pipe: nat -> PipeAnswer): Queue {
    if writable then FlushFrom(q.(backpressure := false), pipe, 0)
    else if q.held == [] then q
    else DropAll(q)
  }

  // What every call keeps.

  /** Every accepted payload stands, in order, either among those done or among those held. */
  ghost predicate InOrder(q: Queue) {
    && |q.accepted| == |q.done| + |q.held|
    && (forall k :: 0 <= k < |q.done| ==> q.done[k].payload == q.accepted[k])
    && (forall k :: 0 <= k < |q.held| ==> q.held[k] == q.accepted[|q.done| + k])
  }

  ghost predicate Counted(q: Queue) { q.heldBytes == Bytes(q.held) && q.heldBytes <= MAX_WRITE_QUEUE_BYTES }

  ghost predicate Fits(q: Queue) { (q.backpressure || q.held == []) && Counted(q) && InOrder(q) }

  /** `t` follows `q`: history only grows, and a payload is lost only where `fail` was called. */
  ghost predicate Follows(q: Queue, t: Queue) {
    && q.done <= t.done && q.accepted <= t.accepted && q.failures <= t.failures
    && (t.failures == q.failures ==> forall k :: |q.done| <= k < |t.done| ==> t.done[k].sent)
  }

  lemma {:induction false} BytesOfMore(held: seq<string>, payload: string)
    ensures Bytes(held + [payload]) == Bytes(held) + |payload|
  {
    if held == [] {
      assert held + [payload] == [payload];
    } else {
      assert (held + [payload])[1..] == held[1..] + [payload];
      BytesOfMore(held[1..], payload);
    }
  }

  lemma WriteKeeps(q: Queue, payload: string, writable: bool, answer: PipeAnswer)
    requires Fits(q)
    ensures var (t, outcome) := Wrote(q, payload, writable, answer);
            && Fits(t) && Follows(q, t)
            && (outcome == Accepted <==> t.accepted == q.accepted + [payload])
            && (outcome != Accepted <==> t.accepted == q.accepted)
            && (t.failures > q.failures <==> outcome == Refused || outcome == Overflowed)
            && (t.failures > q.failures ==> t.held == [])
  {
    BytesOfMore(q.held, payload);
    var t := Wrote(q, payload, writable, answer).0;
    assert |t.accepted| == |q.accepted| || |t.accepted| == |q.accepted| + 1;
  }

  lemma ShiftKeeps(q: Queue, sent: bool)
    requires Counted(q) && InOrder(q) && q.held != []
    ensures Counted(Shifted(q, sent)) && InOrder(Shifted(q, sent))
    ensures sent ==> Follows(q, Shifted(q, sent))
  {}

  lemma DropKeeps(q: Queue)
    requires InOrder(q)
    ensures Fits(DropAll(q)) && Follows(q, DropAll(q))
  {}

  lemma {:induction false} FlushFromKeeps(q: Queue, pipe: nat -> PipeAnswer, i: nat)
    requires Counted(q) && InOrder(q)
    ensures var t := FlushFrom(q, pipe, i);
            && Fits(t) && Follows(q, t) && t.accepted == q.accepted
            && (t.failures > q.failures ==> t.held == [])
            && (t.failures == q.failures && t.held != [] ==> t.backpressure)
    decreases |q.held|
  {
    hide Counted, InOrder, Follows, Bytes;
    FollowsItself(q);
    if !q.backpressure && q.held != [] {
      ShiftKeeps(q, true);
      match pipe(i) {
        case Threw =>
          ShiftKeeps(q, false);
          DropKeeps(Shifted(q, false));
          DropAfterShiftFollows(q);
        case Took =>
          FlushFromKeeps(Shifted(q, true), pipe, i + 1);
          FollowsChains(q, Shifted(q, true), FlushFrom(q, pipe, i));
        case TookAndFull => FullKeeps(q, Shifted(q, true));
      }
    }
  }

  lemma DropAfterShiftFollows(q: Queue)
    requires q.held != []
    ensures Follows(q, DropAll(Shifted(q, false)))
  {}

  lemma FullKeeps(q: Queue, t: Queue)
    requires Follows(q, t) && Counted(t) && InOrder(t)
    ensures Follows(q, t.(backpressure := true)) && Fits(t.(backpressure := true))
  {}

  lemma FlushKeeps(q: Queue, writable: bool, pipe: nat -> PipeAnswer)
    requires Fits(q)
    ensures var t := Flushed(q, writable, pipe);
            && Fits(t) && Follows(q, t) && t.accepted == q.accepted
            && (t.failures > q.failures ==> t.held == [])
  {
    hide FlushFrom, Counted, InOrder, Follows, DropAll;
    FollowsItself(q);
    if writable {
      var open := q.(backpressure := false);
      OpenKeeps(q);
      FlushFromKeeps(open, pipe, 0);
      FollowsFromOpen(q, FlushFrom(open, pipe, 0));
    } else {
      DropKeeps(q);
      DropEmpties(q);
    }
  }

  lemma OpenKeeps(q: Queue)
    requires Counted(q) && InOrder(q)
    ensures Counted(q.(backpressure := false)) && InOrder(q.(backpressure := false))
  {}

  lemma FollowsFromOpen(q: Queue, t: Queue)
    requires Follows(q.(backpressure := false), t)
    ensures Follows(q, t)
  {}

  lemma DropEmpties(q: Queue)
    ensures DropAll(q).held == [] && DropAll(q).accepted == q.accepted
  {}

  /** A pipe that takes everything empties the queue onto stdin. */
  lemma {:induction false} OpenPipeSendsEverything(q: Queue, pipe: nat -> PipeAnswer, i: nat)
    requires Counted(q) && InOrder(q) && !q.backpressure
    requires forall k :: i <= k ==> pipe(k) == Took
    ensures var t := FlushFrom(q, pipe, i);
            t.held == [] && t.failures == q.failures && |t.done| == |q.accepted|
    decreases |q.held|
  {
    if q.held != [] {
      ShiftKeeps(q, true);
      OpenPipeSendsEverything(Shifted(q, true), pipe, i + 1);
    }
  }

  // Behind a full pipe.

  function WriteAll(q: Queue, payloads: seq<string>, answers: nat -> PipeAnswer): Queue
    decreases |payloads|
  {
    if payloads == [] then q
    else WriteAll(Wrote(q, payloads[0], true, answers(|payloads|)).0, payloads[1..], answers)
  }

  /** A payload written to an open pipe goes out at once; the pipe is full behind it exactly if it said so, and one it
      throws on is neither sent nor accepted. */
  lemma OpenPipeSendsAtOnce(q: Queue, payload: string, answer: PipeAnswer)
    requires Fits(q) && !q.backpressure
    ensures var (t, outcome) := Wrote(q, payload, true, answer);
            && t.held == [] && (t.backpressure <==> answer == TookAndFull)
            && if answer == Threw then
                 outcome == Refused && t.done == q.done && t.accepted == q.accepted && t.failures == q.failures + 1
               else
                 && outcome == Accepted && t.done == q.done + [Entry(payload, true)]
                 && t.accepted == q.accepted + [payload] && t.failures == q.failures
  {}

  /** Behind a full pipe nothing is sent: what fits 5 MiB is held, in order, whatever the pipe would have said, and the
      drain that finds the pipe open again sends all of it. */
  lemma {:induction false} FullPipeHoldsUntilDrain(q: Queue, payloads: seq<string>, answers: nat -> PipeAnswer,
                                                   pipe: nat -> PipeAnswer)
    requires Fits(q) && q.backpressure && Bytes(q.held) + Bytes(payloads) <= 5 * 1024 * 1024
    requires forall k :: pipe(k) == Took
    ensures var t := WriteAll(q, payloads, answers);
            && t.held == q.held + payloads && t.accepted == q.accepted + payloads
            && t.done == q.done && t.failures == q.failures && t.backpressure
            && var u := Flushed(t, true, pipe);
               && u.held == [] && !u.backpressure && u.failures == q.failures
               && |u.done| == |t.accepted|
               && forall k :: |q.done| <= k < |u.done| ==> u.done[k] == Entry(t.accepted[k], true)
    decreases |payloads|
  {
    hide InOrder;
    if payloads == [] {
      assert q.held + [] == q.held && q.accepted + [] == q.accepted;
      DrainSendsAll(q, pipe);
    } else {
      var t := Wrote(q, payloads[0], true, answers(|payloads|)).0;
      WriteKeeps(q, payloads[0], true, answers(|payloads|));
      BytesOfMore(q.held, payloads[0]);
      FullPipeHoldsUntilDrain(t, payloads[1..], answers, pipe);
      assert q.held + [payloads[0]] + payloads[1..] == q.held + payloads;
      assert q.accepted + [payloads[0]] + payloads[1..] == q.accepted + payloads;
    }
  }

  lemma DrainSendsAll(q: Queue, pipe: nat -> PipeAnswer)
    requires Fits(q) && forall k :: pipe(k) == Took
    ensures var u := Flushed(q, true, pipe);
            && u.held == [] && !u.backpressure && u.failures == q.failures
            && |u.done| == |q.accepted|
            && forall k :: |q.done| <= k < |u.done| ==> u.done[k] == Entry(q.accepted[k], true)
  {
    hide FlushFrom, Bytes;
    var from := q.(backpressure := false);
    OpenPipeSendsEverything(from, pipe, 0);
    OpenPipeStaysOpen(from, pipe, 0);
    FlushFromKeeps(from, pipe, 0);
  }

  lemma {:induction false} OpenPipeStaysOpen(q: Queue, pipe: nat -> PipeAnswer, i: nat)
    requires !q.backpressure && forall k :: pipe(k) == Took
    ensures !FlushFrom(q, pipe, i).backpressure
    decreases |q.held|
  {
    if q.held != [] { OpenPipeStaysOpen(Shifted(q, true), pipe, i + 1); }
  }

  /** A payload that does not fit any more takes everything held with it: none of it is sent, and `fail` is called. */
  lemma OverflowLosesWhatIsHeld(q: Queue, payload: string, answer: PipeAnswer)
    requires Fits(q) && (q.backpressure || q.held != []) && Bytes(q.held) + |payload| > 5 * 1024 * 1024
    ensures var (t, outcome) := Wrote(q, payload, true, answer);
            && outcome == Overflowed && t.held == [] && t.accepted == q.accepted && t.failures == q.failures + 1
            && |t.done| == |t.accepted| && (forall k :: |q.done| <= k < |t.done| ==> !t.done[k].sent)
            && (t.backpressure <==> q.backpressure)
  {}

  /** A drain stops behind the payload that fills the pipe, and one the pipe throws on is lost with all behind it. */
  lemma DrainStopsWherePipeDoes(q: Queue, pipe: nat -> PipeAnswer)
    requires Fits(q) && q.held != [] && pipe(0) != Took
    ensures var t := Flushed(q, true, pipe);
            if pipe(0) == TookAndFull then
              && t.held == q.held[1..] && t.backpressure && t.failures == q.failures
              && t.done == q.done + [Entry(q.held[0], true)]
            else
              && t.held == [] && !t.backpressure && t.failures == q.failures + 1
              && |t.done| == |t.accepted| && forall k :: |q.done| <= k < |t.done| ==> !t.done[k].sent
  {}

  /** Flushing into a stdin that is gone loses what is held, and says so only where something was. */
  lemma GoneStdinLosesWhatIsHeld(q: Queue, pipe: nat -> PipeAnswer)
    requires Fits(q)
    ensures var t := Flushed(q, false, pipe);
            && t.held == [] && t.backpressure == q.backpressure && t.accepted == q.accepted
            && t.failures == q.failures + (if q.held == [] then 0 else 1)
            && |t.done| == |t.accepted| && forall k :: |q.done| <= k < |t.done| ==> !t.done[k].sent
  {}

  // Whole runs.

  datatype Call = WriteCalled(payload: string, writable: bool, answer: PipeAnswer)
                | Drained(writable: bool, pipe: nat -> PipeAnswer)

  function Step(q: Queue, c: Call): Queue {
    match c
    case WriteCalled(payload, writable, answer) => Wrote(q, payload, writable, answer).0
    case Drained(writable, pipe) => Flushed(q, writable, pipe)
  }

  function RunAll(q: Queue, calls: seq<Call>): Queue
    decreases |calls|
  {
    if calls == [] then q else RunAll(Step(q, calls[0]), calls[1..])
  }

  lemma FollowsChains(q: Queue, t: Queue, u: Queue)
    requires Follows(q, t) && Follows(t, u)
    ensures Follows(q, u)
  {
    if u.failures == q.failures {
      forall k | |q.done| <= k < |u.done| ensures u.done[k].sent {
        if k < |t.done| { assert u.done[k] == t.done[k]; }
      }
    }
  }

  lemma {:induction false} RunKeeps(q: Queue, calls: seq<Call>)
    requires Fits(q)
    ensures Fits(RunAll(q, calls)) && Follows(q, RunAll(q, calls))
    decreases |calls|
  {
    hide Fits, Follows, Wrote, Flushed;
    if calls == [] {
      FollowsItself(q);
    } else {
      var t := Step(q, calls[0]);
      match calls[0] {
        case WriteCalled(payload, writable, answer) => WriteKeeps(q, payload, writable, answer);
        case Drained(writable, pipe) => FlushKeeps(q, writable, pipe);
      }
      RunKeeps(t, calls[1..]);
      FollowsChains(q, t, RunAll(q, calls));
    }
  }

  lemma FollowsItself(q: Queue)
    ensures Follows(q, q)
  {}

  lemma {:induction false} SentOfAllSent(done: seq<Entry>)
    requires forall k :: 0 <= k < |done| ==> done[k].sent
    ensures |Sent(done)| == |done| && forall k :: 0 <= k < |done| ==> Sent(done)[k] == done[k].payload
  {
    if done != [] { SentOfAllSent(done[..|done| - 1]); }
  }

  /** Over any run of writes and drains the queue holds at most 5 MiB and only behind a full pipe, stands in
      acceptance order, and while `fail` was never called what reached stdin and what is held is all of it. */
  lemma QueueIsBoundedAndFirstInFirstOut(calls: seq<Call>)
    ensures var q := RunAll(Empty, calls);
            && (q.backpressure || q.held == [])
            && q.heldBytes == Bytes(q.held) <= MAX_WRITE_QUEUE_BYTES
            && InOrder(q)
            && (q.failures == 0 ==> Sent(q.done) + q.held == q.accepted)
  {
    RunKeeps(Empty, calls);
    var q := RunAll(Empty, calls);
    if q.failures == 0 {
      SentOfAllSent(q.done);
    }
  }

  // The object.

  class StdinWriteQueue {
    var backpressure: bool
    var queue: seq<string>
    var queuedBytes: int
    ghost var done: seq<Entry>
    ghost var accepted: seq<string>
    ghost var failures: nat

    ghost function Now(): Queue reads this {
      Queue(backpressure, queue, queuedBytes, done, accepted, failures)
    }

    ghost predicate Valid() reads this { Fits(Now()) }

    constructor ()
      ensures Now() == Empty && Valid()
    {
      backpressure, queue, queuedBytes := false, [], 0;
      done, accepted, failures := [], [], 0;
    }

    /** Write one payload, or hold it behind the ones waiting; anything but `Accepted` is thrown. */
    method Write(payload: string, writable: bool, answer: PipeAnswer) returns (outcome: WriteOutcome)
      requires Valid()
      modifies this
      ensures (Now(), outcome) == Wrote(old(Now()), payload, writable, answer)
      ensures Valid()
    {
      WriteKeeps(Now(), payload, writable, answer);
      if !writable { return NotWritable; }
      if backpressure || |queue| > 0 {
        outcome := Hold(payload);
        return;
      }
      if answer.Threw? {
        failures := failures + 1;
        return Refused;
      }
      WriteToStdin(payload, answer);
      accepted := accepted + [payload];
      return Accepted;
    }

    method WriteToStdin(payload: string, answer: PipeAnswer)
      requires !answer.Threw?
      modifies this`backpressure, this`done
      ensures done == old(done) + [Entry(payload, true)]
      ensures backpressure == (old(backpressure) || answer.TookAndFull?)
    {
      done := done + [Entry(payload, true)];
      if answer.TookAndFull? { backpressure := true; }
    }

    method Hold(payload: string) returns (outcome: WriteOutcome)
      requires backpressure || queue != []
      modifies this
      ensures (Now(), outcome) == Wrote(old(Now()), payload, true, Took)
    {
      if queuedBytes + |payload| > MAX_WRITE_QUEUE_BYTES {
        DropQueued();
        return Overflowed;
      }
      queue := queue + [payload];
      queuedBytes := queuedBytes + |payload|;
      accepted := accepted + [payload];
      return Accepted;
    }

    method DropQueued()
      modifies this
      ensures Now() == DropAll(old(Now())) && failures == old(failures) + 1
    {
      failures := failures + 1;
      done := done + Marked(queue, false);
      queue := [];
      queuedBytes := 0;
    }

    /** The oldest payload goes to stdin; a throw loses it and everything behind it. */
    method WriteNext(answer: PipeAnswer) returns (failed: bool)
      requires queue != []
      modifies this
      ensures failed == answer.Threw?
      ensures Now() == match answer
                       case Threw => DropAll(Shifted(old(Now()), false))
                       case Took => Shifted(old(Now()), true)
                       case TookAndFull => Shifted(old(Now()), true).(backpressure := true)
    {
      var next := queue[0];
      queue := queue[1..];
      queuedBytes := queuedBytes - |next|;
      if answer.Threw? {
        done := done + [Entry(next, false)];
        DropQueued();
        return true;
      }
      WriteToStdin(next, answer);
      return false;
    }

    /** Write what is held, as far as stdin takes it. */
    method Flush(writable: bool, pipe: nat -> PipeAnswer) returns (failed: bool)
      requires Valid()
      modifies this
      ensures Now() == Flushed(old(Now()), writable, pipe)
      ensures failed <==> failures > old(failures)
      ensures Valid()
    {
      hide Fits, Marked;
      FlushKeeps(Now(), writable, pipe);
      if !writable {
        if |queue| == 0 { return false; }
        DropQueued();
        return true;
      }
      backpressure := false;
      ghost var flushed := FlushFrom(Now(), pipe, 0);
      var i := 0;
      while !backpressure && |queue| > 0
        invariant FlushFrom(Now(), pipe, i) == flushed && failures == old(failures)
        decreases |queue|
      {
        failed := WriteNext(pipe(i));
        if failed { return true; }
        i := i + 1;
      }
      failed := false;
    }
  }
}
