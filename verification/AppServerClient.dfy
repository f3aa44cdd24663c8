/** The client object: its pending requests, its write queue, and the failure that runs between them. */
module AppServerClient {
  import opened Options
  import opened WriteQueue
  import opened Connection

  /** The open requests of one connection, and the id the next one takes. */
  class PendingRequests {
    var nextId: Id
    var requests: set<Id>
    var timers: set<Id>
    ghost var outcome: map<Id, Settlement>

    constructor ()
      ensures nextId == 1 && requests == {} && timers == {} && outcome == map[]
    {
      nextId, requests, timers := 1, {}, {};
      outcome := map[];
    }

    method TakeSlot() returns (id: Id)
      modifies this
      ensures id == old(nextId) && nextId == id + 1
      ensures requests == old(requests) + {id} && timers == old(timers) + {id} && outcome == old(outcome)
    {
      id := nextId;
      nextId := nextId + 1;
      timers := timers + {id};
      requests := requests + {id};
    }

    /** The promise of `id` settles, unless it has. */
    ghost method SettlePromise(id: Id, how: Settlement)
      modifies this`outcome
      ensures outcome == Settle(old(outcome), id, how)
    {
      if id !in outcome { outcome := outcome[id := how]; }
    }

    /** The send of a slot threw: the slot goes, if a failure has not taken it, and its promise is rejected. */
    method DropSlot(id: Id)
      modifies this
      ensures nextId == old(nextId) && requests == old(requests) - {id} && timers == old(timers) - {id}
      ensures outcome == Settle(old(outcome), id, Rejected("write refused"))
      requires requests == timers
    {
      if id in requests {
        requests := requests - {id};
        timers := timers - {id};
      }
      SettlePromise(id, Rejected("write refused"));
    }

    method SettleResponse(id: Id, settlement: Settlement)
      modifies this
      ensures nextId == old(nextId)
      ensures requests == old(requests) - {id}
      ensures timers == if id in old(requests) then old(timers) - {id} else old(timers)
      ensures outcome == if id in old(requests) then Settle(old(outcome), id, settlement) else old(outcome)
    {
      if id in requests {
        requests := requests - {id};
        timers := timers - {id};
        SettlePromise(id, settlement);
      }
    }

    method FireTimer(id: Id)
      requires id in timers
      modifies this
      ensures nextId == old(nextId) && requests == old(requests) - {id} && timers == old(timers) - {id}
      ensures outcome == Settle(old(outcome), id, TimedOut)
    {
      requests := requests - {id};
      timers := timers - {id};
      SettlePromise(id, TimedOut);
    }

    /** Reject every open request, one after the other. */
    method FailAll(reason: string)
      modifies this
      ensures nextId == old(nextId) && requests == {} && timers == old(timers) - old(requests)
      ensures outcome == RejectAll(old(outcome), old(requests), reason)
    {
      hide RejectAll, Settle;
      RejectNone(outcome, reason);
      var entries := requests;
      ghost var rejected: set<Id> := {};
      requests := {};
      while entries != {}
        invariant rejected + entries == old(requests) && requests == {} && nextId == old(nextId)
        invariant timers == old(timers) - rejected
        invariant outcome == RejectAll(old(outcome), rejected, reason)
        decreases |entries|
      {
        var id :| id in entries;
        RejectOneMore(old(outcome), rejected, id, reason);
        entries, rejected := entries - {id}, rejected + {id};
        timers := timers - {id};
        SettlePromise(id, Rejected(reason));
      }
    }
  }

  class AppServerClient {
    var destroyed: bool
    var lastFailure: Option<string>
    const pending: PendingRequests
    const writes: StdinWriteQueue

    ghost function Now(): Client
      reads this, pending, writes
    {
      Client(destroyed, lastFailure, pending.nextId, pending.requests, pending.timers, pending.outcome, writes.Now())
    }

    ghost predicate Valid()
      reads this, pending, writes
    {
      Sound(Now())
    }

    constructor ()
      ensures Now() == Fresh && Valid()
      ensures fresh(pending) && fresh(writes)
    {
      destroyed, lastFailure := false, None;
      pending := new PendingRequests();
      writes := new StdinWriteQueue();
    }

    method RecordFailure(reason: string)
      modifies this, pending
      ensures Now() == Connection.RecordFailure(old(Now()), reason)
    {
      lastFailure := Some(reason);
      pending.FailAll(reason);
    }

    method EndConnection(reason: string)
      modifies this, pending
      ensures Now() == EndWith(old(Now()), reason)
    {
      if lastFailure.None? { lastFailure := Some(reason); }
      pending.FailAll(lastFailure.value);
    }

    method OnParseFailure(reason: string)
      modifies this, pending
      ensures Now() == FailParse(old(Now()), reason)
    {
      if lastFailure.None? { lastFailure := Some(reason); }
      pending.FailAll(reason);
    }

    /** One message to stdin; a write the queue lost fails the connection before the throw. */
    method Send(payload: string, stdin: Stdin, answer: PipeAnswer) returns (accepted: bool)
      requires Valid()
      modifies this, pending, writes
      ensures (Now(), accepted) == Connection.Send(old(Now()), payload, stdin, answer)
      ensures Valid()
    {
      hide Fits, Wrote;
      SendKeeps(Now(), payload, stdin, answer);
      if !stdin.present || !stdin.writable { return false; }
      ghost var failures := writes.failures;
      WriteKeeps(writes.Now(), payload, true, answer);
      var outcome := writes.Write(payload, true, answer);
      if outcome.Refused? || outcome.Overflowed? { RecordFailure("write failed"); }
      accepted := outcome.Accepted?;
    }

    /** Send a request under the next id; `id` is none where the call rejects before it takes one. */
    method Request(payload: string, stdin: Stdin, answer: PipeAnswer) returns (id: Option<Id>)
      requires Valid()
      modifies this, pending, writes
      ensures Now() == Connection.Request(old(Now()), payload, stdin, answer)
      ensures Valid()
      ensures id.Some? ==> id.value == old(pending.nextId)
    {
      hide Fits, Connection.Send;
      RequestKeeps(Now(), payload, stdin, answer);
      if destroyed || !stdin.present || !stdin.writable { return None; }
      var slot := pending.TakeSlot();
      assert Correlated(Now());
      var accepted := Send(payload, stdin, answer);
      if !accepted { pending.DropSlot(slot); }
      id := Some(slot);
    }

    method OnResponse(id: Id, settlement: Settlement)
      requires Valid()
      modifies pending
      ensures Now() == Connection.Step(old(Now()), ResponseCame(id, settlement)) && Valid()
    {
      hide Fits;
      pending.SettleResponse(id, settlement);
    }

    method OnTimer(id: Id)
      requires Valid()
      modifies pending
      ensures Now() == Connection.Step(old(Now()), TimerFired(id)) && Valid()
    {
      hide Fits;
      if id in pending.timers { pending.FireTimer(id); }
    }

    method OnDrain(stdin: Stdin, pipe: nat -> PipeAnswer)
      requires Valid()
      modifies this, pending, writes
      ensures Now() == Connection.Step(old(Now()), StdinDrained(stdin, pipe)) && Valid()
    {
      hide Fits, Flushed, Connection.Send, Connection.Request;
      DrainKeeps(Now(), stdin.present && stdin.writable, pipe);
      var failed := writes.Flush(stdin.present && stdin.writable, pipe);
      if failed { RecordFailure("write failed"); }
    }

    method Destroy()
      requires Valid()
      modifies this, pending
      ensures Now() == Connection.Step(old(Now()), DestroyCalled) && Valid()
    {
      hide Fits;
      if destroyed { return; }
      destroyed := true;
      pending.FailAll("Client destroyed");
    }
  }
}
