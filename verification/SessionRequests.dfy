/** What every step keeps of the requests a session holds open, and what becomes of each JSON-RPC id. */
module SessionRequests {
  import opened Options
  import opened WarningRing
  import opened SessionState

  /** Every request in the map can still be answered and has a live timer; no other has either. */
  ghost predicate Tended(s: Session) {
    && Distinct(s.open)
    && (forall r :: r in s.open ==> r in s.objects && !s.objects[r].resolved && r in s.armed)
    && (forall r :: r in s.armed ==> r in s.open)
    && (forall r :: r in s.objects && r !in s.open ==> s.objects[r].resolved)
  }

  ghost predicate Held(s: Session, rpc: Rpc) {
    exists r :: r in s.open && r in s.objects && s.objects[r].rpc == rpc
  }

  ghost predicate Told(s: Session, rpc: Rpc) { exists i :: 0 <= i < |s.wire| && s.wire[i].rpc == rpc }

  ghost predicate ToldOnce(wire: seq<Delivery>) {
    forall i, j :: 0 <= i < j < |wire| ==> wire[i].rpc != wire[j].rpc
  }

  ghost predicate OwnRpcs(s: Session) {
    forall r1, r2 :: r1 in s.objects && r2 in s.objects && s.objects[r1].rpc == s.objects[r2].rpc ==> r1 == r2
  }

  ghost predicate OneFate(s: Session, rpc: Rpc) {
    && (Held(s, rpc) ==> !Told(s, rpc) && rpc !in s.undelivered)
    && (Told(s, rpc) ==> rpc !in s.undelivered)
    && (rpc in s.asked <==> Held(s, rpc) || Told(s, rpc) || rpc in s.undelivered)
  }

  /** Each id asked is held open, answered on the wire, or lost with its one answer: exactly one of these. */
  ghost predicate Accounted(s: Session) {
    && OwnRpcs(s)
    && (forall r :: r in s.objects ==> s.objects[r].rpc in s.asked)
    && ToldOnce(s.wire)
    && (forall rpc :: OneFate(s, rpc))
  }

  /** The requests are tended and accounted for, and a cancelled session holds none. */
  ghost predicate Sound(s: Session) {
    Tended(s) && Accounted(s) && (s.status.Cancelled? ==> s.open == [])
  }

  /** A session in the store waits on its caller only while the caller has something to answer. */
  ghost predicate WaitIsAnswerable(w: World) {
    w.registered && w.session.status.WaitingApproval? ==> w.session.open != []
  }

  /** Request ids and JSON-RPC ids come new. */
  ghost predicate Legal(w: World, e: Event) {
    && (e.RequestCame? ==> e.req !in w.session.objects && e.rpc !in w.session.asked)
    && (e.WaitCalled? ==> e.waiter !in w.polls.seen)
  }

  ghost predicate LegalRun(w: World, es: seq<Event>)
    decreases |es|
  {
    es == [] || (Legal(w, es[0]) && LegalRun(Step(w, es[0]), es[1..]))
  }

  /** `t` is `s` with its open request `req` closed and answered, whatever the status. */
  ghost predicate Closes(s: Session, t: Session, req: RequestId, answer: Answer, sends: bool) {
    && req in s.open && req in s.objects
    && (exists o: Pending :: t.objects == s.objects[req := o] && o.resolved && o.rpc == s.objects[req].rpc)
    && Distinct(t.open) && (forall r :: r in t.open <==> r in s.open && r != req)
    && t.armed == s.armed - {req}
    && t.asked == s.asked
    && Deliver(s, s.objects[req].rpc, answer, sends).wire == t.wire
    && Deliver(s, s.objects[req].rpc, answer, sends).undelivered == t.undelivered
  }

  lemma ClosingTends(s: Session, t: Session, req: RequestId, answer: Answer, sends: bool)
    requires Tended(s) && Closes(s, t, req, answer, sends)
    ensures Tended(t)
  {}

  lemma ClosingMovesOneFate(s: Session, t: Session, req: RequestId, answer: Answer, sends: bool, rpc: Rpc)
    requires Tended(s) && Accounted(s) && Closes(s, t, req, answer, sends)
    ensures OneFate(t, rpc)
  {
    assert OneFate(s, rpc) && OneFate(s, s.objects[req].rpc);
    var closed := s.objects[req].rpc;
    assert forall r :: r in s.objects ==> t.objects[r].rpc == s.objects[r].rpc;
    if rpc == closed {
      assert Held(s, rpc);
      assert !Held(t, rpc);
      if sends { assert t.wire[|s.wire|].rpc == rpc; }
    } else {
      if Held(s, rpc) {
        var r :| r in s.open && r in s.objects && s.objects[r].rpc == rpc;
        assert t.objects[r].rpc == rpc && r in t.open;
      }
      assert Held(t, rpc) <==> Held(s, rpc);
      if Told(s, rpc) {
        var i :| 0 <= i < |s.wire| && s.wire[i].rpc == rpc;
        assert t.wire[i].rpc == rpc;
      }
      assert Told(t, rpc) <==> Told(s, rpc);
    }
  }

  lemma ClosingAccounts(s: Session, t: Session, req: RequestId, answer: Answer, sends: bool)
    requires Tended(s) && Accounted(s) && Closes(s, t, req, answer, sends)
    ensures Accounted(t)
  {
    var closed := s.objects[req].rpc;
    assert Held(s, closed) && OneFate(s, closed);
    forall rpc ensures OneFate(t, rpc) { ClosingMovesOneFate(s, t, req, answer, sends, rpc); }
    forall i, j | 0 <= i < j < |t.wire| ensures t.wire[i].rpc != t.wire[j].rpc {
      if j == |s.wire| { assert s.wire[i].rpc != closed; }
    }
  }

  lemma HoldingOpenKeeps(s: Session, req: RequestId, rpc: Rpc, kind: Kind)
    requires Sound(s) && !s.status.Cancelled?
    requires req !in s.objects && rpc !in s.asked
    ensures Sound(HoldOpen(s.(asked := s.asked + {rpc}), req, rpc, kind))
  {
    var t := HoldOpen(s.(asked := s.asked + {rpc}), req, rpc, kind);
    assert Tended(t);
    forall id ensures OneFate(t, id) {
      assert OneFate(s, id);
      if id == rpc { assert t.objects[req].rpc == rpc && req in t.open; }
      else if Held(s, id) {
        var r :| r in s.open && r in s.objects && s.objects[r].rpc == id;
        assert r in t.open && t.objects[r].rpc == id;
      }
      assert Told(t, id) <==> Told(s, id);
    }
  }

  lemma DirectAnswerKeeps(s: Session, rpc: Rpc, answer: Answer, sends: bool)
    requires Sound(s) && rpc !in s.asked
    ensures Sound(Deliver(s.(asked := s.asked + {rpc}), rpc, answer, sends))
  {
    var t := Deliver(s.(asked := s.asked + {rpc}), rpc, answer, sends);
    assert OneFate(s, rpc);
    forall id ensures OneFate(t, id) {
      assert OneFate(s, id);
      if Held(s, id) {
        var r :| r in s.open && r in s.objects && s.objects[r].rpc == id;
        assert t.objects[r].rpc == id;
      }
      if id == rpc && sends { assert t.wire[|s.wire|].rpc == rpc; }
      else if Told(s, id) {
        var i :| 0 <= i < |s.wire| && s.wire[i].rpc == id;
        assert t.wire[i].rpc == id;
      }
    }
  }

  /** A field the accounts do not read. */
  ghost predicate SameRequests(s: Session, t: Session) {
    s.objects == t.objects && s.open == t.open && s.armed == t.armed && s.asked == t.asked && s.wire == t.wire
    && s.undelivered == t.undelivered
  }

  lemma SameRequestsKeep(s: Session, t: Session)
    requires Tended(s) && Accounted(s) && SameRequests(s, t)
    ensures Tended(t) && Accounted(t)
  {
    forall rpc ensures OneFate(t, rpc) { assert OneFate(s, rpc); }
  }

  lemma {:induction false} ClosingAllKeeps(s: Session, failing: set<Rpc>)
    requires Tended(s) && Accounted(s)
    ensures var t := CloseAll(s, failing);
            Tended(t) && Accounted(t) && t.open == [] && t.status == s.status && t.asked == s.asked
            && t.activeTurnId == s.activeTurnId && t.lastResult == s.lastResult && t.activity == s.activity
            && t.ring == s.ring
    ensures failing == {} ==> CloseAll(s, failing).undelivered == s.undelivered
    decreases |s.open|
  {
    if s.open != [] {
      var t, req := CloseFirst(s, failing), s.open[0];
      assert forall r :: r in s.open[1..] <==> r in s.open && r != req;
      assert t.objects == s.objects[req := s.objects[req].(resolved := true)];
      assert Closes(s, t, req, CancelAnswer(s.objects[req].kind), s.objects[req].rpc !in failing);
      ClosingTends(s, t, req, CancelAnswer(s.objects[req].kind), s.objects[req].rpc !in failing);
      ClosingAccounts(s, t, req, CancelAnswer(s.objects[req].kind), s.objects[req].rpc !in failing);
      ClosingAllKeeps(t, failing);
    }
  }
}
