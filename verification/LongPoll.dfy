/** The loop a held poll runs: read the session, sleep on it, read again. */
module LongPoll {
  import opened Options
  import opened SessionState
  import opened SessionRequests
  import opened SessionRuns
  import opened SessionPolls
  import opened SessionWakeups
  import opened Sequences

  /** What a poll reads of a session: the signal it waits on, and whether the caller is waited for already. */
  datatype Reading = Reading(key: Signal, awaitsCaller: bool)

  predicate IsTerminal(status: Status) { status.Idle? || status.Errored? || status.Cancelled? }

  function ReadSession(s: Session): Reading {
    Reading(SignalOf(s), Unresolved(s) != {} || (IsTerminal(s.status) && !AwaitsTurnRecord(s)))
  }

  /** The caller is waited for where a request is open or the session shows that it is over. */
  lemma AwaitsCallerExactly(s: Session)
    ensures ReadSession(s).awaitsCaller <==>
              || (exists r :: r in s.open && r in s.objects && !s.objects[r].resolved)
              || (s.status == Idle && s.activeTurnId.None?) || s.status == Errored || s.status == Cancelled
  {
    if r :| r in s.open && r in s.objects && !s.objects[r].resolved {
      assert r in Unresolved(s);
    } else {
      forall r ensures r !in Unresolved(s) {
        if r in s.open && r in s.objects { assert s.objects[r].resolved; }
      }
    }
  }

  /** One pass of the loop as the world lets it go: whether the client has aborted, what is left of the window,
      whether the waiter slots are full, and how the session stands when the sleep ends. */
  datatype Pass = Pass(aborted: bool, remainingMs: int, full: bool, next: Reading)

  /** The reading after `k` sleeps. */
  function ReadingAt(from: Reading, passes: seq<Pass>, k: nat): Reading
    requires k <= |passes|
  {
    if k == 0 then from else passes[k - 1].next
  }

  predicate Stands(from: Reading, r: Reading) { !r.awaitsCaller && r.key == from.key }

  predicate Sleeps(p: Pass) { !p.aborted && p.remainingMs > 0 && !p.full }

  /** Sleeps while the session stands where it stood and the window lasts, and not a pass longer: it ends at the
      first reading that moved or waits for the caller, or at the first pass that cannot sleep. */
  method WaitForSessionToMove(from: Reading, passes: seq<Pass>) returns (state: Reading, slept: nat)
    ensures slept <= |passes| && state == ReadingAt(from, passes, slept)
    ensures forall k :: 0 <= k < slept ==> Stands(from, ReadingAt(from, passes, k)) && Sleeps(passes[k])
    ensures slept == |passes| || !Stands(from, state) || !Sleeps(passes[slept])
  {
    state, slept := from, 0;
    while slept < |passes| && !state.awaitsCaller && state.key == from.key && !passes[slept].aborted
      invariant slept <= |passes| && state == ReadingAt(from, passes, slept)
      invariant forall k :: 0 <= k < slept ==> Stands(from, ReadingAt(from, passes, k)) && Sleeps(passes[k])
    {
      if passes[slept].remainingMs <= 0 { break; }
      if passes[slept].full { break; }
      state := passes[slept].next;
      slept := slept + 1;
    }
  }

  /** A session on a terminal status its turn's record does not back yet keeps the poll asleep, as a running one
      does. */
  lemma PollSleepsOverUnrecordedEnd(s: Session)
    requires s.open == [] && s.activeTurnId.Some?
    ensures ReadSession(s.(status := Idle)) == ReadSession(s.(status := Running))
    ensures !ReadSession(s.(status := Idle)).awaitsCaller
  {
    var idle := s.(status := Idle);
    assert Unresolved(idle) == {} == Unresolved(s.(status := Running));
  }

  // The loop over a run of the session.

  /** A session that left the store ends the poll. */
  function ReadWorld(w: World): Reading {
    if w.registered then ReadSession(w.session) else Reading(Gone, true)
  }

  /** One sleep: the waiter that registers and what happens up to the step that wakes it. */
  datatype Nap = Nap(aborted: bool, remainingMs: int, waiter: WaiterId, signal: AbortSignal, during: seq<Event>)

  function NapEvents(nap: Nap): seq<Event> { [WaitCalled(nap.waiter, nap.signal)] + nap.during }

  function AfterNap(w: World, nap: Nap): World { RunAll(w, NapEvents(nap)) }

  function EventsOf(naps: seq<Nap>): seq<Event> {
    if naps == [] then [] else NapEvents(naps[0]) + EventsOf(naps[1..])
  }

  function PassOf(w: World, nap: Nap): Pass {
    Pass(nap.aborted, nap.remainingMs, |w.polls.waiters| >= MAX_WAITERS_PER_SESSION, ReadWorld(AfterNap(w, nap)))
  }

  /** The passes of the loop as a run of the session makes them. */
  function PassesOf(w: World, naps: seq<Nap>): (passes: seq<Pass>)
    ensures |passes| == |naps|
    decreases |naps|
  {
    if naps == [] then [] else [PassOf(w, naps[0])] + PassesOf(AfterNap(w, naps[0]), naps[1..])
  }

  /** These events end with the one that wakes the sleeper, its own timeout or abort if any of them is. */
  ghost predicate WakesAtLast(w: World, during: seq<Event>, q: WaiterId)
    decreases |during|
  {
    && during != [] && q in w.polls.waiters
    && Legal(w, during[0]) && !GoesUnheard(w, during[0])
    && if |during| == 1 then q !in Step(w, during[0]).polls.waiters
       else (IsWait(during[0]) ==> during[0].waiter != q) && WakesAtLast(Step(w, during[0]), during[1..], q)
  }

  /** The waiter is new and its nap goes from its registration to its waking. */
  ghost predicate NapFits(w: World, nap: Nap) {
    && nap.waiter !in w.polls.seen && !nap.signal.Aborted?
    && WakesAtLast(Step(w, WaitCalled(nap.waiter, nap.signal)), nap.during, nap.waiter)
  }

  ghost predicate NapsFit(w: World, naps: seq<Nap>)
    decreases |naps|
  {
    naps == [] || (Sleeps(PassOf(w, naps[0])) ==> NapFits(w, naps[0]) && NapsFit(AfterNap(w, naps[0]), naps[1..]))
  }

  /** What polls need of a session, notified or gone. */
  ghost predicate Polled(w: World) { Sound(w.session) && PollsFit(w) && Fresh(w) }

  /** The session stands on `key` until these events end. */
  ghost predicate StandsDuring(w: World, es: seq<Event>, key: Signal)
    decreases |es|
  {
    es == [] || (SignalAt(w) == key && StandsDuring(Step(w, es[0]), es[1..], key))
  }

  /** Whether the caller is waited for is part of the signal. */
  lemma AwaitingIsInSignal(w: World, from: World)
    requires ReadWorld(w).key == ReadWorld(from).key
    ensures ReadWorld(w) == ReadWorld(from)
  {
    hide Unresolved;
    if w.registered {
      assert SignalOf(w.session).shown == SignalOf(from.session).shown;
      assert SignalOf(w.session).waiting == SignalOf(from.session).waiting;
    }
  }

  lemma KeyIsSignal(w: World)
    ensures ReadWorld(w).key == SignalAt(w)
    ensures ReadWorld(w).awaitsCaller || w.registered
  {
    hide SignalOf;
  }

  /** A sleeper from its registration on: the session stands until it wakes, and moved if a notification woke it. */
  lemma {:induction false} NapStands(w: World, during: seq<Event>, q: WaiterId, key: Signal)
    requires Polled(w) && w.registered && SignalAt(w) == key && WakesAtLast(w, during, q)
    ensures during != [] && Polled(RunAll(w, during)) && StandsDuring(w, during, key)
    ensures SignalAt(RunAll(w, during)) == key <==>
              IsWait(during[|during| - 1]) && during[|during| - 1].waiter == q
    decreases |during|
  {
    hide Sound, PollsFit, Fresh, Step, SignalAt, GoesUnheard, Legal;
    var t, rest := Step(w, during[0]), during[1..];
    HeardStep(w, during[0]);
    assert RunAll(w, during) == RunAll(t, rest);
    if |during| == 1 {
      assert rest == [] && RunAll(t, rest) == t;
      assert StandsDuring(t, rest, key);
      if IsWait(during[0]) && during[0].waiter == q { WaitLeavesSignal(w, during[0]); }
    } else {
      assert q in t.polls.waiters;
      SleeperRegistered(t, q);
      NapStands(t, rest, q, key);
    }
  }

  lemma WaitLeavesSignal(w: World, e: Event)
    requires PollsFit(w) && IsWait(e) && Legal(w, e)
    ensures SignalAt(Step(w, e)) == SignalAt(w)
  {
    hide Step, SignalOf, PollsFit;
    WaitStepKeeps(w, e);
  }

  /** Registering leaves the session where it stands, with the waiter asleep on it. */
  lemma RegistersAsleep(w: World, nap: Nap)
    requires Polled(w) && w.registered && nap.waiter !in w.polls.seen && !nap.signal.Aborted?
    requires |w.polls.waiters| < MAX_WAITERS_PER_SESSION
    ensures var asleep := Step(w, WaitCalled(nap.waiter, nap.signal));
            && Polled(asleep) && asleep.registered && SignalAt(asleep) == SignalAt(w)
            && asleep.session == w.session && nap.waiter in asleep.polls.waiters
  {
    hide Sound, PollsSound, SignalOf;
    WaitingKeeps(w, nap.waiter, nap.signal);
  }

  lemma NapEnds(w: World, nap: Nap, key: Signal)
    requires Polled(w) && w.registered && SignalAt(w) == key
    requires Sleeps(PassOf(w, nap)) && NapFits(w, nap)
    ensures Polled(AfterNap(w, nap)) && StandsDuring(w, NapEvents(nap), key)
    ensures nap.during != []
    ensures SignalAt(AfterNap(w, nap)) == key <==>
              var last := nap.during[|nap.during| - 1]; IsWait(last) && last.waiter == nap.waiter
  {
    hide Polled, Step, SignalAt, WakesAtLast, ReadWorld;
    var called := WaitCalled(nap.waiter, nap.signal);
    RegistersAsleep(w, nap);
    NapStands(Step(w, called), nap.during, nap.waiter, key);
    var es := NapEvents(nap);
    assert es[0] == called && es[1..] == nap.during;
    assert StandsDuring(w, es, key);
    assert RunAll(w, es) == RunAll(Step(w, called), nap.during);
  }

  lemma {:induction false} RunsInTwo(w: World, a: seq<Event>, b: seq<Event>, key: Signal)
    ensures RunAll(w, a + b) == RunAll(RunAll(w, a), b)
    ensures StandsDuring(w, a, key) && StandsDuring(RunAll(w, a), b, key) ==> StandsDuring(w, a + b, key)
    decreases |a|
  {
    hide Step, SignalAt;
    if a == [] {
      assert a + b == b;
    } else {
      DropInFront(a, b, 1);
      RunsInTwo(Step(w, a[0]), a[1..], b, key);
    }
  }

  /** The first `slept` passes slept on a session that stood. */
  ghost predicate SleptThrough(from: Reading, start: Reading, passes: seq<Pass>, slept: nat)
    requires slept <= |passes|
  {
    forall k :: 0 <= k < slept ==> Stands(from, ReadingAt(start, passes, k)) && Sleeps(passes[k])
  }

  lemma SleptThroughTheRest(from: Reading, start: Reading, passes: seq<Pass>, slept: nat)
    requires 0 < slept <= |passes| && SleptThrough(from, start, passes, slept)
    ensures Stands(from, start) && Sleeps(passes[0])
    ensures SleptThrough(from, passes[0].next, passes[1..], slept - 1)
    ensures ReadingAt(start, passes, slept) == ReadingAt(passes[0].next, passes[1..], slept - 1)
  {
    hide Stands, Sleeps;
    assert ReadingAt(start, passes, 0) == start;
    forall k | 0 <= k < slept - 1
      ensures Stands(from, ReadingAt(passes[0].next, passes[1..], k)) && Sleeps(passes[1..][k])
    {
      assert ReadingAt(start, passes, k + 1) == ReadingAt(passes[0].next, passes[1..], k);
    }
  }

  /** Every sleep but the last is over by the waiter's own timer or abort. */
  ghost predicate OnlyLastWoken(naps: seq<Nap>, slept: nat)
    requires slept <= |naps|
  {
    forall k :: 0 <= k < slept - 1 ==>
      var during := naps[k].during;
      during != [] && IsWait(during[|during| - 1]) && during[|during| - 1].waiter == naps[k].waiter
  }

  lemma {:induction false} LoopFollowsRun(w: World, from: Reading, naps: seq<Nap>, slept: nat)
    requires Polled(w) && slept <= |naps| && NapsFit(w, naps)
    requires SleptThrough(from, ReadWorld(w), PassesOf(w, naps), slept)
    ensures var es := EventsOf(naps[..slept]);
            && ReadingAt(ReadWorld(w), PassesOf(w, naps), slept) == ReadWorld(RunAll(w, es))
            && StandsDuring(w, es, from.key) && OnlyLastWoken(naps, slept)
    decreases slept
  {
    hide *;
    if slept == 0 {
      NothingSlept(w, from, naps);
    } else {
      var nap, t, rest := naps[0], AfterNap(w, naps[0]), naps[1..];
      FirstPass(w, naps);
      SleptThroughTheRest(from, ReadWorld(w), PassesOf(w, naps), slept);
      FitsOn(w, from, naps);
      NapEnds(w, nap, from.key);
      LoopFollowsRun(t, from, rest, slept - 1);
      FirstEvents(naps, slept);
      AfterNapIsRun(w, nap);
      RunsInTwo(w, NapEvents(nap), EventsOf(rest[..slept - 1]), from.key);
      if slept > 1 {
        SleptThroughTheRest(from, ReadWorld(t), PassesOf(t, rest), slept - 1);
        StandsOnKey(from, t);
      }
      WokenInFront(naps, slept);
    }
  }

  lemma NothingSlept(w: World, from: Reading, naps: seq<Nap>)
    ensures naps[..0] == [] && RunAll(w, EventsOf(naps[..0])) == w
    ensures ReadingAt(ReadWorld(w), PassesOf(w, naps), 0) == ReadWorld(w)
    ensures StandsDuring(w, EventsOf(naps[..0]), from.key) && OnlyLastWoken(naps, 0)
  {
    assert naps[..0] == [];
  }

  lemma StandsOnKey(from: Reading, w: World)
    requires Stands(from, ReadWorld(w))
    ensures SignalAt(w) == from.key
  {}

  lemma FitsOn(w: World, from: Reading, naps: seq<Nap>)
    requires naps != [] && NapsFit(w, naps) && Sleeps(PassOf(w, naps[0])) && Stands(from, ReadWorld(w))
    ensures w.registered && SignalAt(w) == from.key && NapFits(w, naps[0]) && NapsFit(AfterNap(w, naps[0]), naps[1..])
  {
    KeyIsSignal(w);
  }

  lemma FirstPass(w: World, naps: seq<Nap>)
    requires naps != []
    ensures var passes, t := PassesOf(w, naps), AfterNap(w, naps[0]);
            passes[0] == PassOf(w, naps[0]) && passes[0].next == ReadWorld(t) && passes[1..] == PassesOf(t, naps[1..])
  {}

  lemma FirstEvents(naps: seq<Nap>, slept: nat)
    requires 0 < slept <= |naps|
    ensures EventsOf(naps[..slept]) == NapEvents(naps[0]) + EventsOf(naps[1..][..slept - 1])
  {
    hide NapEvents;
    assert naps[..slept][0] == naps[0] && naps[..slept][1..] == naps[1..][..slept - 1];
  }

  lemma AfterNapIsRun(w: World, nap: Nap)
    ensures AfterNap(w, nap) == RunAll(w, NapEvents(nap))
  {}

  lemma WokenInFront(naps: seq<Nap>, slept: nat)
    requires 0 < slept <= |naps| && OnlyLastWoken(naps[1..], slept - 1)
    requires slept > 1 ==>
      var during := naps[0].during;
      during != [] && IsWait(during[|during| - 1]) && during[|during| - 1].waiter == naps[0].waiter
    ensures OnlyLastWoken(naps, slept)
  {
    forall k | 0 < k < slept - 1 ensures naps[k] == naps[1..][k - 1] {}
  }

  /** A poll over a run of a notified session returns at the first state that differs from the one it read, be it a
      session that is gone. Where it returns without one, the caller was waited for from the start, or the deadline
      has passed, the client has gone or the slots are full while the session stands; and it was woken at most once. */
  lemma PollReturnsAtFirstMove(w: World, naps: seq<Nap>, state: Reading, slept: nat)
    requires Polled(w) && w.registered && NapsFit(w, naps) && slept <= |naps|
    requires var from, passes := ReadWorld(w), PassesOf(w, naps);
             && state == ReadingAt(from, passes, slept) && SleptThrough(from, from, passes, slept)
             && (!Stands(from, state) || (slept < |naps| && !Sleeps(passes[slept])))
    ensures var es := EventsOf(naps[..slept]);
            && state == ReadWorld(RunAll(w, es)) && OnlyLastWoken(naps, slept)
            && (forall k :: 0 <= k < |es| ==> SignalAt(RunAll(w, es[..k])) == SignalAt(w))
            && (SignalAt(RunAll(w, es)) == SignalAt(w) ==>
                  (slept == 0 && ReadWorld(w).awaitsCaller) || (slept < |naps| && !Sleeps(PassesOf(w, naps)[slept])))
  {
    hide Polled, SignalAt, NapsFit, Sleeps, ReadWorld, RunAll, EventsOf, PassesOf, OnlyLastWoken, SleptThrough;
    var es := EventsOf(naps[..slept]);
    KeyIsSignal(w);
    LoopFollowsRun(w, ReadWorld(w), naps, slept);
    StandsAllAlong(w, es, SignalAt(w));
    KeyIsSignal(RunAll(w, es));
    if SignalAt(RunAll(w, es)) == SignalAt(w) {
      AwaitingIsInSignal(RunAll(w, es), w);
      if slept > 0 { SleptThroughTheRest(ReadWorld(w), ReadWorld(w), PassesOf(w, naps), slept); }
    }
  }

  lemma {:induction false} StandsAllAlong(w: World, es: seq<Event>, key: Signal)
    requires StandsDuring(w, es, key)
    ensures forall k :: 0 <= k < |es| ==> SignalAt(RunAll(w, es[..k])) == key
    decreases |es|
  {
    hide Step, SignalAt;
    if es != [] {
      var t, rest := Step(w, es[0]), es[1..];
      StandsAllAlong(t, rest, key);
      forall k | 0 <= k < |es| ensures SignalAt(RunAll(w, es[..k])) == key {
        if k == 0 { assert es[..0] == []; }
        else { assert es[..k][0] == es[0] && es[..k][1..] == rest[..k - 1]; }
      }
    }
  }
}
