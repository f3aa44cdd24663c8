/** The fingerprint that spares a session's meta.json a write, and what the file then says. */
module MetaCache {
  import opened Options

  type Text = Option<string>

  /** The fields the fingerprint prints. */
  datatype Covered = Covered(
    status: Text, threadId: Text, model: Text, cwd: Text, profile: Text, approvalPolicy: Text, sandbox: Text,
    personality: Text, effort: Text, summary: Text, baseInstructions: Text, developerInstructions: Text,
    approvalTimeoutMs: Text, cancelledAt: Text, cancelledReason: Text, config: Text, effective: Text)

  /** The fields meta.json carries besides and a running session changes. */
  datatype Uncovered = Uncovered(lastActiveAt: Text, permissions: Text, approvalsReviewer: Text)

  datatype Session = Session(covered: Covered, uncovered: Uncovered)

  /** A session's record, its file, and the list the last write of it was made under. */
  datatype Store = Store(session: Session, file: Option<Session>, cached: Option<seq<Text>>)

  /** The printed list two writes are compared by. */
  function Fingerprint(s: Session): seq<Text> {
    var c := s.covered;
    [c.status, c.threadId, c.model, c.cwd, c.profile, c.approvalPolicy, c.sandbox, c.personality, c.effort,
     c.summary, c.baseInstructions, c.developerInstructions, c.approvalTimeoutMs, c.cancelledAt, c.cancelledReason,
     c.config, c.effective]
  }

  /** Two sessions print alike exactly when every covered field is the same. */
  lemma FingerprintTellsCoveredApart(s: Session, t: Session)
    ensures Fingerprint(s) == Fingerprint(t) <==> s.covered == t.covered
  {
    var a, b := Fingerprint(s), Fingerprint(t);
    if a == b {
      assert forall i :: 0 <= i < 17 ==> a[i] == b[i];
      assert a[0] == b[0] && a[1] == b[1] && a[2] == b[2] && a[3] == b[3] && a[4] == b[4] && a[5] == b[5];
      assert a[6] == b[6] && a[7] == b[7] && a[8] == b[8] && a[9] == b[9] && a[10] == b[10] && a[11] == b[11];
      assert a[12] == b[12] && a[13] == b[13] && a[14] == b[14] && a[15] == b[15] && a[16] == b[16];
    }
  }

  function PersistIfChanged(st: Store, writes: bool): Store {
    if st.cached == Some(Fingerprint(st.session)) || !writes then st
    else st.(file := Some(st.session), cached := Some(Fingerprint(st.session)))
  }

  datatype Event = Mutated(session: Session) | Persisted(writes: bool)

  function Step(st: Store, e: Event): Store {
    if e.Mutated? then st.(session := e.session) else PersistIfChanged(st, e.writes)
  }

  function RunAll(st: Store, es: seq<Event>): Store {
    if es == [] then st else Step(RunAll(st, es[..|es| - 1]), es[|es| - 1])
  }

  /** The session as the last change left it. */
  function LastChange(session: Session, es: seq<Event>): Session
    decreases |es|
  {
    if es == [] then session
    else LastChange(match es[0] { case Mutated(changed) => changed case Persisted(_) => session }, es[1..])
  }

  lemma {:induction false} ChangesReachTheSession(st: Store, es: seq<Event>)
    ensures RunAll(st, es).session == LastChange(st.session, es)
    decreases |es|
  {
    if es != [] {
      RunsFromTheFront(st, es);
      ChangesReachTheSession(Step(st, es[0]), es[1..]);
    }
  }

  lemma {:induction false} RunsFromTheFront(st: Store, es: seq<Event>)
    requires es != []
    ensures RunAll(st, es) == RunAll(Step(st, es[0]), es[1..])
    decreases |es|
  {
    if |es| == 1 {
      assert es[..0] == [] && es[1..] == [];
    } else {
      var front := es[..|es| - 1];
      RunsFromTheFront(st, front);
      assert es[1..][..|es[1..]| - 1] == front[1..];
    }
  }

  /** The cached list is that of the file. */
  predicate CacheIsOfFile(st: Store) {
    st.cached.Some? ==> st.file.Some? && st.cached.value == Fingerprint(st.file.value)
  }

  predicate FileCovers(st: Store) { st.file.Some? && st.file.value.covered == st.session.covered }

  lemma {:induction false} CacheFollowsFile(st: Store, es: seq<Event>)
    requires CacheIsOfFile(st)
    ensures CacheIsOfFile(RunAll(st, es))
  {
    if es != [] { CacheFollowsFile(st, es[..|es| - 1]); }
  }

  /** After any changes and writes, some of them lost, a persist that can write leaves the file saying of every
      covered field what always writing would; one that cannot write leaves a stale file to the next. */
  lemma SkippedWritesLoseNothingCovered(st: Store, es: seq<Event>, writes: bool)
    requires CacheIsOfFile(st)
    ensures var t := PersistIfChanged(RunAll(st, es), writes);
            && t.session == LastChange(st.session, es)
            && (writes ==> FileCovers(t))
            && (!FileCovers(t) ==> t.cached != Some(Fingerprint(t.session)))
  {
    CacheFollowsFile(st, es);
    ChangesReachTheSession(st, es);
    var t := PersistIfChanged(RunAll(st, es), writes);
    if t.file.Some? { FingerprintTellsCoveredApart(t.file.value, t.session); }
  }

  /** Of the fields outside the fingerprint the file says what the session does exactly when it was written now or
      happened to say so before. */
  lemma UncoveredFieldsGoStaleExactly(st: Store)
    requires CacheIsOfFile(st)
    ensures PersistIfChanged(st, true).file == Some(st.session) <==>
              st.cached != Some(Fingerprint(st.session)) || st.file.value.uncovered == st.session.uncovered
  {
    if st.cached == Some(Fingerprint(st.session)) { FingerprintTellsCoveredApart(st.file.value, st.session); }
  }

  /** Changing nothing but the session's permissions leaves the file naming the old ones, until some covered field
      changes too. */
  lemma ChangedPermissionsWaitForCoveredChange(st: Store, permissions: Text, status: Text)
    requires CacheIsOfFile(st) && st.cached == Some(Fingerprint(st.session)) && st.file == Some(st.session)
    requires permissions != st.session.uncovered.permissions && status != st.session.covered.status
    ensures var changed := st.session.(uncovered := st.session.uncovered.(permissions := permissions));
            var moved := changed.(covered := changed.covered.(status := status));
            && PersistIfChanged(st.(session := changed), true).file == Some(st.session)
            && PersistIfChanged(st.(session := moved), true).file == Some(moved)
  {
    var changed := st.session.(uncovered := st.session.uncovered.(permissions := permissions));
    FingerprintTellsCoveredApart(st.session, changed);
    FingerprintTellsCoveredApart(st.session, changed.(covered := changed.covered.(status := status)));
  }

  class SessionStore {
    var session: Session
    var lastPersistedMeta: Option<seq<Text>>
    ghost var file: Option<Session>

    ghost function Now(): Store reads this { Store(session, file, lastPersistedMeta) }

    constructor (session: Session)
      ensures Now() == Store(session, None, None) && CacheIsOfFile(Now())
    {
      this.session, lastPersistedMeta := session, None;
      file := None;
    }

    method PersistSessionIfChanged(writes: bool)
      requires CacheIsOfFile(Now())
      modifies this`file, this`lastPersistedMeta
      ensures Now() == PersistIfChanged(old(Now()), writes) && CacheIsOfFile(Now())
    {
      var fingerprint := Fingerprint(session);
      if lastPersistedMeta == Some(fingerprint) { return; }
      if writes {
        file := Some(session);
        lastPersistedMeta := Some(fingerprint);
      }
    }
  }
}
