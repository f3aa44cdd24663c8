/** Which session directories retention takes: the oldest, as few as the policy allows, and none a server holds. */
module Retention {
  import opened Options
  import opened OrphanReaper

  type Path = string

  /** A session directory as found: who its `owner.json` names, when it was last active, and its size. */
  datatype Dir = Dir(path: Path, owner: OwnerState, lastActiveAt: int, diskBytes: nat)

  datatype Policy = Policy(maxAgeMs: int, maxCount: nat, maxDiskBytes: nat)

  // session-owner.ts

  datatype Owner = Owner(pid: int, startedAt: Option<int>)

  datatype OwnerState = Unowned | Self | Held(proven: bool) | Gone

  /** What a recorded owner is, from what the system says of the pid it names. */
  function StateOf(owner: Option<Owner>, ownPid: int, ownStartedAt: int, liveness: Liveness, check: ProcessCheck):
    OwnerState
  {
    if owner.None? then Unowned
    else if owner.value.pid == ownPid then
      if owner.value.startedAt.Some? && Abs(owner.value.startedAt.value - ownStartedAt) < START_TIME_SLOP_MS
      then Self else Gone
    else
      match liveness
      case Dead => Gone
      case Unsure => Held(false)
      case Alive =>
        match check.identity
        case Match => Held(true)
        case Mismatch => Gone
        case Unknown => Held(false)
  }

  predicate HasLiveOwner(state: OwnerState) { state.Held? || state.Self? }

  /** A recorded owner is given up only on proof: its pid is dead, or names a process that started at another time. */
  lemma GoneOnlyOnProof(owner: Option<Owner>, ownPid: int, ownStartedAt: int, windows: bool, liveness: Liveness,
                        live: Option<LiveProcess>)
    requires owner.Some? && owner.value.pid != ownPid
    ensures var check := Identify(windows, owner.value.pid, owner.value.startedAt, live);
            !HasLiveOwner(StateOf(owner, ownPid, ownStartedAt, liveness, check)) <==>
              liveness == Dead ||
              (liveness == Alive && owner.value.startedAt.Some? && live.Some?
               && Abs(live.value.startMs - owner.value.startedAt.value) >= START_TIME_SLOP_MS)
    ensures var state := StateOf(owner, ownPid, ownStartedAt, liveness,
                                 Identify(windows, owner.value.pid, owner.value.startedAt, live));
            && (state == Gone <==> !HasLiveOwner(state))
            && (state == Held(true) <==>
                  liveness == Alive && owner.value.startedAt.Some? && live.Some?
                  && Abs(live.value.startMs - owner.value.startedAt.value) < START_TIME_SLOP_MS)
  {}

  /** A directory this server's own pid holds is its own only while the claim names this run's start, and one nobody
      claims is free. */
  lemma OwnClaimNamesThisRun(owner: Option<Owner>, ownPid: int, ownStartedAt: int, liveness: Liveness,
                             check: ProcessCheck)
    ensures owner.None? <==> StateOf(owner, ownPid, ownStartedAt, liveness, check) == Unowned
    ensures owner.Some? && owner.value.pid == ownPid ==>
              (HasLiveOwner(StateOf(owner, ownPid, ownStartedAt, liveness, check)) <==>
                 owner.value.startedAt.Some?
                 && -5000 < owner.value.startedAt.value - ownStartedAt < 5000)
  {}

  // Oldest first.

  predicate OldestFirst(dirs: seq<Dir>) {
    forall i, j :: 0 <= i < j < |dirs| ==> dirs[i].lastActiveAt <= dirs[j].lastActiveAt
  }

  /** Behind everything not younger, so equals keep the order they came in. */
  function Insert(d: Dir, sorted: seq<Dir>): seq<Dir> {
    if sorted == [] || d.lastActiveAt < sorted[0].lastActiveAt then [d] + sorted
    else [sorted[0]] + Insert(d, sorted[1..])
  }

  function Sorted(dirs: seq<Dir>): seq<Dir> {
    if dirs == [] then [] else Insert(dirs[|dirs| - 1], Sorted(dirs[..|dirs| - 1]))
  }

  lemma {:induction false} InsertKeepsOrder(d: Dir, sorted: seq<Dir>)
    requires OldestFirst(sorted)
    ensures OldestFirst(Insert(d, sorted))
    ensures forall x :: x in Insert(d, sorted) ==> x == d || x in sorted
    decreases |sorted|
  {
    if sorted != [] && sorted[0].lastActiveAt <= d.lastActiveAt {
      var rest := sorted[1..];
      InsertKeepsOrder(d, rest);
      forall x | x in Insert(d, rest) ensures sorted[0].lastActiveAt <= x.lastActiveAt {
        if x in rest { var i :| 0 <= i < |rest| && rest[i] == x; assert sorted[i + 1] == x; }
      }
    }
  }

  lemma {:induction false} InsertAddsOne(d: Dir, sorted: seq<Dir>)
    ensures multiset(Insert(d, sorted)) == multiset(sorted) + multiset{d}
    decreases |sorted|
  {
    if sorted != [] && sorted[0].lastActiveAt <= d.lastActiveAt {
      InsertAddsOne(d, sorted[1..]);
      assert sorted == [sorted[0]] + sorted[1..];
    }
  }

  lemma {:induction false} SortedIsOldestFirst(dirs: seq<Dir>)
    ensures OldestFirst(Sorted(dirs))
    decreases |dirs|
  {
    if dirs != [] {
      SortedIsOldestFirst(dirs[..|dirs| - 1]);
      InsertKeepsOrder(dirs[|dirs| - 1], Sorted(dirs[..|dirs| - 1]));
    }
  }

  lemma {:induction false} SortedIsPermutation(dirs: seq<Dir>)
    ensures multiset(Sorted(dirs)) == multiset(dirs)
    decreases |dirs|
  {
    if dirs != [] {
      var rest, d := dirs[..|dirs| - 1], dirs[|dirs| - 1];
      SortedIsPermutation(rest);
      InsertAddsOne(d, Sorted(rest));
      assert dirs == rest + [d];
    }
  }

  /** The directories last active at one instant, in order. */
  function OfAge(dirs: seq<Dir>, at: int): seq<Dir> {
    if dirs == [] then []
    else (if dirs[0].lastActiveAt == at then [dirs[0]] else []) + OfAge(dirs[1..], at)
  }

  lemma {:induction false} OfAgeJoins(a: seq<Dir>, b: seq<Dir>, at: int)
    ensures OfAge(a + b, at) == OfAge(a, at) + OfAge(b, at)
    decreases |a|
  {
    if a == [] {
      assert a + b == b;
    } else {
      assert (a + b)[0] == a[0] && (a + b)[1..] == a[1..] + b;
      OfAgeJoins(a[1..], b, at);
    }
  }

  lemma {:induction false} YoungerAreNotOfAge(dirs: seq<Dir>, at: int)
    requires forall d :: d in dirs ==> at < d.lastActiveAt
    ensures OfAge(dirs, at) == []
    decreases |dirs|
  {
    if dirs != [] { YoungerAreNotOfAge(dirs[1..], at); }
  }

  lemma {:induction false} InsertGoesLast(d: Dir, sorted: seq<Dir>, at: int)
    requires OldestFirst(sorted)
    ensures OfAge(Insert(d, sorted), at) == OfAge(sorted, at) + OfAge([d], at)
    decreases |sorted|
  {
    if sorted == [] || d.lastActiveAt < sorted[0].lastActiveAt {
      OfAgeJoins([d], sorted, at);
      if d.lastActiveAt == at { YoungerAreNotOfAge(sorted, at); }
    } else {
      var rest := Insert(d, sorted[1..]);
      assert ([sorted[0]] + rest)[1..] == rest;
      InsertGoesLast(d, sorted[1..], at);
    }
  }

  /** The sort is stable: those last active at one instant keep the order they were listed in. */
  lemma {:induction false} SortIsStable(dirs: seq<Dir>, at: int)
    ensures OfAge(Sorted(dirs), at) == OfAge(dirs, at)
    decreases |dirs|
  {
    if dirs != [] {
      var rest, d := dirs[..|dirs| - 1], dirs[|dirs| - 1];
      SortedIsOldestFirst(rest);
      SortIsStable(rest, at);
      InsertGoesLast(d, Sorted(rest), at);
      OfAgeJoins(rest, [d], at);
      assert dirs == rest + [d];
    }
  }

  // What the policy asks of what is left.

  function Size(dirs: seq<Dir>): nat { if dirs == [] then 0 else dirs[0].diskBytes + Size(dirs[1..]) }

  /** The size is what its directories take, however they are split. */
  lemma {:induction false} SizeAdds(a: seq<Dir>, b: seq<Dir>)
    ensures Size(a + b) == Size(a) + Size(b)
    ensures |a| == 1 ==> Size(a) == a[0].diskBytes
    decreases |a|
  {
    if a == [] {
      assert a + b == b;
    } else {
      assert (a + b)[0] == a[0] && (a + b)[1..] == a[1..] + b;
      SizeAdds(a[1..], b);
    }
  }

  predicate Expired(d: Dir, now: int, policy: Policy) { now - d.lastActiveAt > policy.maxAgeMs }

  predicate Fits(left: seq<Dir>, now: int, policy: Policy) {
    && (forall d :: d in left ==> now - d.lastActiveAt <= policy.maxAgeMs)
    && |left| <= policy.maxCount
    && Size(left) <= policy.maxDiskBytes
  }

  function Paths(dirs: seq<Dir>): set<Path> { set d | d in dirs :: d.path }

  predicate OwnPaths(dirs: seq<Dir>) { forall i, j :: 0 <= i < j < |dirs| ==> dirs[i].path != dirs[j].path }

  /** The shortest prefix whose removal leaves something that fits. */
  ghost predicate ShortestFit(dirs: seq<Dir>, k: nat, now: int, policy: Policy) {
    k <= |dirs| && Fits(dirs[k..], now, policy) && forall j :: 0 <= j < k ==> !Fits(dirs[j..], now, policy)
  }

  lemma {:induction false} SizeShrinks(dirs: seq<Dir>, j: nat, k: nat)
    requires j <= k <= |dirs|
    ensures Size(dirs[k..]) <= Size(dirs[j..])
    decreases k - j
  {
    if j < k {
      assert dirs[j..][1..] == dirs[j + 1..];
      SizeShrinks(dirs, j + 1, k);
    }
  }

  lemma SizeOfOneLess(dirs: seq<Dir>, n: nat)
    requires n < |dirs|
    ensures Size(dirs[n..]) == dirs[n].diskBytes + Size(dirs[n + 1..])
  {
    assert dirs[n..][1..] == dirs[n + 1..];
  }

  lemma SizeOfNone(dirs: seq<Dir>)
    ensures Size(dirs[|dirs|..]) == 0
  {}

  ghost predicate TakesShortestFit(dirs: seq<Dir>, toRemove: set<Path>, now: int, policy: Policy) {
    exists k: nat :: ShortestFit(dirs, k, now, policy) && toRemove == Paths(dirs[..k])
  }

  /** What fits goes on fitting when more is taken. */
  lemma FitsWithLess(dirs: seq<Dir>, j: nat, k: nat, now: int, policy: Policy)
    requires j <= k <= |dirs| && Fits(dirs[j..], now, policy)
    ensures Fits(dirs[k..], now, policy)
  {
    SizeShrinks(dirs, j, k);
    forall d | d in dirs[k..] ensures d in dirs[j..] {
      var i :| 0 <= i < |dirs[k..]| && dirs[k..][i] == d;
      assert dirs[j..][i + (k - j)] == d;
    }
  }

  /** The directories not taken yet, in their order. */
  function Remaining(dirs: seq<Dir>, toRemove: set<Path>): seq<Dir> {
    if dirs == [] then []
    else
      var rest := Remaining(dirs[..|dirs| - 1], toRemove);
      if dirs[|dirs| - 1].path in toRemove then rest else rest + [dirs[|dirs| - 1]]
  }

  lemma {:induction false} RemainingBehindPrefix(dirs: seq<Dir>, k: nat, toRemove: set<Path>)
    requires OwnPaths(dirs) && k <= |dirs| && toRemove == Paths(dirs[..k])
    ensures Remaining(dirs, toRemove) == dirs[k..]
  {
    RemainingUpTo(dirs, |dirs|, k, toRemove);
    assert dirs[..|dirs|] == dirs;
  }

  lemma TakenUpTo(dirs: seq<Dir>, n: nat, k: nat)
    requires OwnPaths(dirs) && k <= |dirs| && n < |dirs|
    ensures dirs[n].path in Paths(dirs[..k]) <==> n < k
  {
    if n < k { assert dirs[..k][n] == dirs[n]; }
  }

  lemma {:induction false} RemainingUpTo(dirs: seq<Dir>, n: nat, k: nat, toRemove: set<Path>)
    requires OwnPaths(dirs) && k <= |dirs| && n <= |dirs| && toRemove == Paths(dirs[..k])
    ensures Remaining(dirs[..n], toRemove) == if n <= k then [] else dirs[k..n]
    decreases n
  {
    hide OwnPaths, Paths;
    if n > 0 {
      RemainingUpTo(dirs, n - 1, k, toRemove);
      var upTo := dirs[..n];
      assert upTo[..n - 1] == dirs[..n - 1] && upTo[n - 1] == dirs[n - 1];
      TakenUpTo(dirs, n - 1, k);
    }
  }

  lemma PathsOfOneMore(dirs: seq<Dir>, k: nat)
    requires k < |dirs|
    ensures Paths(dirs[..k + 1]) == Paths(dirs[..k]) + {dirs[k].path}
  {
    var more := dirs[..k + 1];
    assert more == dirs[..k] + [dirs[k]];
    forall p ensures p in Paths(more) <==> p in Paths(dirs[..k]) || p == dirs[k].path {
      if p == dirs[k].path { assert dirs[k] in more; }
      if p in Paths(dirs[..k]) {
        var d :| d in dirs[..k] && d.path == p;
        assert d in more;
      }
    }
  }

  // The selection as it runs.

  method AddExpiredDirs(dirs: seq<Dir>, now: int, policy: Policy) returns (toRemove: set<Path>, ghost k: nat)
    requires OldestFirst(dirs)
    ensures k <= |dirs| && toRemove == Paths(dirs[..k])
    ensures forall i :: 0 <= i < |dirs| ==> (Expired(dirs[i], now, policy) <==> i < k)
  {
    toRemove, k := {}, 0;
    for i := 0 to |dirs|
      invariant k <= i && toRemove == Paths(dirs[..k])
      invariant forall j :: 0 <= j < i ==> (Expired(dirs[j], now, policy) <==> j < k)
    {
      if now - dirs[i].lastActiveAt > policy.maxAgeMs {
        assert i > 0 ==> Expired(dirs[i - 1], now, policy);
        PathsOfOneMore(dirs, i);
        toRemove := toRemove + {dirs[i].path};
        k := k + 1;
      }
    }
  }

  method AddExcessDirs(dirs: seq<Dir>, maxCount: nat, taken: set<Path>, ghost k: nat)
    returns (toRemove: set<Path>, ghost n: nat)
    requires OwnPaths(dirs) && k <= |dirs| && taken == Paths(dirs[..k])
    ensures n == (if |dirs| - k > maxCount then |dirs| - maxCount else k) && toRemove == Paths(dirs[..n])
  {
    RemainingBehindPrefix(dirs, k, taken);
    var remaining := Remaining(dirs, taken);
    toRemove, n := taken, k;
    if |remaining| > maxCount {
      for i := 0 to |remaining| - maxCount
        invariant n == k + i && toRemove == Paths(dirs[..n])
      {
        PathsOfOneMore(dirs, n);
        toRemove := toRemove + {remaining[i].path};
        n := n + 1;
      }
    }
  }

  method TotalSize(dirs: seq<Dir>) returns (total: nat)
    ensures total == Size(dirs)
  {
    total := 0;
    assert dirs[0..] == dirs;
    for i := 0 to |dirs|
      invariant total + Size(dirs[i..]) == Size(dirs)
    {
      assert dirs[i..][1..] == dirs[i + 1..];
      total := total + dirs[i].diskBytes;
    }
  }

  method AddOversizeDirs(dirs: seq<Dir>, maxDiskBytes: nat, taken: set<Path>, ghost k: nat)
    returns (toRemove: set<Path>, ghost n: nat)
    requires OwnPaths(dirs) && k <= |dirs| && taken == Paths(dirs[..k])
    ensures k <= n <= |dirs| && toRemove == Paths(dirs[..n])
    ensures Size(dirs[n..]) <= maxDiskBytes && forall j :: k <= j < n ==> Size(dirs[j..]) > maxDiskBytes
  {
    hide OwnPaths, Paths, Remaining, Size;
    RemainingBehindPrefix(dirs, k, taken);
    var remaining := Remaining(dirs, taken);
    var totalSize := TotalSize(remaining);
    toRemove, n := taken, k;
    SizeOfNone(dirs);
    var i := 0;
    while i < |remaining|
      invariant i <= |remaining| && n == k + i && toRemove == Paths(dirs[..n])
      invariant totalSize == Size(dirs[n..])
      invariant forall j :: k <= j < n ==> Size(dirs[j..]) > maxDiskBytes
    {
      if totalSize <= maxDiskBytes { break; }
      SizeOfOneLess(dirs, n);
      PathsOfOneMore(dirs, n);
      toRemove := toRemove + {remaining[i].path};
      totalSize := totalSize - remaining[i].diskBytes;
      n := n + 1;
      i := i + 1;
    }
  }

  /** What is taken is the shortest prefix, oldest first, that leaves something within the policy. */
  method SelectDirsToRemove(dirs: seq<Dir>, now: int, policy: Policy) returns (toRemove: set<Path>)
    requires OldestFirst(dirs) && OwnPaths(dirs)
    ensures TakesShortestFit(dirs, toRemove, now, policy)
  {
    ghost var expired: nat;
    ghost var excess: nat;
    ghost var k: nat;
    toRemove, expired := AddExpiredDirs(dirs, now, policy);
    toRemove, excess := AddExcessDirs(dirs, policy.maxCount, toRemove, expired);
    toRemove, k := AddOversizeDirs(dirs, policy.maxDiskBytes, toRemove, excess);
    forall j | 0 <= j < k ensures !Fits(dirs[j..], now, policy) {
      if j < expired { assert dirs[j..][0] == dirs[j] && Expired(dirs[j], now, policy); }
    }
    forall d | d in dirs[k..] ensures !Expired(d, now, policy) {
      var i :| 0 <= i < |dirs[k..]| && dirs[k..][i] == d;
      assert dirs[k + i] == d;
    }
    assert ShortestFit(dirs, k, now, policy);
  }

  /** The directories no running server holds, in the order listed. */
  function Free(entries: seq<Dir>): seq<Dir> {
    if entries == [] then []
    else
      var last := entries[|entries| - 1];
      Free(entries[..|entries| - 1]) + if HasLiveOwner(last.owner) then [] else [last]
  }

  method CollectSessionDirs(entries: seq<Dir>) returns (dirs: seq<Dir>)
    ensures dirs == Free(entries)
  {
    dirs := [];
    for i := 0 to |entries|
      invariant dirs == Free(entries[..i])
    {
      assert entries[..i + 1][..i] == entries[..i];
      if !HasLiveOwner(entries[i].owner) { dirs := dirs + [entries[i]]; }
    }
    assert entries[..|entries|] == entries;
  }

  lemma {:induction false} FreeHasNoLiveOwner(entries: seq<Dir>)
    requires OwnPaths(entries)
    ensures OwnPaths(Free(entries))
    ensures forall d :: d in Free(entries) <==> d in entries && !HasLiveOwner(d.owner)
    decreases |entries|
  {
    if entries != [] {
      var rest, last := entries[..|entries| - 1], entries[|entries| - 1];
      FreeHasNoLiveOwner(rest);
      forall d | d in rest ensures d.path != last.path {
        var i :| 0 <= i < |rest| && rest[i] == d;
        assert entries[i] == d;
      }
      assert forall d :: d in entries <==> d == last || d in rest;
    }
  }

  lemma {:induction false} InsertKeepsOwnPaths(d: Dir, sorted: seq<Dir>)
    requires OwnPaths(sorted) && forall x :: x in sorted ==> x.path != d.path
    ensures OwnPaths(Insert(d, sorted))
    ensures forall x :: x in Insert(d, sorted) <==> x == d || x in sorted
    decreases |sorted|
  {
    if sorted != [] && sorted[0].lastActiveAt <= d.lastActiveAt {
      var rest := sorted[1..];
      InsertKeepsOwnPaths(d, rest);
      forall x | x in Insert(d, rest) ensures x.path != sorted[0].path {
        if x in rest {
          var i :| 0 <= i < |rest| && rest[i] == x;
          assert sorted[i + 1] == x;
        }
      }
    }
  }

  lemma {:induction false} SortedKeepsOwnPaths(dirs: seq<Dir>)
    requires OwnPaths(dirs)
    ensures OwnPaths(Sorted(dirs)) && forall x :: x in Sorted(dirs) <==> x in dirs
    decreases |dirs|
  {
    if dirs != [] {
      var rest, d := dirs[..|dirs| - 1], dirs[|dirs| - 1];
      SortedKeepsOwnPaths(rest);
      forall x | x in rest ensures x.path != d.path {
        var i :| 0 <= i < |rest| && rest[i] == x;
        assert dirs[i] == x;
      }
      InsertKeepsOwnPaths(d, Sorted(rest));
      assert forall x :: x in dirs <==> x == d || x in rest;
    }
  }

  /** Retention takes the shortest oldest prefix of the directories no running server holds, and nothing else. */
  method PruneSessionDirs(entries: seq<Dir>, now: int, policy: Policy) returns (toRemove: set<Path>)
    requires OwnPaths(entries)
    ensures TakesShortestFit(Sorted(Free(entries)), toRemove, now, policy)
    ensures forall d :: d in entries && HasLiveOwner(d.owner) ==> d.path !in toRemove
  {
    var dirs := CollectSessionDirs(entries);
    FreeHasNoLiveOwner(entries);
    SortedIsOldestFirst(dirs);
    SortedKeepsOwnPaths(dirs);
    toRemove := SelectDirsToRemove(Sorted(dirs), now, policy);
    ghost var k: nat :| ShortestFit(Sorted(dirs), k, now, policy) && toRemove == Paths(Sorted(dirs)[..k]);
    forall d | d in entries && HasLiveOwner(d.owner) ensures d.path !in toRemove {
      HeldIsNotTaken(entries, Sorted(dirs), k, d);
    }
  }

  lemma HeldIsNotTaken(entries: seq<Dir>, dirs: seq<Dir>, k: nat, d: Dir)
    requires OwnPaths(entries) && k <= |dirs| && d in entries && HasLiveOwner(d.owner)
    requires forall x :: x in dirs <==> x in entries && !HasLiveOwner(x.owner)
    ensures d.path !in Paths(dirs[..k])
  {
    forall x | x in dirs[..k] ensures x.path != d.path {
      assert x in dirs;
      var i :| 0 <= i < |entries| && entries[i] == x;
      var j :| 0 <= j < |entries| && entries[j] == d;
    }
  }

  /** Pruning what is left takes nothing more. */
  lemma PruningAgainTakesNothing(dirs: seq<Dir>, k: nat, again: nat, now: int, policy: Policy)
    requires ShortestFit(dirs, k, now, policy) && ShortestFit(dirs[k..], again, now, policy)
    ensures again == 0
  {
    assert dirs[k..][0..] == dirs[k..];
  }
}
