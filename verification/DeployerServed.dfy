/** What a deployer's reconcile comes to when its calls are served and it reads the latest versions: stated
    on the stored objects alone. */
module DeployerServed {
  import opened Objects
  import opened Quantities
  import opened Names
  import opened Pods
  import opened Ledger
  import opened Api
  import opened DeployerThread
  import opened Cluster
  import opened PoolServed
  import opened DeployerTurns

  /** At rest, about to read the latest version, and every call to come is served. */
  ghost predicate Ready(s: State, d: Key, x: Deployer, ch: Course) {
    && ThreadOf(s, d).Idle? && DeployerNow(s.store, d) == Some(x)
    && AllServed(ch) && ch(0).index + 1 >= |DeployerVersions(s.store, d)|
  }

  /** And it is live and under its finalizer. */
  ghost predicate ReadyLive(s: State, d: Key, x: Deployer, ch: Course) {
    Ready(s, d, x, ch) && x.finalizer && !x.deleting
  }

  /* ---- before a round ---- */

  /** A round set back parks the deployer. */
  lemma ServedPark(s: State, d: Key, x: Deployer, ch: Course)
    requires ReadyLive(s, d, x, ch) && x.spec.round < x.status.currentRound
    ensures OnlyDeployer(s, Turns(s, d, ch, 2), d, x.(status := x.status.(status := Undo)))
  {
    var at := Start(s, d, ch);
    var s1 := GetTurn(s, d, x, ch, 0, at);
    var s2 := SaveTurn(s1, d, x, ch, 1, at);
  }

  /** A new deployer gets its finalizer, and a round of 0 becomes -1. */
  lemma ServedGuard(s: State, d: Key, x: Deployer, ch: Course)
    requires Ready(s, d, x, ch) && !x.deleting && !x.finalizer
    ensures OnlyDeployer(s, Turns(s, d, ch, 2), d,
                         x.(finalizer := true,
                            spec := if x.spec.round == 0 then x.spec.(round := -1) else x.spec))
  {
    var at := Start(s, d, ch);
    var s1 := GetTurn(s, d, x, ch, 0, at);
    var s2 := FinalizerTurn(s1, d, x, ch, 1, at);
  }

  /* ---- the beg of a round ---- */

  /** The deployer as the round that begins leaves it. */
  predicate BegunFrom(x: Deployer, y: Deployer, held: string, status: Status) {
    && y == x.(held := held, status := y.status)
    && y.status.status == status && y.status.currentRound == x.spec.round
    && y.status.history == x.status.history +
         (if x.status.currentRound == 0 then [] else [HistoryRecord(x.status.currentRound, x.status.status)])
  }

  predicate Fits(need: Resource, free: Resource) {
    need.cpu <= free.cpu && need.memory <= free.memory
  }

  /** The round is stored with its reservation, and nothing but `d` and its pool is touched. */
  predicate Begun(st: Store, s': State, d: Key, x: Deployer, y: Pool, need: Resource) {
    var q := x.spec.resourcePool;
    && DeployerNow(s'.store, d).Some? && BegunFrom(x, DeployerNow(s'.store, d).value, q, Pending)
    && PoolNow(s'.store, q) == Some(y.(usage := y.usage + [UsageEntry(d, need)]))
    && s'.store == st.(deployers := st.deployers[d := DeployerVersions(s'.store, d)],
                       pools := st.pools[q := PoolVersions(s'.store, q)])
  }

  /** The read of a further attempt, if that of the first is call `n`: each takes two calls. */
  function Attempt(ch: Course, n: int, i: int): Choice {
    ch(n + 2 * i)
  }

  /** The wanted pool is about to be asked for the round of `x`. */
  predicate Asking(s: State, d: Key, x: Deployer, tries: int) {
    var t := ThreadOf(s, d);
    && DeployerNow(s.store, d) == Some(x)
    && t.ReadWanted? && t.mem == Advanced(x) && t.ver == Newest(s, d) && t.tries == tries
  }

  /** An attempt that reads an overtaken version with room enough: its write meets a conflict. */
  predicate Overtaken(h: Versions<Pool>, c: Choice, need: Resource) {
    && c.fate.Served? && c.index + 1 < |h| && h[c.index].Some? && Latest(h).Some?
    && h[c.index].value.free.Some? && Fits(need, h[c.index].value.free.value)
  }

  /** So do the first `k` attempts. */
  ghost predicate AllOvertaken(h: Versions<Pool>, ch: Course, n: int, k: nat, need: Resource) {
    forall i: nat | i < k :: Overtaken(h, Attempt(ch, n, i), need)
  }

  /** The comparison of a beg. */
  lemma WantedRead(d: Key, mem: Deployer, ver: nat, tries: nat, y: Pool, pver: nat, free: Resource, need: Resource)
    requires y.free == Some(free) && need == Charge(mem.spec.containers)
    ensures Resume(d, ReadWanted(mem, ver, tries), GotPool(y, pver)) ==
              if Fits(need, free) then PutBeg(mem, ver, tries, y, pver) else Idle
  {
  }

  /** As long as attempts are left, the beg is tried again. */
  lemma {:induction false} RetryTurns(s: State, d: Key, x: Deployer, need: Resource, k: nat, ch: Course, n: int,
                                      at: (State, int) -> bool) returns (s': State)
    requires At(s, n, at, d, ch) && AllServed(ch) && Asking(s, d, x, 5) && need == Charge(x.spec.containers)
    requires k <= 5 && AllOvertaken(PoolVersions(s.store, x.spec.resourcePool), ch, n, k, need)
    ensures At(s', n + 2 * k, at, d, ch) && s'.store == s.store
    ensures if k == 5 then ThreadOf(s', d).Idle? else Asking(s', d, x, 5 - k)
  {
    if k == 0 {
      s' := s;
    } else {
      var s1 := RetryTurns(s, d, x, need, k - 1, ch, n, at);
      s' := RetryTurn(s1, d, x, need, k - 1, ch, n, at);
    }
  }

  lemma RetryTurn(s: State, d: Key, x: Deployer, need: Resource, k: nat, ch: Course, n: int,
                  at: (State, int) -> bool) returns (s': State)
    requires k < 5 && At(s, n + 2 * k, at, d, ch) && AllServed(ch) && Asking(s, d, x, 5 - k)
    requires need == Charge(x.spec.containers)
    requires Overtaken(PoolVersions(s.store, x.spec.resourcePool), Attempt(ch, n, k), need)
    ensures At(s', n + 2 * (k + 1), at, d, ch) && s'.store == s.store
    ensures if k == 4 then ThreadOf(s', d).Idle? else Asking(s', d, x, 4 - k)
  {
    var q, m, i := x.spec.resourcePool, n + 2 * k, ch(n + 2 * k).index;
    var y := PoolVersions(s.store, q)[i].value;
    var s1 := VersionReadTurn(s, d, q, i, ch, m, at);
    WantedRead(d, Advanced(x), Newest(s, d), 5 - k, y, i, y.free.value, need);
    s' := ConflictTurn(s1, d, q, ch, m + 1, at);
  }

  /** With room enough the entry and then the round are stored. */
  lemma BegTurns(s: State, d: Key, x: Deployer, y: Pool, free: Resource, need: Resource, tries: nat, ch: Course, n: int,
                 at: (State, int) -> bool) returns (s': State)
    requires At(s, n, at, d, ch) && AllServed(ch) && Asking(s, d, x, tries) && need == Charge(x.spec.containers)
    requires PoolNow(s.store, x.spec.resourcePool) == Some(y) && Serves(ch(n), s, x.spec.resourcePool)
    requires y.free == Some(free) && Fits(need, free)
    ensures At(s', n + 3, at, d, ch) && Begun(s.store, s', d, x, y, need)
  {
    var q := x.spec.resourcePool;
    var s1 := PoolReadTurn(s, d, q, y, ch, n, at);
    WantedRead(d, Advanced(x), Newest(s, d), tries, y, |PoolVersions(s.store, q)| - 1, free, need);
    var s2 := PutBegTurn(s1, d, q, y, ch, n + 1, at);
    s' := SaveTurn(s2, d, x, ch, n + 2, at);
  }

  /** Without, nothing is stored, and the reconcile is over. */
  lemma RefuseTurn(s: State, d: Key, x: Deployer, y: Pool, free: Resource, need: Resource, tries: nat, ch: Course,
                   n: int, at: (State, int) -> bool) returns (s': State)
    requires At(s, n, at, d, ch) && Asking(s, d, x, tries) && need == Charge(x.spec.containers)
    requires PoolNow(s.store, x.spec.resourcePool) == Some(y) && Serves(ch(n), s, x.spec.resourcePool)
    requires y.free == Some(free) && !Fits(need, free)
    ensures At(s', n + 1, at, d, ch) && s'.store == s.store && ThreadOf(s', d).Idle?
  {
    var q := x.spec.resourcePool;
    s' := PoolReadTurn(s, d, q, y, ch, n, at);
    WantedRead(d, Advanced(x), Newest(s, d), tries, y, |PoolVersions(s.store, q)| - 1, free, need);
  }

  /* ---- towards a round ---- */

  /** A later round is asked for, of a known kind. */
  predicate Later(x: Deployer) {
    x.spec.round > x.status.currentRound && (x.spec.kind == JOB || x.spec.kind == SERVICE)
  }

  /** Cleanup is shown no old workload. */
  lemma ClearTurns(s: State, d: Key, x: Deployer, ch: Course, at: (State, int) -> bool) returns (s': State)
    requires At(s, 0, at, d, ch) && ReadyLive(s, d, x, ch) && Later(x) && !ch(1).seen
    ensures At(s', 2, at, d, ch) && s'.store == s.store
    ensures ThreadOf(s', d) == EnterRelease(x, Newest(s, d), NextRound)
  {
    var s1 := GetTurn(s, d, x, ch, 0, at);
    s' := CacheTurn(s1, d, ch, 1, at);
  }

  /** What the cleanup makes of the old workload: a job is deleted if it is shown. */
  function JobsLeft(s: State, d: Key, x: Deployer, ch: Course): map<Key, Job> {
    if x.spec.kind == JOB && ch(1).seen then s.store.jobs - {SubKey(d, x.status.currentRound)} else s.store.jobs
  }

  /** The calls of the cleanup, by whether it is shown an old workload. */
  function CleanupCalls(ch: Course): int {
    if ch(1).seen then 3 else 2
  }

  /** A job that is shown is there. */
  predicate JobShown(s: State, d: Key, x: Deployer, ch: Course) {
    x.spec.kind == JOB && ch(1).seen ==> SubKey(d, x.status.currentRound) in s.store.jobs
  }

  /** Cleanup is shown the old job, or Deployment, and deletes it. */
  lemma DeleteTurns(s: State, d: Key, x: Deployer, ch: Course, at: (State, int) -> bool) returns (s': State)
    requires At(s, 0, at, d, ch) && ReadyLive(s, d, x, ch) && Later(x) && ch(1).seen && JobShown(s, d, x, ch)
    ensures At(s', 3, at, d, ch) && s'.store == s.store.(jobs := JobsLeft(s, d, x, ch))
    ensures ThreadOf(s', d) == EnterRelease(x, Newest(s, d), NextRound)
  {
    var s1 := GetTurn(s, d, x, ch, 0, at);
    var s2 := CacheTurn(s1, d, ch, 1, at);
    if x.spec.kind == JOB {
      s' := DropJobTurn(s2, d, x, Newest(s, d), ch, 2, at);
    } else {
      s' := BlindTurn(s2, d, ch, 2, at);
    }
  }

  lemma CleanupTurns(s: State, d: Key, x: Deployer, ch: Course, at: (State, int) -> bool) returns (s': State)
    requires At(s, 0, at, d, ch) && ReadyLive(s, d, x, ch) && Later(x) && JobShown(s, d, x, ch)
    ensures At(s', CleanupCalls(ch), at, d, ch) && s'.store == s.store.(jobs := JobsLeft(s, d, x, ch))
    ensures ThreadOf(s', d) == EnterRelease(x, Newest(s, d), NextRound)
  {
    if ch(1).seen { s' := DeleteTurns(s, d, x, ch, at); } else { s' := ClearTurns(s, d, x, ch, at); }
  }

  /** The store as the cleanup of the old workload leaves it. */
  function Left(s: State, d: Key, x: Deployer, ch: Course): Store {
    s.store.(jobs := JobsLeft(s, d, x, ch))
  }

  /** A later round of a deployer that holds no pool. */
  ghost predicate FirstAsked(s: State, d: Key, x: Deployer, ch: Course) {
    ReadyLive(s, d, x, ch) && Later(x) && JobShown(s, d, x, ch) && x.held == ""
  }

  lemma FirstRoundTurns(s: State, d: Key, x: Deployer, y: Pool, free: Resource, need: Resource, k: nat, ch: Course,
                        n: int, at: (State, int) -> bool) returns (s': State)
    requires At(s, 0, at, d, ch) && FirstAsked(s, d, x, ch) && n == CleanupCalls(ch)
    requires k <= 4 && AllOvertaken(PoolVersions(s.store, x.spec.resourcePool), ch, n, k, need)
    requires PoolNow(s.store, x.spec.resourcePool) == Some(y) && Serves(ch(n + 2 * k), s, x.spec.resourcePool)
    requires y.free == Some(free) && Needs(x.spec.containers, need)
    ensures if Fits(need, free) then At(s', n + 2 * k + 3, at, d, ch) && Begun(Left(s, d, x, ch), s', d, x, y, need)
            else At(s', n + 2 * k + 1, at, d, ch) && s'.store == Left(s, d, x, ch) && ThreadOf(s', d).Idle?
  {
    NeedsIs(x.spec.containers, need);
    var s3 := TriedTurns(s, d, x, need, k, ch, n, at);
    if Fits(need, free) {
      s' := BegTurns(s3, d, x, y, free, need, 5 - k, ch, n + 2 * k, at);
    } else {
      s' := RefuseTurn(s3, d, x, y, free, need, 5 - k, ch, n + 2 * k, at);
    }
  }

  lemma TriedTurns(s: State, d: Key, x: Deployer, need: Resource, k: nat, ch: Course, n: int,
                   at: (State, int) -> bool) returns (s': State)
    requires At(s, 0, at, d, ch) && FirstAsked(s, d, x, ch) && n == CleanupCalls(ch)
    requires need == Charge(x.spec.containers)
    requires k <= 5 && AllOvertaken(PoolVersions(s.store, x.spec.resourcePool), ch, n, k, need)
    ensures At(s', n + 2 * k, at, d, ch) && s'.store == Left(s, d, x, ch)
    ensures if k == 5 then ThreadOf(s', d).Idle? else Asking(s', d, x, 5 - k)
  {
    var s2 := CleanupTurns(s, d, x, ch, at);
    assert Asking(s2, d, x, 5);
    s' := RetryTurns(s2, d, x, need, k, ch, n, at);
  }

  /** A round of a deployer that holds no pool. If the pool has room, it is stored with its reservation, though
      the first attempts, up to four, meet conflicts; if not, the reconcile ends, and all it has done is to
      delete the old job that is shown. */
  lemma ServedFirstRound(s: State, d: Key, x: Deployer, y: Pool, free: Resource, need: Resource, k: nat, ch: Course)
    requires FirstAsked(s, d, x, ch) && Needs(x.spec.containers, need)
    requires k <= 4 && AllOvertaken(PoolVersions(s.store, x.spec.resourcePool), ch, CleanupCalls(ch), k, need)
    requires PoolNow(s.store, x.spec.resourcePool) == Some(y) && y.free == Some(free)
    requires Serves(ch(CleanupCalls(ch) + 2 * k), s, x.spec.resourcePool)
    ensures var m := CleanupCalls(ch) + 2 * k;
            if Fits(need, free) then Begun(Left(s, d, x, ch), Turns(s, d, ch, m + 3), d, x, y, need)
            else Turns(s, d, ch, m + 1).store == Left(s, d, x, ch) && ThreadOf(Turns(s, d, ch, m + 1), d).Idle?
  {
    var at := Start(s, d, ch);
    var s' := FirstRoundTurns(s, d, x, y, free, need, k, ch, CleanupCalls(ch), at);
  }

  /** The fifth conflict is the last: the reconcile ends, and nothing more is stored. */
  lemma ServedGivesUp(s: State, d: Key, x: Deployer, need: Resource, ch: Course)
    requires FirstAsked(s, d, x, ch) && Needs(x.spec.containers, need)
    requires AllOvertaken(PoolVersions(s.store, x.spec.resourcePool), ch, CleanupCalls(ch), 5, need)
    ensures var s' := Turns(s, d, ch, CleanupCalls(ch) + 10); s'.store == Left(s, d, x, ch) && ThreadOf(s', d).Idle?
  {
    var at := Start(s, d, ch);
    NeedsIs(x.spec.containers, need);
    var s' := GiveUpTurns(s, d, x, need, ch, CleanupCalls(ch), at);
  }

  lemma GiveUpTurns(s: State, d: Key, x: Deployer, need: Resource, ch: Course, n: int, at: (State, int) -> bool)
      returns (s': State)
    requires At(s, 0, at, d, ch) && FirstAsked(s, d, x, ch) && n == CleanupCalls(ch)
    requires need == Charge(x.spec.containers)
    requires AllOvertaken(PoolVersions(s.store, x.spec.resourcePool), ch, n, 5, need)
    ensures At(s', n + 10, at, d, ch) && s'.store == Left(s, d, x, ch) && ThreadOf(s', d).Idle?
  {
    s' := TriedTurns(s, d, x, need, 5, ch, n, at);
  }

  /** On a pool that was never synced the round is stored Failed, and without its reservation. */
  lemma ServedNilFree(s: State, d: Key, x: Deployer, y: Pool, ch: Course)
    requires FirstAsked(s, d, x, ch) && Serves(ch(CleanupCalls(ch)), s, x.spec.resourcePool)
    requires PoolNow(s.store, x.spec.resourcePool) == Some(y) && y.free.None?
    ensures var s', st := Turns(s, d, ch, CleanupCalls(ch) + 2), Left(s, d, x, ch);
            && DeployerNow(s'.store, d).Some? && BegunFrom(x, DeployerNow(s'.store, d).value, "", Failed)
            && s'.store == st.(deployers := st.deployers[d := DeployerVersions(s'.store, d)])
  {
    var at := Start(s, d, ch);
    var s' := NilFreeTurns(s, d, x, y, ch, CleanupCalls(ch), at);
  }

  lemma NilFreeTurns(s: State, d: Key, x: Deployer, y: Pool, ch: Course, n: int, at: (State, int) -> bool)
      returns (s': State)
    requires At(s, 0, at, d, ch) && FirstAsked(s, d, x, ch) && n == CleanupCalls(ch)
    requires PoolNow(s.store, x.spec.resourcePool) == Some(y) && Serves(ch(n), s, x.spec.resourcePool) && y.free.None?
    ensures At(s', n + 2, at, d, ch)
    ensures DeployerNow(s'.store, d).Some? && BegunFrom(x, DeployerNow(s'.store, d).value, "", Failed)
    ensures var st := Left(s, d, x, ch);
            s'.store == st.(deployers := st.deployers[d := DeployerVersions(s'.store, d)])
  {
    var s2 := CleanupTurns(s, d, x, ch, at);
    var s3 := PoolReadTurn(s2, d, x.spec.resourcePool, y, ch, n, at);
    assert ThreadOf(s3, d) == Publish(WithStatus(Advanced(x), Failed), Newest(s, d));
    s' := SaveTurn(s3, d, x, ch, n + 1, at);
  }

  /* ---- releases ---- */

  /** The entry to give back, among the pool's: the first of `d`. */
  predicate OldestOf(d: Key, usage: seq<UsageEntry>, a: seq<UsageEntry>, e: UsageEntry, b: seq<UsageEntry>) {
    usage == a + [e] + b && e.owner == d && forall i | 0 <= i < |a| :: a[i].owner != d
  }

  lemma OldestIsFirst(d: Key, usage: seq<UsageEntry>, a: seq<UsageEntry>, e: UsageEntry, b: seq<UsageEntry>)
    requires OldestOf(d, usage, a, e, b)
    ensures Holds(usage, d) && DropFirst(usage, d) == a + b
  {
    assert usage[|a|] == e;
    assert forall i | 0 <= i < |a| :: usage[i] == a[i];
    assert First(usage, d) == |a|;
    assert usage[..|a|] == a && usage[|a| + 1..] == b;
  }

  lemma SomeHeld(usage: seq<UsageEntry>, d: Key)
    ensures Holds(usage, d) <==> exists i | 0 <= i < |usage| :: usage[i].owner == d
  {
  }

  /** The held pool is about to be asked. */
  predicate Releasing(s: State, d: Key, x: Deployer, tries: int, goal: Goal) {
    var t := ThreadOf(s, d);
    && DeployerNow(s.store, d) == Some(x) && x.held != ""
    && t.ReadHeld? && t.mem == x && t.ver == Newest(s, d) && t.tries == tries && t.goal == goal
  }

  /** A release of the pool that is held, in two turns. */
  lemma ReleaseTurns(s: State, d: Key, x: Deployer, tries: nat, goal: Goal, y: Pool, a: seq<UsageEntry>, e: UsageEntry,
                     b: seq<UsageEntry>, ch: Course, n: int, at: (State, int) -> bool) returns (s': State)
    requires At(s, n, at, d, ch) && AllServed(ch) && Releasing(s, d, x, tries, goal)
    requires PoolNow(s.store, x.held) == Some(y) && Serves(ch(n), s, x.held) && OldestOf(d, y.usage, a, e, b)
    ensures At(s', n + 2, at, d, ch)
    ensures OnlyUsage(s, s', x.held, a + b) && ThreadOf(s', d) == AfterRelease(x, Newest(s, d), goal)
  {
    OldestIsFirst(d, y.usage, a, e, b);
    var s1 := PoolReadTurn(s, d, x.held, y, ch, n, at);
    assert ThreadOf(s1, d) == PutRelease(x, Newest(s, d), tries, goal, y, |PoolVersions(s.store, x.held)| - 1);
    s' := PutReleaseTurn(s1, d, x.held, y, ch, n + 1, at);
  }

  /** An attempt that reads an overtaken version with an entry of `d`. */
  predicate Outrun(h: Versions<Pool>, d: Key, c: Choice) {
    && c.fate.Served? && c.index + 1 < |h| && h[c.index].Some? && Latest(h).Some?
    && exists i | 0 <= i < |h[c.index].value.usage| :: h[c.index].value.usage[i].owner == d
  }

  ghost predicate AllOutrun(h: Versions<Pool>, d: Key, ch: Course, n: int, k: nat) {
    forall i: nat | i < k :: Outrun(h, d, Attempt(ch, n, i))
  }

  lemma {:induction false} RetryReleaseTurns(s: State, d: Key, x: Deployer, goal: Goal, k: nat, ch: Course, n: int,
                                             at: (State, int) -> bool) returns (s': State)
    requires At(s, n, at, d, ch) && AllServed(ch) && Releasing(s, d, x, 5, goal)
    requires k <= 5 && AllOutrun(PoolVersions(s.store, x.held), d, ch, n, k)
    ensures At(s', n + 2 * k, at, d, ch) && s'.store == s.store
    ensures if k == 5 then ThreadOf(s', d).Idle? else Releasing(s', d, x, 5 - k, goal)
  {
    if k == 0 {
      s' := s;
    } else {
      var s1 := RetryReleaseTurns(s, d, x, goal, k - 1, ch, n, at);
      s' := RetryReleaseTurn(s1, d, x, goal, k - 1, ch, n, at);
    }
  }

  lemma RetryReleaseTurn(s: State, d: Key, x: Deployer, goal: Goal, k: nat, ch: Course, n: int,
                         at: (State, int) -> bool) returns (s': State)
    requires k < 5 && At(s, n + 2 * k, at, d, ch) && AllServed(ch) && Releasing(s, d, x, 5 - k, goal)
    requires Outrun(PoolVersions(s.store, x.held), d, Attempt(ch, n, k))
    ensures At(s', n + 2 * (k + 1), at, d, ch) && s'.store == s.store
    ensures if k == 4 then ThreadOf(s', d).Idle? else Releasing(s', d, x, 4 - k, goal)
  {
    var m, i := n + 2 * k, ch(n + 2 * k).index;
    var y := PoolVersions(s.store, x.held)[i].value;
    SomeHeld(y.usage, d);
    var s1 := VersionReadTurn(s, d, x.held, i, ch, m, at);
    assert ThreadOf(s1, d) == PutRelease(x, Newest(s, d), 5 - k, goal, y, i);
    s' := ConflictTurn(s1, d, x.held, ch, m + 1, at);
  }

  /* ---- a later round ---- */

  /** A later round, of a deployer that holds a pool with an entry of its own. */
  ghost predicate NextAsked(s: State, d: Key, x: Deployer, y: Pool, a: seq<UsageEntry>, e: UsageEntry,
                            b: seq<UsageEntry>, ch: Course) {
    && ReadyLive(s, d, x, ch) && Later(x) && JobShown(s, d, x, ch)
    && x.held != "" && PoolNow(s.store, x.held) == Some(y) && OldestOf(d, y.usage, a, e, b)
    && Serves(ch(CleanupCalls(ch)), s, x.held)
  }

  /** What the cleanup leaves: the old job deleted, the old entry given back. */
  predicate Cleaned(s: State, s': State, d: Key, x: Deployer, y: Pool, rest: seq<UsageEntry>, ch: Course) {
    && PoolNow(s'.store, x.held) == Some(y.(usage := rest))
    && s'.store == s.store.(jobs := JobsLeft(s, d, x, ch),
                            pools := s.store.pools[x.held := PoolVersions(s'.store, x.held)])
  }

  lemma ReturnTurns(s: State, d: Key, x: Deployer, y: Pool, a: seq<UsageEntry>, e: UsageEntry, b: seq<UsageEntry>,
                    ch: Course, at: (State, int) -> bool) returns (s': State)
    requires At(s, 0, at, d, ch) && NextAsked(s, d, x, y, a, e, b, ch)
    ensures At(s', CleanupCalls(ch) + 2, at, d, ch) && Cleaned(s, s', d, x, y, a + b, ch) && Asking(s', d, x, 5)
    ensures |PoolVersions(s'.store, x.held)| <= |PoolVersions(s.store, x.held)| + 1
  {
    var s3 := CleanupTurns(s, d, x, ch, at);
    s' := ReleaseTurns(s3, d, x, 5, NextRound, y, a, e, b, ch, CleanupCalls(ch), at);
  }

  /** The wanted pool as the cleanup leaves it: it may be the one that was held. */
  predicate Wanted(s: State, x: Deployer, y: Pool, rest: seq<UsageEntry>, z: Pool) {
    if x.spec.resourcePool == x.held then z == y.(usage := rest) else PoolNow(s.store, x.spec.resourcePool) == Some(z)
  }

  /** The round stored, its entry last in the wanted pool. */
  predicate Renewed(s: State, s': State, d: Key, x: Deployer, y: Pool, rest: seq<UsageEntry>, z: Pool,
                    need: Resource, ch: Course) {
    && DeployerNow(s'.store, d).Some? && BegunFrom(x, DeployerNow(s'.store, d).value, x.spec.resourcePool, Pending)
    && PoolNow(s'.store, x.spec.resourcePool) == Some(z.(usage := z.usage + [UsageEntry(d, need)]))
    && (x.spec.resourcePool != x.held ==> PoolNow(s'.store, x.held) == Some(y.(usage := rest)))
    && s'.store.jobs == JobsLeft(s, d, x, ch) && s'.store.sets == s.store.sets
  }

  lemma NextRoundTurns(s: State, d: Key, x: Deployer, y: Pool, a: seq<UsageEntry>, e: UsageEntry, b: seq<UsageEntry>,
                       z: Pool, free: Resource, need: Resource, ch: Course, at: (State, int) -> bool)
      returns (s': State)
    requires At(s, 0, at, d, ch) && NextAsked(s, d, x, y, a, e, b, ch) && Wanted(s, x, y, a + b, z)
    requires var c := ch(CleanupCalls(ch) + 2); c.index >= |PoolVersions(s.store, x.spec.resourcePool)|
    requires z.free == Some(free) && need == Charge(x.spec.containers)
    ensures var n := CleanupCalls(ch);
            if Fits(need, free) then At(s', n + 5, at, d, ch) && Renewed(s, s', d, x, y, a + b, z, need, ch)
            else At(s', n + 3, at, d, ch) && ThreadOf(s', d).Idle? && Cleaned(s, s', d, x, y, a + b, ch)
  {
    var s5 := ReturnTurns(s, d, x, y, a, e, b, ch, at);
    if Fits(need, free) {
      s' := BegTurns(s5, d, x, z, free, need, 5, ch, CleanupCalls(ch) + 2, at);
    } else {
      s' := RefuseTurn(s5, d, x, z, free, need, 5, ch, CleanupCalls(ch) + 2, at);
    }
  }

  /** A later round of a deployer that holds a pool: served turns delete the old workload that is shown, give
      the old entry back to the held pool, and store the round with a new entry in the wanted one, if that
      has room; if not, the old job and entry are gone all the same, and the deployer is as it was. */
  lemma ServedNextRound(s: State, d: Key, x: Deployer, y: Pool, a: seq<UsageEntry>, e: UsageEntry, b: seq<UsageEntry>,
                        z: Pool, free: Resource, need: Resource, ch: Course)
    requires NextAsked(s, d, x, y, a, e, b, ch) && Wanted(s, x, y, a + b, z)
    requires var c := ch(CleanupCalls(ch) + 2); c.index >= |PoolVersions(s.store, x.spec.resourcePool)|
    requires z.free == Some(free) && Needs(x.spec.containers, need)
    ensures var n := CleanupCalls(ch);
            if Fits(need, free) then Renewed(s, Turns(s, d, ch, n + 5), d, x, y, a + b, z, need, ch)
            else ThreadOf(Turns(s, d, ch, n + 3), d).Idle? && Cleaned(s, Turns(s, d, ch, n + 3), d, x, y, a + b, ch)
  {
    var at := Start(s, d, ch);
    NeedsIs(x.spec.containers, need);
    var s' := NextRoundTurns(s, d, x, y, a, e, b, z, free, need, ch, at);
  }

  /* ---- the stored round ---- */

  /** The key of its workload. */
  function WorkloadKey(d: Key, x: Deployer): Key {
    Key(d.ns, d.name + "-" + Decimal(x.status.currentRound))
  }

  predicate InRound(x: Deployer) {
    x.spec.round == x.status.currentRound
  }

  function Marked(x: Deployer, status: Status): Deployer {
    x.(status := x.status.(status := status))
  }

  /** No workload of the round is shown. */
  lemma MissingTurns(s: State, d: Key, x: Deployer, ch: Course, at: (State, int) -> bool) returns (s': State)
    requires At(s, 0, at, d, ch) && ReadyLive(s, d, x, ch) && InRound(x) && !ch(1).seen
    requires x.spec.kind == JOB || x.spec.kind == SERVICE
    ensures At(s', 2, at, d, ch) && s'.store == s.store
    ensures ThreadOf(s', d) == if x.spec.kind == JOB then AnnounceJob(Marked(x, Pending), Newest(s, d))
                               else AnnounceSet(Marked(x, Pending), Newest(s, d))
  {
    var s1 := GetTurn(s, d, x, ch, 0, at);
    s' := CacheTurn(s1, d, ch, 1, at);
  }

  /** From finding no workload to the announcement stored. */
  lemma AnnounceTurns(s: State, d: Key, x: Deployer, ch: Course, at: (State, int) -> bool) returns (s': State)
    requires At(s, 0, at, d, ch) && ReadyLive(s, d, x, ch) && InRound(x) && !ch(1).seen
    requires x.spec.kind == JOB || x.spec.kind == SERVICE
    ensures At(s', 3, at, d, ch) && OnlyDeployer(s, s', d, Marked(x, Pending))
    ensures ThreadOf(s', d) == if x.spec.kind == JOB then Lookup(Marked(x, Pending), Newest(s', d))
                               else LookupSet(Marked(x, Pending), Newest(s', d))
  {
    var s2 := MissingTurns(s, d, x, ch, at);
    s' := SaveTurn(s2, d, x, ch, 2, at);
  }

  /** A job of the stored round, with a pod laid out by the containers. */
  predicate IsJobOf(job: Job, d: Key, x: Deployer) {
    job.owner == d && job.round == x.status.currentRound && LaidOut(job.pod, x.spec.containers)
  }

  /** No job yet: six served turns make the one of the stored round, and store Pending. */
  lemma ServedJobMade(s: State, d: Key, x: Deployer, ch: Course)
    requires ReadyLive(s, d, x, ch) && InRound(x) && x.spec.kind == JOB && !ch(1).seen
    requires WorkloadKey(d, x) !in s.store.jobs
    ensures var s', k := Turns(s, d, ch, 6), WorkloadKey(d, x);
            && DeployerNow(s'.store, d) == Some(Marked(x, Pending))
            && k in s'.store.jobs && IsJobOf(s'.store.jobs[k], d, x)
            && s'.store.jobs == s.store.jobs[k := s'.store.jobs[k]]
            && s'.store.pools == s.store.pools && s'.store.sets == s.store.sets
  {
    var at := Start(s, d, ch);
    var s' := JobTurns(s, d, x, ch, at);
    PodIsLaidOut(x.spec.containers);
  }

  lemma JobTurns(s: State, d: Key, x: Deployer, ch: Course, at: (State, int) -> bool) returns (s': State)
    requires At(s, 0, at, d, ch) && ReadyLive(s, d, x, ch) && InRound(x) && x.spec.kind == JOB && !ch(1).seen
    requires JobKey(d, x) !in s.store.jobs
    ensures At(s', 6, at, d, ch) && DeployerNow(s'.store, d) == Some(Marked(x, Pending))
    ensures s'.store.jobs == s.store.jobs[JobKey(d, x) := NewJob(d, Marked(x, Pending))]
    ensures s'.store.pools == s.store.pools && s'.store.sets == s.store.sets
  {
    var y := Marked(x, Pending);
    var s3 := AnnounceTurns(s, d, x, ch, at);
    var s4 := ProbeTurn(s3, d, ch, 3, at);
    var s5 := MakeJobTurn(s4, d, y, Newest(s3, d), ch, 4, at);
    s' := SaveTurn(s5, d, y, ch, 5, at);
  }

  /** No StatefulSet yet: the same for a service. */
  lemma ServedSetMade(s: State, d: Key, x: Deployer, ch: Course)
    requires ReadyLive(s, d, x, ch) && InRound(x) && x.spec.kind == SERVICE && !ch(1).seen
    requires WorkloadKey(d, x) !in s.store.sets
    ensures var s' := Turns(s, d, ch, 6);
            && DeployerNow(s'.store, d) == Some(Marked(x, Pending))
            && s'.store.sets == s.store.sets + {WorkloadKey(d, x)}
            && s'.store.pools == s.store.pools && s'.store.jobs == s.store.jobs
  {
    var at := Start(s, d, ch);
    var s' := SetTurns(s, d, x, ch, at);
  }

  lemma SetTurns(s: State, d: Key, x: Deployer, ch: Course, at: (State, int) -> bool) returns (s': State)
    requires At(s, 0, at, d, ch) && ReadyLive(s, d, x, ch) && InRound(x) && x.spec.kind == SERVICE && !ch(1).seen
    requires JobKey(d, x) !in s.store.sets
    ensures At(s', 6, at, d, ch) && DeployerNow(s'.store, d) == Some(Marked(x, Pending))
    ensures s'.store.sets == s.store.sets + {JobKey(d, x)}
    ensures s'.store.pools == s.store.pools && s'.store.jobs == s.store.jobs
  {
    var y := Marked(x, Pending);
    var s3 := AnnounceTurns(s, d, x, ch, at);
    var s4 := ProbeTurn(s3, d, ch, 3, at);
    var s5 := MakeSetTurn(s4, d, y, Newest(s3, d), ch, 4, at);
    s' := SaveTurn(s5, d, y, ch, 5, at);
  }

  /* ---- the pod's phase ---- */

  /** The status each answer of the pod listing stands for. */
  predicate PhaseNames(pods: PodList, status: Status) {
    && (pods == None ==> status == Pending)
    && (pods == Some(PodPending) ==> status == Pending)
    && (pods == Some(PodRunning) ==> status == Doing)
    && (pods == Some(PodFailed) ==> status == Failed)
    && (pods == Some(PodSucceeded) ==> status == Done)
    && (pods == Some(PodUnknown) ==> status == Blank)
  }

  lemma PhaseNamesStatus(pods: PodList, status: Status)
    ensures PhaseNames(pods, status) <==> status == StatusOf(pods)
  {
  }

  /** The workload of the round is shown. */
  lemma FoundTurns(s: State, d: Key, x: Deployer, ch: Course, at: (State, int) -> bool) returns (s': State)
    requires At(s, 0, at, d, ch) && ReadyLive(s, d, x, ch) && InRound(x) && ch(1).seen
    requires x.spec.kind == JOB || x.spec.kind == SERVICE
    ensures At(s', 2, at, d, ch) && s'.store == s.store
    ensures ThreadOf(s', d) == if x.spec.kind == JOB then WatchJob(x, Newest(s, d)) else FindService(x, Newest(s, d))
  {
    var s1 := GetTurn(s, d, x, ch, 0, at);
    s' := CacheTurn(s1, d, ch, 1, at);
  }

  lemma WatchedTurns(s: State, d: Key, x: Deployer, ch: Course, n: int, at: (State, int) -> bool)
      returns (s': State)
    requires At(s, n, at, d, ch) && AllServed(ch) && DeployerNow(s.store, d) == Some(x)
    requires ThreadOf(s, d) == WatchSet(x, Newest(s, d)) || ThreadOf(s, d) == WatchJob(x, Newest(s, d))
    ensures At(s', n + 2, at, d, ch) && OnlyDeployer(s, s', d, Marked(x, StatusOf(ch(n).pods)))
  {
    var s1 := PodsTurn(s, d, ch, n, at);
    s' := SaveTurn(s1, d, x, ch, n + 1, at);
  }

  /** The job is there: four served turns store the status that the phase of its pod names. */
  lemma ServedJobWatched(s: State, d: Key, x: Deployer, status: Status, ch: Course)
    requires ReadyLive(s, d, x, ch) && InRound(x) && x.spec.kind == JOB && ch(1).seen
    requires PhaseNames(ch(2).pods, status)
    ensures OnlyDeployer(s, Turns(s, d, ch, 4), d, Marked(x, status))
  {
    var at := Start(s, d, ch);
    PhaseNamesStatus(ch(2).pods, status);
    var s2 := FoundTurns(s, d, x, ch, at);
    var s4 := WatchedTurns(s2, d, x, ch, 2, at);
  }

  /** The StatefulSet and the service are there: six served turns, of which one updates the service, store the
      status that the phase of the pod names. */
  lemma ServedSetWatched(s: State, d: Key, x: Deployer, status: Status, ch: Course)
    requires ReadyLive(s, d, x, ch) && InRound(x) && x.spec.kind == SERVICE && ch(1).seen && ch(2).seen
    requires PhaseNames(ch(4).pods, status)
    ensures Call(d, ThreadOf(Turns(s, d, ch, 3), d)) == AskService(Updating, d)
    ensures OnlyDeployer(s, Turns(s, d, ch, 6), d, Marked(x, status))
  {
    var at := Start(s, d, ch);
    PhaseNamesStatus(ch(4).pods, status);
    var s3, s6 := ServiceTurns(s, d, x, ch, at);
  }

  lemma ServiceTurns(s: State, d: Key, x: Deployer, ch: Course, at: (State, int) -> bool)
      returns (s3: State, s6: State)
    requires At(s, 0, at, d, ch) && ReadyLive(s, d, x, ch) && InRound(x) && x.spec.kind == SERVICE
    requires ch(1).seen && ch(2).seen
    ensures At(s3, 3, at, d, ch) && Call(d, ThreadOf(s3, d)) == AskService(Updating, d)
    ensures At(s6, 6, at, d, ch) && OnlyDeployer(s, s6, d, Marked(x, StatusOf(ch(4).pods)))
  {
    var s2 := FoundTurns(s, d, x, ch, at);
    s3 := CacheTurn(s2, d, ch, 2, at);
    s6 := UpdateTurns(s3, d, x, ch, 3, at);
  }

  lemma UpdateTurns(s: State, d: Key, x: Deployer, ch: Course, n: int, at: (State, int) -> bool) returns (s': State)
    requires At(s, n, at, d, ch) && AllServed(ch) && DeployerNow(s.store, d) == Some(x)
    requires ThreadOf(s, d) == UpdateService(x, Newest(s, d))
    ensures At(s', n + 3, at, d, ch) && OnlyDeployer(s, s', d, Marked(x, StatusOf(ch(n + 1).pods)))
  {
    var s1 := BlindTurn(s, d, ch, n, at);
    s' := WatchedTurns(s1, d, x, ch, n + 1, at);
  }

  /** A deployer of no known kind fails in its round, and never leaves it. */
  lemma ServedUnknown(s: State, d: Key, x: Deployer, ch: Course)
    requires ReadyLive(s, d, x, ch) && x.spec.kind == UNKNOWN && x.spec.round >= x.status.currentRound
    ensures InRound(x) ==> OnlyDeployer(s, Turns(s, d, ch, 2), d, Marked(x, Failed))
    ensures !InRound(x) ==> Turns(s, d, ch, 1).store == s.store && ThreadOf(Turns(s, d, ch, 1), d).Idle?
  {
    var at := Start(s, d, ch);
    var s1 := GetTurn(s, d, x, ch, 0, at);
    if InRound(x) {
      var s2 := SaveTurn(s1, d, x, ch, 1, at);
    }
  }

  /* ---- teardown ---- */

  ghost predicate Leaving(s: State, d: Key, x: Deployer, ch: Course) {
    Ready(s, d, x, ch) && x.finalizer && x.deleting
  }

  /** The deployer is gone, and of the rest only what became of its pool differs. */
  predicate Gone(s: State, s': State, d: Key) {
    && DeployerNow(s'.store, d).None?
    && s'.store == s.store.(deployers := s.store.deployers[d := DeployerVersions(s'.store, d)], pools := s'.store.pools)
  }

  lemma GoneTurn(s: State, d: Key, x: Deployer, ch: Course, n: int, at: (State, int) -> bool) returns (s': State)
    requires At(s, n, at, d, ch) && ch(n).fate.Served? && DeployerNow(s.store, d) == Some(x) && x.deleting
    requires ThreadOf(s, d).DropFinalizer? && ThreadOf(s, d).ver == Newest(s, d)
    ensures At(s', n + 1, at, d, ch) && Gone(s, s', d) && s'.store.pools == s.store.pools
    ensures ThreadOf(s', d).Idle? && |DeployerVersions(s'.store, d)| <= |DeployerVersions(s.store, d)| + 1
  {
    s' := FinalizerTurn(s, d, x, ch, n, at);
  }

  lemma TeardownTurns(s: State, d: Key, x: Deployer, y: Pool, a: seq<UsageEntry>, e: UsageEntry, b: seq<UsageEntry>,
                      k: nat, ch: Course, at: (State, int) -> bool) returns (s': State)
    requires At(s, 0, at, d, ch) && Leaving(s, d, x, ch) && x.held != "" && PoolNow(s.store, x.held) == Some(y)
    requires k <= 4 && AllOutrun(PoolVersions(s.store, x.held), d, ch, 1, k)
    requires Serves(ch(1 + 2 * k), s, x.held) && OldestOf(d, y.usage, a, e, b)
    ensures At(s', 4 + 2 * k, at, d, ch) && Gone(s, s', d)
    ensures s'.store.pools == s.store.pools[x.held := PoolVersions(s'.store, x.held)]
    ensures PoolNow(s'.store, x.held) == Some(y.(usage := a + b))
  {
    var s1 := GetTurn(s, d, x, ch, 0, at);
    var s2 := RetryReleaseTurns(s1, d, x, Teardown, k, ch, 1, at);
    s' := LeaveTurns(s2, d, x, 5 - k, y, a, e, b, ch, 1 + 2 * k, at);
  }

  lemma LeaveTurns(s: State, d: Key, x: Deployer, tries: nat, y: Pool, a: seq<UsageEntry>, e: UsageEntry,
                   b: seq<UsageEntry>, ch: Course, n: int, at: (State, int) -> bool) returns (s': State)
    requires At(s, n, at, d, ch) && AllServed(ch) && Releasing(s, d, x, tries, Teardown) && x.deleting
    requires PoolNow(s.store, x.held) == Some(y) && Serves(ch(n), s, x.held) && OldestOf(d, y.usage, a, e, b)
    ensures At(s', n + 3, at, d, ch) && Gone(s, s', d)
    ensures s'.store.pools == s.store.pools[x.held := PoolVersions(s'.store, x.held)]
    ensures PoolNow(s'.store, x.held) == Some(y.(usage := a + b))
  {
    var s2 := ReleaseTurns(s, d, x, tries, Teardown, y, a, e, b, ch, n, at);
    assert ThreadOf(s2, d) == DropFinalizer(x.(finalizer := false), Newest(s, d));
    s' := GoneTurn(s2, d, x, ch, n + 2, at);
  }

  /** A deployer marked for deletion that has an entry in the pool it holds gives its oldest one back, though the
      first attempts, up to four, meet conflicts, and is gone. */
  lemma ServedTeardown(s: State, d: Key, x: Deployer, y: Pool, a: seq<UsageEntry>, e: UsageEntry, b: seq<UsageEntry>,
                       k: nat, ch: Course)
    requires Leaving(s, d, x, ch) && x.held != "" && PoolNow(s.store, x.held) == Some(y)
    requires k <= 4 && AllOutrun(PoolVersions(s.store, x.held), d, ch, 1, k)
    requires Serves(ch(1 + 2 * k), s, x.held) && OldestOf(d, y.usage, a, e, b)
    ensures var s' := Turns(s, d, ch, 4 + 2 * k);
            && Gone(s, s', d) && PoolNow(s'.store, x.held) == Some(y.(usage := a + b))
            && s'.store.pools == s.store.pools[x.held := PoolVersions(s'.store, x.held)]
  {
    var at := Start(s, d, ch);
    var s' := TeardownTurns(s, d, x, y, a, e, b, k, ch, at);
  }

  /** The fifth conflict is the last. */
  lemma ServedTeardownGivesUp(s: State, d: Key, x: Deployer, ch: Course)
    requires Leaving(s, d, x, ch) && x.held != ""
    requires AllOutrun(PoolVersions(s.store, x.held), d, ch, 1, 5)
    ensures Turns(s, d, ch, 11).store == s.store && ThreadOf(Turns(s, d, ch, 11), d).Idle?
  {
    var at := Start(s, d, ch);
    var s' := StayTurns(s, d, x, ch, at);
  }

  lemma StayTurns(s: State, d: Key, x: Deployer, ch: Course, at: (State, int) -> bool) returns (s': State)
    requires At(s, 0, at, d, ch) && Leaving(s, d, x, ch) && x.held != ""
    requires AllOutrun(PoolVersions(s.store, x.held), d, ch, 1, 5)
    ensures At(s', 11, at, d, ch) && s'.store == s.store && ThreadOf(s', d).Idle?
  {
    var s1 := GetTurn(s, d, x, ch, 0, at);
    s' := RetryReleaseTurns(s1, d, x, Teardown, 5, ch, 1, at);
  }

  /** The gate of the teardown: four served turns remove a deployer marked for deletion exactly if it holds no
      pool, or one that is still there. Otherwise they change nothing, and they leave all pools alone if there
      is no entry to give back. */
  lemma ServedTeardownIff(s: State, d: Key, x: Deployer, ch: Course)
    requires Leaving(s, d, x, ch) && ReadsLatest(s, d, x, ch)
    ensures var s' := Turns(s, d, ch, 4);
            && (DeployerNow(s'.store, d).None? <==> x.held == "" || PoolNow(s.store, x.held).Some?)
            && (DeployerNow(s'.store, d).Some? ==> s'.store == s.store)
            && (Unreserved(s, d, x) ==> s'.store.pools == s.store.pools)
  {
    var at := Start(s, d, ch);
    var s' := GateTurns(s, d, x, ch, at);
  }

  /** It has no entry in the pool it holds. */
  predicate Unreserved(s: State, d: Key, x: Deployer) {
    PoolNow(s.store, x.held).Some? ==>
      forall i | 0 <= i < |UsageNow(s.store, x.held)| :: UsageNow(s.store, x.held)[i].owner != d
  }

  /** No read of the turns to come returns an overtaken version. */
  ghost predicate ReadsLatest(s: State, d: Key, x: Deployer, ch: Course) {
    forall n :: ch(n).index > |DeployerVersions(s.store, d)| && ch(n).index > |PoolVersions(s.store, x.held)|
  }

  lemma GateTurns(s: State, d: Key, x: Deployer, ch: Course, at: (State, int) -> bool) returns (s': State)
    requires At(s, 0, at, d, ch) && Leaving(s, d, x, ch) && ReadsLatest(s, d, x, ch)
    ensures At(s', 4, at, d, ch)
    ensures DeployerNow(s'.store, d).None? <==> x.held == "" || PoolNow(s.store, x.held).Some?
    ensures DeployerNow(s'.store, d).Some? ==> s'.store == s.store
    ensures Unreserved(s, d, x) ==> s'.store.pools == s.store.pools
  {
    if x.held == "" {
      var s1 := GetTurn(s, d, x, ch, 0, at);
      var s2 := GoneTurn(s1, d, x, ch, 1, at);
      var s3 := AbsentTurn(s2, d, ch, 2, at);
      s' := AbsentTurn(s3, d, ch, 3, at);
    } else if PoolNow(s.store, x.held).None? {
      var s2 := StuckTurns(s, d, x, ch, 0, at);
      s' := StuckTurns(s2, d, x, ch, 2, at);
    } else {
      s' := HeldGateTurns(s, d, x, PoolNow(s.store, x.held).value, ch, at);
    }
  }

  lemma HeldGateTurns(s: State, d: Key, x: Deployer, y: Pool, ch: Course, at: (State, int) -> bool)
      returns (s': State)
    requires At(s, 0, at, d, ch) && Leaving(s, d, x, ch) && ReadsLatest(s, d, x, ch)
    requires x.held != "" && PoolNow(s.store, x.held) == Some(y)
    ensures At(s', 4, at, d, ch) && DeployerNow(s'.store, d).None?
    ensures Unreserved(s, d, x) ==> s'.store.pools == s.store.pools
  {
    var s1 := GetTurn(s, d, x, ch, 0, at);
    SomeHeld(y.usage, d);
    assert UsageNow(s.store, x.held) == y.usage;
    if Holds(y.usage, d) {
      var i := First(y.usage, d);
      s' := LeaveTurns(s1, d, x, 5, y, y.usage[..i], y.usage[i], y.usage[i + 1..], ch, 1, at);
    } else {
      var s2 := PoolReadTurn(s1, d, x.held, y, ch, 1, at);
      var s3 := GoneTurn(s2, d, x, ch, 2, at);
      s' := AbsentTurn(s3, d, ch, 3, at);
    }
  }

  lemma StuckTurns(s: State, d: Key, x: Deployer, ch: Course, n: int, at: (State, int) -> bool) returns (s': State)
    requires At(s, n, at, d, ch) && ThreadOf(s, d).Idle? && DeployerNow(s.store, d) == Some(x)
    requires AllServed(ch) && ReadsLatest(s, d, x, ch) && x.finalizer && x.deleting
    requires x.held != "" && PoolNow(s.store, x.held).None?
    ensures At(s', n + 2, at, d, ch) && s'.store == s.store && ThreadOf(s', d).Idle?
  {
    var s1 := GetTurn(s, d, x, ch, n, at);
    s' := LostPoolTurn(s1, d, ch, n + 1, at);
  }
}
