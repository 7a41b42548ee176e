/** Served calls of one deployer's reconcile, one turn at a time: what each leaves in the store and in
    memory. */
module DeployerTurns {
  import opened Objects
  import opened Quantities
  import opened Ledger
  import opened Api
  import opened DeployerThread
  import opened Cluster
  import opened PoolServed

  /** How the calls of the turns to come go, one by one. */
  type Course = int -> Choice

  /** The state after `n` turns of `d`. */
  function Turns(s: State, d: Key, ch: Course, n: int): State
    decreases if n < 0 then 0 else n, s
  {
    if n <= 0 then s else Apply(Turns(s, d, ch, n - 1), DeployerTurn(d, ch(n - 1)))
  }

  /** `at` knows how many turns have led to a state. */
  ghost predicate Counts(at: (State, int) -> bool, d: Key, ch: Course) {
    forall s, n {:trigger at(s, n), Apply(s, DeployerTurn(d, ch(n)))} | at(s, n) ::
      at(Apply(s, DeployerTurn(d, ch(n))), n + 1)
  }

  /** So the lemmas on single turns need not know from where the turns are counted. */
  ghost predicate At(s: State, n: int, at: (State, int) -> bool, d: Key, ch: Course) {
    at(s, n) && Counts(at, d, ch)
  }

  lemma Start(s: State, d: Key, ch: Course) returns (at: (State, int) -> bool)
    ensures At(s, 0, at, d, ch)
    ensures forall t, n :: at(t, n) <==> n >= 0 && t == Turns(s, d, ch, n)
  {
    at := (t: State, n: int) => n >= 0 && t == Turns(s, d, ch, n);
  }

  lemma Turn(s: State, d: Key, ch: Course, n: int, at: (State, int) -> bool) returns (s': State)
    requires At(s, n, at, d, ch)
    ensures At(s', n + 1, at, d, ch) && s'.store == After(s.store, Call(d, ThreadOf(s, d)), ch(n))
    ensures ThreadOf(s', d) == Resume(d, ThreadOf(s, d), Answer(s.store, Call(d, ThreadOf(s, d)), ch(n)))
  {
    s' := Apply(s, DeployerTurn(d, ch(n)));
  }

  ghost predicate AllServed(ch: Course) {
    forall n :: ch(n).fate.Served?
  }

  /** The version that is the latest. */
  function Newest(s: State, d: Key): nat {
    if d in s.store.deployers && s.store.deployers[d] != [] then |s.store.deployers[d]| - 1 else 0
  }

  /** The store with another version of `d`, and nothing else touched. */
  predicate OnlyDeployer(s: State, s': State, d: Key, y: Deployer) {
    && DeployerNow(s'.store, d) == Some(y)
    && s'.store == s.store.(deployers := s.store.deployers[d := DeployerVersions(s'.store, d)])
  }

  /** The store with another usage of `q`, and nothing else touched. */
  predicate OnlyUsage(s: State, s': State, q: string, usage: seq<UsageEntry>) {
    && PoolNow(s.store, q).Some?
    && OnlyPool(s, s', q, PoolNow(s.store, q).value.(usage := usage))
    && |PoolVersions(s'.store, q)| <= |PoolVersions(s.store, q)| + 1
  }

  /* ---- reads ---- */

  lemma GetTurn(s: State, d: Key, x: Deployer, ch: Course, n: int, at: (State, int) -> bool) returns (s': State)
    requires At(s, n, at, d, ch) && ThreadOf(s, d).Idle? && DeployerNow(s.store, d) == Some(x)
    requires ch(n).fate.Served? && ch(n).index + 1 >= |DeployerVersions(s.store, d)|
    ensures At(s', n + 1, at, d, ch) && s'.store == s.store && ThreadOf(s', d) == Begin(x, Newest(s, d))
  {
    s' := Turn(s, d, ch, n, at);
  }

  predicate AsksCache(t: Thread) {
    t.FindOldJob? || t.FindDeployment? || t.FindJob? || t.FindSet? || t.FindService? || t.LookupService?
  }

  lemma CacheAnswer(st: Store, d: Key, t: Thread, c: Choice)
    requires AsksCache(t) && c.fate.Served?
    ensures Answer(st, Call(d, t), c) == Exists(c.seen) && After(st, Call(d, t), c) == st
  {
  }

  lemma CacheTurn(s: State, d: Key, ch: Course, n: int, at: (State, int) -> bool) returns (s': State)
    requires At(s, n, at, d, ch) && AsksCache(ThreadOf(s, d)) && ch(n).fate.Served?
    ensures At(s', n + 1, at, d, ch) && s'.store == s.store
    ensures ThreadOf(s', d) == Resume(d, ThreadOf(s, d), Exists(ch(n).seen))
  {
    s' := Turn(s, d, ch, n, at);
    CacheAnswer(s.store, d, ThreadOf(s, d), ch(n));
  }

  lemma PodsTurn(s: State, d: Key, ch: Course, n: int, at: (State, int) -> bool) returns (s': State)
    requires At(s, n, at, d, ch) && (ThreadOf(s, d).WatchJob? || ThreadOf(s, d).WatchSet?) && ch(n).fate.Served?
    ensures At(s', n + 1, at, d, ch) && s'.store == s.store
    ensures ThreadOf(s', d) == Resume(d, ThreadOf(s, d), Pods(ch(n).pods))
  {
    s' := Turn(s, d, ch, n, at);
    assert Call(d, ThreadOf(s, d)) == ListPods;
  }

  /** A read of the wanted pool, or of the one held, that returns version `i`. */
  lemma VersionReadTurn(s: State, d: Key, q: string, i: nat, ch: Course, n: int, at: (State, int) -> bool)
      returns (s': State)
    requires At(s, n, at, d, ch) && ch(n).fate.Served? && ch(n).index == i
    requires i < |PoolVersions(s.store, q)| && PoolVersions(s.store, q)[i].Some?
    requires var t := ThreadOf(s, d);
             (t.ReadWanted? && t.mem.spec.resourcePool == q) || (t.ReadHeld? && t.mem.held == q)
    ensures At(s', n + 1, at, d, ch) && s'.store == s.store
    ensures ThreadOf(s', d) == Resume(d, ThreadOf(s, d), GotPool(PoolVersions(s.store, q)[i].value, i))
  {
    s' := Turn(s, d, ch, n, at);
    assert Call(d, ThreadOf(s, d)) == GetPool(q);
  }

  lemma PoolReadTurn(s: State, d: Key, q: string, y: Pool, ch: Course, n: int, at: (State, int) -> bool)
      returns (s': State)
    requires At(s, n, at, d, ch) && PoolNow(s.store, q) == Some(y) && Serves(ch(n), s, q)
    requires var t := ThreadOf(s, d);
             (t.ReadWanted? && t.mem.spec.resourcePool == q) || (t.ReadHeld? && t.mem.held == q)
    ensures At(s', n + 1, at, d, ch) && s'.store == s.store
    ensures ThreadOf(s', d) == Resume(d, ThreadOf(s, d), GotPool(y, |PoolVersions(s.store, q)| - 1))
  {
    s' := Turn(s, d, ch, n, at);
    assert Call(d, ThreadOf(s, d)) == GetPool(q);
  }

  /** A deployer that is not there has nothing to reconcile. */
  lemma AbsentTurn(s: State, d: Key, ch: Course, n: int, at: (State, int) -> bool) returns (s': State)
    requires At(s, n, at, d, ch) && ThreadOf(s, d).Idle? && DeployerNow(s.store, d).None?
    requires ch(n).fate.Served? && ch(n).index + 1 >= |DeployerVersions(s.store, d)|
    ensures At(s', n + 1, at, d, ch) && s'.store == s.store && ThreadOf(s', d).Idle?
  {
    s' := Turn(s, d, ch, n, at);
  }

  /** A pool that is not there ends the reconcile. */
  lemma LostPoolTurn(s: State, d: Key, ch: Course, n: int, at: (State, int) -> bool) returns (s': State)
    requires At(s, n, at, d, ch) && ThreadOf(s, d).ReadHeld? && PoolNow(s.store, ThreadOf(s, d).mem.held).None?
    requires Serves(ch(n), s, ThreadOf(s, d).mem.held)
    ensures At(s', n + 1, at, d, ch) && s'.store == s.store && ThreadOf(s', d).Idle?
  {
    s' := Turn(s, d, ch, n, at);
  }

  /* ---- writes ---- */

  predicate SavesStatus(t: Thread) {
    t.Park? || t.Commit? || t.AnnounceJob? || t.AnnounceSet? || t.Publish?
  }

  lemma SaveAnswer(st: Store, d: Key, x: Deployer, t: Thread, c: Choice)
    requires SavesStatus(t) && c.fate.Served? && DeployerNow(st, d) == Some(x)
    requires t.ver == |DeployerVersions(st, d)| - 1
    ensures var st' := After(st, Call(d, t), c);
            && DeployerNow(st', d) == Some(x.(status := t.mem.status, held := t.mem.held))
            && st' == st.(deployers := st.deployers[d := DeployerVersions(st', d)])
            && Answer(st, Call(d, t), c) == AckAt(|DeployerVersions(st', d)| - 1)
  {
    assert Call(d, t) == UpdateDeployerStatus(d, t.mem.status, t.mem.held, t.ver);
  }

  /** A status write from the latest version. */
  lemma SaveTurn(s: State, d: Key, x: Deployer, ch: Course, n: int, at: (State, int) -> bool) returns (s': State)
    requires At(s, n, at, d, ch) && SavesStatus(ThreadOf(s, d)) && ch(n).fate.Served?
    requires DeployerNow(s.store, d) == Some(x) && ThreadOf(s, d).ver == Newest(s, d)
    ensures var t := ThreadOf(s, d);
            && At(s', n + 1, at, d, ch)
            && OnlyDeployer(s, s', d, x.(status := t.mem.status, held := t.mem.held))
            && ThreadOf(s', d) == Resume(d, t, AckAt(Newest(s', d)))
  {
    s' := Turn(s, d, ch, n, at);
    SaveAnswer(s.store, d, x, ThreadOf(s, d), ch(n));
  }

  lemma FinalizerTurn(s: State, d: Key, x: Deployer, ch: Course, n: int, at: (State, int) -> bool)
      returns (s': State)
    requires At(s, n, at, d, ch) && (ThreadOf(s, d).AddFinalizer? || ThreadOf(s, d).DropFinalizer?)
    requires DeployerNow(s.store, d) == Some(x) && ThreadOf(s, d).ver == Newest(s, d) && ch(n).fate.Served?
    ensures var t := ThreadOf(s, d);
            && At(s', n + 1, at, d, ch)
            && DeployerNow(s'.store, d) == Kept(Updated(x).(finalizer := t.AddFinalizer?))
            && |DeployerVersions(s'.store, d)| <= |DeployerVersions(s.store, d)| + 1
            && s'.store == s.store.(deployers := s.store.deployers[d := DeployerVersions(s'.store, d)])
            && (t.DropFinalizer? ==> ThreadOf(s', d).Idle?)
  {
    s' := Turn(s, d, ch, n, at);
    DeployerWriteAnswer(s.store, Call(d, ThreadOf(s, d)), ch(n));
  }

  /** The write of a beg, from the latest version of the pool. */
  lemma PutBegTurn(s: State, d: Key, q: string, y: Pool, ch: Course, n: int, at: (State, int) -> bool)
      returns (s': State)
    requires At(s, n, at, d, ch) && PoolNow(s.store, q) == Some(y) && ch(n).fate.Served?
    requires var t := ThreadOf(s, d);
             t.PutBeg? && t.mem.spec.resourcePool == q && t.snap == y && t.pver == |PoolVersions(s.store, q)| - 1
    ensures var t := ThreadOf(s, d);
            && At(s', n + 1, at, d, ch)
            && OnlyUsage(s, s', q, y.usage + [UsageEntry(d, Charge(t.mem.spec.containers))])
            && ThreadOf(s', d) == Commit(t.mem.(held := q), t.ver)
  {
    s' := Turn(s, d, ch, n, at);
  }

  /** The write of a release. */
  lemma PutReleaseTurn(s: State, d: Key, q: string, y: Pool, ch: Course, n: int, at: (State, int) -> bool)
      returns (s': State)
    requires At(s, n, at, d, ch) && PoolNow(s.store, q) == Some(y) && ch(n).fate.Served?
    requires var t := ThreadOf(s, d);
             t.PutRelease? && t.mem.held == q && t.snap == y && t.pver == |PoolVersions(s.store, q)| - 1
    ensures var t := ThreadOf(s, d);
            && At(s', n + 1, at, d, ch)
            && OnlyUsage(s, s', q, DropFirst(y.usage, d))
            && ThreadOf(s', d) == AfterRelease(t.mem, t.ver, t.goal)
  {
    s' := Turn(s, d, ch, n, at);
  }

  /** And its conflicts, when somebody else has written the pool since: the attempt starts over, if one is
      left. */
  lemma ConflictTurn(s: State, d: Key, q: string, ch: Course, n: int, at: (State, int) -> bool)
      returns (s': State)
    requires At(s, n, at, d, ch) && PoolNow(s.store, q).Some? && ch(n).fate.Served?
    requires var t := ThreadOf(s, d);
             && ((t.PutBeg? && t.mem.spec.resourcePool == q) || (t.PutRelease? && t.mem.held == q))
             && t.pver + 1 < |PoolVersions(s.store, q)|
    ensures var t := ThreadOf(s, d);
            && At(s', n + 1, at, d, ch) && s'.store == s.store
            && ThreadOf(s', d) == if t.tries <= 1 then Idle
                                  else if t.PutBeg? then ReadWanted(t.mem, t.ver, t.tries - 1)
                                  else ReadHeld(t.mem, t.ver, t.tries - 1, t.goal)
  {
    s' := Turn(s, d, ch, n, at);
  }

  /* ---- workloads ---- */

  /** The cluster's own record says the workload of the round is not there. */
  lemma ProbeTurn(s: State, d: Key, ch: Course, n: int, at: (State, int) -> bool) returns (s': State)
    requires At(s, n, at, d, ch) && (ThreadOf(s, d).Lookup? || ThreadOf(s, d).LookupSet?) && ch(n).fate.Served?
    requires var t := ThreadOf(s, d);
             JobKey(d, t.mem) !in if t.Lookup? then s.store.jobs.Keys else s.store.sets
    ensures var t := ThreadOf(s, d);
            && At(s', n + 1, at, d, ch) && s'.store == s.store
            && ThreadOf(s', d) == if t.Lookup? then MakeJob(t.mem, t.ver) else MakeSet(t.mem, t.ver)
  {
    s' := Turn(s, d, ch, n, at);
  }

  lemma MakeJobTurn(s: State, d: Key, x: Deployer, ver: nat, ch: Course, n: int, at: (State, int) -> bool)
      returns (s': State)
    requires At(s, n, at, d, ch) && ThreadOf(s, d) == MakeJob(x, ver) && ch(n).fate.Served?
    requires JobKey(d, x) !in s.store.jobs
    ensures At(s', n + 1, at, d, ch) && ThreadOf(s', d) == Publish(x, ver)
    ensures s'.store == s.store.(jobs := s.store.jobs[JobKey(d, x) := NewJob(d, x)])
  {
    s' := Turn(s, d, ch, n, at);
  }

  lemma MakeSetTurn(s: State, d: Key, x: Deployer, ver: nat, ch: Course, n: int, at: (State, int) -> bool)
      returns (s': State)
    requires At(s, n, at, d, ch) && ThreadOf(s, d) == MakeSet(x, ver) && ch(n).fate.Served?
    requires JobKey(d, x) !in s.store.sets
    ensures At(s', n + 1, at, d, ch) && ThreadOf(s', d) == Publish(x, ver)
    ensures s'.store == s.store.(sets := s.store.sets + {JobKey(d, x)})
  {
    s' := Turn(s, d, ch, n, at);
  }

  /** The old job is deleted. */
  lemma DropJobTurn(s: State, d: Key, x: Deployer, ver: nat, ch: Course, n: int, at: (State, int) -> bool)
      returns (s': State)
    requires At(s, n, at, d, ch) && ThreadOf(s, d) == DropOldJob(x, ver) && ch(n).fate.Served?
    requires JobKey(d, x) in s.store.jobs
    ensures At(s', n + 1, at, d, ch) && ThreadOf(s', d) == EnterRelease(x, ver, NextRound)
    ensures s'.store == s.store.(jobs := s.store.jobs - {JobKey(d, x)})
  {
    s' := Turn(s, d, ch, n, at);
  }

  /** So is the old Deployment, of which the store keeps no record; and a call about the service likewise. */
  lemma BlindTurn(s: State, d: Key, ch: Course, n: int, at: (State, int) -> bool) returns (s': State)
    requires At(s, n, at, d, ch) && ch(n).fate.Served?
    requires var t := ThreadOf(s, d); t.DropDeployment? || t.UpdateService? || t.DropService? || t.MakeService?
    ensures At(s', n + 1, at, d, ch) && s'.store == s.store && ThreadOf(s', d) == Resume(d, ThreadOf(s, d), Ack)
  {
    s' := Turn(s, d, ch, n, at);
    BlindAnswer(s.store, d, ThreadOf(s, d), ch(n));
  }

  lemma BlindAnswer(st: Store, d: Key, t: Thread, c: Choice)
    requires (t.DropDeployment? || t.UpdateService? || t.DropService? || t.MakeService?) && c.fate.Served?
    ensures Answer(st, Call(d, t), c) == Ack && After(st, Call(d, t), c) == st
  {
  }
}
