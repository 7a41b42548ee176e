/** The stretches runs are made of: a pool is set up, a deployer begs for a round, and its workload is
    made. Each lemma is one stretch, for any names, amounts and rounds. */
module Scenes {
  import opened Objects
  import opened Quantities
  import opened Names
  import opened Ledger
  import opened Capacity
  import opened Api
  import opened DeployerThread
  import opened PoolThread
  import opened Cluster
  import opened OneJob
  import opened Reservations
  import opened EndToEnd
  import opened Scripts

  function Need(amount: Resource): seq<ContainerSpec> {
    [ContainerSpec("main", "image", amount, false, [])]
  }

  lemma NeedIsPayable(amount: Resource)
    requires amount.cpu >= 0 && amount.memory >= 0
    ensures Payable(Need(amount))
  {
    NeedIsDemanded(amount);
  }

  lemma NeedIsDemanded(amount: Resource)
    ensures Demand(Need(amount), Cpu) == amount.cpu && Demand(Need(amount), Memory) == amount.memory
  {
    assert Need(amount)[..0] == [];
    assert Demand([], Cpu) == 0 && Demand([], Memory) == 0;
  }

  lemma NeedIsCharged(amount: Resource)
    ensures Charge(Need(amount)) == amount
  {
    NeedIsDemanded(amount);
    WrapFits(amount.cpu);
    WrapFits(amount.memory);
  }

  /* ---- the pool ---- */

  function PoolOf(c: Resource, usage: seq<UsageEntry>, free: Option<Resource>): Pool {
    Pool(c, usage, free, true, false)
  }

  /** No deployer yet. */
  ghost predicate Quiet(s: State) {
    && (forall d :: DeployerVersions(s.store, d) == [] && ThreadOf(s, d) == Idle && TallyOf(s, d) == NO_TALLY)
    && s.store.jobs == map[] && s.store.sets == {}
  }

  predicate PoolIs(s: State, p: string, g: Versions<Pool>, k: Keeper, ops: seq<PoolOp>) {
    PoolVersions(s.store, p) == g && KeeperOf(s, p) == k && OpsOf(s, p) == ops
  }

  const SERVED := Choice(Served, 3, false, false, None)

  lemma PoolBorn(p: string, c: Resource, lapse: Lapse) returns (s: State)
    requires p != "" && c.cpu >= 0 && c.memory >= 0
    ensures Reachable(s, lapse) && Quiet(s) && PoolIs(s, p, [Some(NewPool(c))], Resting, [PoolOp.Create(c)])
  {
    Origin(lapse);
    Extend(EMPTY, CreatePool(p, c), lapse);
    s := Apply(EMPTY, CreatePool(p, c));
  }

  /** What a turn of the pool's reconcile leaves alone. */
  lemma KeeperAside(s: State, p: string)
    requires Quiet(s)
    ensures Quiet(Apply(s, PoolTurn(p, SERVED)))
    ensures Disciplined(s, PoolTurn(p, SERVED))
  {
    var s' := Apply(s, PoolTurn(p, SERVED));
    forall d
      ensures DeployerVersions(s'.store, d) == [] && ThreadOf(s', d) == Idle && TallyOf(s', d) == NO_TALLY
    {
      assert DeployerVersions(s.store, d) == [] && ThreadOf(s, d) == Idle && TallyOf(s, d) == NO_TALLY;
    }
  }

  lemma KeeperGets(s: State, p: string, c: Resource)
    requires PoolIs(s, p, [Some(NewPool(c))], Resting, [PoolOp.Create(c)])
    ensures PoolIs(Apply(s, PoolTurn(p, SERVED)), p, [Some(NewPool(c))],
                   GuardPool(PoolOf(c, [], None), 0), [PoolOp.Create(c)])
  {
  }

  lemma GuardAnswered(st: Store, p: string, c: Resource)
    requires PoolVersions(st, p) == [Some(NewPool(c))]
    ensures var req := UpdatePool(p, true, 0);
            && Lands(st, req, SERVED) && Answer(st, req, SERVED) == AckAt(1)
            && After(st, req, SERVED) == WritePool(st, p, [Some(NewPool(c)), Some(PoolOf(c, [], None))])
  {
    var req := UpdatePool(p, true, 0);
    assert RevisedPool(NewPool(c), req) == Some(PoolOf(c, [], None));
    assert [Some(NewPool(c))] + [Some(PoolOf(c, [], None))] == [Some(NewPool(c)), Some(PoolOf(c, [], None))];
  }

  lemma PlanReady(c: Resource)
    requires c.cpu >= 0 && c.memory >= 0
    ensures Plan(PoolOf(c, [], None), 1) == StoreFree(PoolOf(c, [], None), 1, c)
  {
    NothingUsed(c);
  }

  lemma GuardPlans(mem: Pool, ver: nat)
    ensures ResumePool(GuardPool(mem, 0), AckAt(ver)) == Plan(mem, ver)
  {
  }

  lemma KeeperGuards(s: State, p: string, c: Resource)
    requires PoolIs(s, p, [Some(NewPool(c))], GuardPool(PoolOf(c, [], None), 0), [PoolOp.Create(c)])
    ensures var s' := Apply(s, PoolTurn(p, SERVED));
            && PoolVersions(s'.store, p) == [Some(NewPool(c)), Some(PoolOf(c, [], None))]
            && OpsOf(s', p) == [PoolOp.Create(c), Guard] && KeeperOf(s', p) == Plan(PoolOf(c, [], None), 1)
  {
    GuardAnswered(s.store, p, c);
    GuardPlans(PoolOf(c, [], None), 1);
  }

  lemma KeeperStores(s: State, p: string, c: Resource)
    requires PoolIs(s, p, [Some(NewPool(c)), Some(PoolOf(c, [], None))], StoreFree(PoolOf(c, [], None), 1, c),
                    [PoolOp.Create(c), Guard])
    ensures PoolIs(Apply(s, PoolTurn(p, SERVED)), p,
                   [Some(NewPool(c)), Some(PoolOf(c, [], None)), Some(PoolOf(c, [], Some(c)))], Resting,
                   [PoolOp.Create(c), Guard, Sync])
  {
  }

  /** A pool is created and its reconcile runs once. */
  lemma PoolReady(p: string, c: Resource, lapse: Lapse) returns (s: State)
    requires p != "" && c.cpu >= 0 && c.memory >= 0
    ensures Reachable(s, lapse) && Quiet(s)
    ensures PoolIs(s, p, [Some(NewPool(c)), Some(PoolOf(c, [], None)), Some(PoolOf(c, [], Some(c)))], Resting,
                   [PoolOp.Create(c), Guard, Sync])
  {
    var a := PoolTurn(p, SERVED);
    s := PoolBorn(p, c, lapse);
    KeeperGets(s, p, c);
    KeeperAside(s, p);
    Extend(s, a, lapse);
    s := Apply(s, a);
    KeeperGuards(s, p, c);
    PlanReady(c);
    KeeperAside(s, p);
    Extend(s, a, lapse);
    s := Apply(s, a);
    KeeperStores(s, p, c);
    KeeperAside(s, p);
    Extend(s, a, lapse);
    s := Apply(s, a);
  }

  /* ---- clients ---- */

  lemma Create(s: State, d: Key, p: string, spec: DeployerSpec, lapse: Lapse, r: State -> bool) returns (s': State)
    requires r(s) && Closed(r, d, lapse) && DeployerNow(s.store, d).None? && ThreadOf(s, d).Idle?
    requires lapse.Anything? || (spec.kind == JOB && NoJobsOf(s.store, d) && Payable(spec.containers))
    ensures r(s')
    ensures var v := Look(s, d, p); Look(s', d, p) == v.(h := v.h + [Some(NewDeployer(spec))])
  {
    s' := Apply(s, CreateDeployer(d, spec));
  }

  lemma Edit(s: State, d: Key, p: string, spec: DeployerSpec, lapse: Lapse, r: State -> bool) returns (s': State)
    requires r(s) && Closed(r, d, lapse) && DeployerNow(s.store, d).Some? && !DeployerNow(s.store, d).value.deleting
    requires var a := EditDeployer(d, spec, true); Disciplined(s, a) || Lapses(s, a, lapse)
    ensures r(s')
    ensures var v := Look(s, d, p); Look(s', d, p) == v.(h := v.h + [Some(Latest(v.h).value.(spec := spec))])
  {
    s' := Apply(s, EditDeployer(d, spec, true));
  }

  /* ---- a new deployer ---- */

  predicate Live(x: Deployer, p: string) {
    x.finalizer && !x.deleting && x.spec.resourcePool == p
  }

  predicate Behind(x: Deployer) {
    x.spec.round > x.status.currentRound && !x.spec.kind.UNKNOWN?
  }

  /** It is created, and its reconcile is about to add the finalizer. */
  lemma Appear(s: State, d: Key, p: string, spec: DeployerSpec, lapse: Lapse, r: State -> bool) returns (s': State)
    requires r(s) && Closed(r, d, lapse) && PoolNow(s.store, p).Some?
    requires DeployerVersions(s.store, d) == [] && ThreadOf(s, d) == Idle
    requires lapse.Anything? || (spec.kind == JOB && NoJobsOf(s.store, d) && Payable(spec.containers))
    ensures var x := NewDeployer(spec);
            && r(s')
            && Look(s', d, p) == Look(s, d, p).(h := [Some(x)], t := AddFinalizer(x.(finalizer := true), 0))
  {
    var s1 := Create(s, d, p, spec, lapse, r);
    assert [] + [Some(NewDeployer(spec))] == [Some(NewDeployer(spec))];
    assert Begin(NewDeployer(spec), 0) == AddFinalizer(NewDeployer(spec).(finalizer := true), 0);
    s' := Go(s1, d, p, lapse, r);
  }

  /** And has added it. */
  lemma Enter(s: State, d: Key, p: string, spec: DeployerSpec, lapse: Lapse, r: State -> bool) returns (s': State)
    requires r(s) && Closed(r, d, lapse) && PoolNow(s.store, p).Some?
    requires DeployerVersions(s.store, d) == [] && ThreadOf(s, d) == Idle
    requires lapse.Anything? || (spec.kind == JOB && NoJobsOf(s.store, d) && Payable(spec.containers))
    requires spec.round != 0
    ensures var x := NewDeployer(spec).(finalizer := true);
            && r(s')
            && Look(s', d, p) == Look(s, d, p).(h := [Some(NewDeployer(spec)), Some(x)], t := Route(x, 1))
  {
    var s1 := Appear(s, d, p, spec, lapse, r);
    s' := Go(s1, d, p, lapse, r);
    assert [Some(NewDeployer(spec))] + [Some(NewDeployer(spec).(finalizer := true))] ==
           [Some(NewDeployer(spec)), Some(NewDeployer(spec).(finalizer := true))];
  }

  /* ---- a beg ---- */

  /** The round is begun in memory, and the pool is about to be asked. */
  predicate Asking(v: View, x: Deployer) {
    && v.h != [] && Latest(v.h) == Some(x) && Live(x, v.p)
    && v.t == ReadWanted(Advanced(x), |v.h| - 1, MAX_TRIES)
    && v.g != [] && Latest(v.g).Some?
  }

  /** What holds of a beg that may land. */
  predicate MayBeg(v: View, x: Deployer, lapse: Lapse) {
    && Latest(v.g).Some? && Latest(v.g).value.free.Some?
    && Affords(Latest(v.g).value.free.value, Charge(x.spec.containers))
    && (lapse.Overfill? || lapse.Anything? || Fits(v.ops, Latest(v.g).value.free.value, Charge(x.spec.containers)))
  }

  lemma Afford(s: State, d: Key, p: string, x: Deployer, lapse: Lapse, r: State -> bool) returns (s': State)
    requires r(s) && Closed(r, d, lapse) && Asking(Look(s, d, p), x) && MayBeg(Look(s, d, p), x, lapse)
    ensures r(s')
    ensures var v := Look(s, d, p);
            Look(s', d, p) == v.(t := PutBeg(Advanced(x), |v.h| - 1, MAX_TRIES, Latest(v.g).value, |v.g| - 1))
  {
    s' := Go(s, d, p, lapse, r);
  }

  lemma Append(s: State, d: Key, p: string, x: Deployer, lapse: Lapse, r: State -> bool) returns (s': State)
    requires var v := Look(s, d, p);
             && v.h != [] && Latest(v.h) == Some(x) && Live(x, p) && MayBeg(v, x, lapse) && v.g != []
             && v.t == PutBeg(Advanced(x), |v.h| - 1, MAX_TRIES, Latest(v.g).value, |v.g| - 1)
    requires r(s) && Closed(r, d, lapse)
    ensures r(s')
    ensures var v := Look(s, d, p);
            var e := UsageEntry(d, Charge(x.spec.containers));
            Look(s', d, p) == v.(
              t := Commit(Advanced(x).(held := p), |v.h| - 1),
              g := v.g + [Some(Latest(v.g).value.(usage := Latest(v.g).value.usage + [e]))],
              ops := v.ops + [Grant(d, e.amount)], tally := Bump(v.tally, Begged))
  {
    s' := Go(s, d, p, lapse, r);
  }

  /** The round as it is stored after its beg. */
  function Begun(x: Deployer): Deployer {
    Advanced(x).(held := x.spec.resourcePool)
  }

  lemma Store(s: State, d: Key, p: string, x: Deployer, lapse: Lapse, r: State -> bool) returns (s': State)
    requires var v := Look(s, d, p);
             && v.h != [] && Latest(v.h) == Some(x) && Live(x, p) && v.g != [] && Latest(v.g).Some?
             && v.t == Commit(Advanced(x).(held := p), |v.h| - 1)
    requires r(s) && Closed(r, d, lapse)
    ensures r(s')
    ensures var v := Look(s, d, p);
            Look(s', d, p) == v.(t := Idle, h := v.h + [Some(Begun(x))], tally := Bump(v.tally, KeptIt))
  {
    s' := Go(s, d, p, lapse, r);
  }

  /** Ask, and append. */
  lemma Take(s: State, d: Key, p: string, x: Deployer, lapse: Lapse, r: State -> bool) returns (s': State)
    requires r(s) && Closed(r, d, lapse) && Asking(Look(s, d, p), x) && MayBeg(Look(s, d, p), x, lapse)
    ensures r(s')
    ensures var v := Look(s, d, p);
            var e := UsageEntry(d, Charge(x.spec.containers));
            Look(s', d, p) == v.(
              t := Commit(Advanced(x).(held := p), |v.h| - 1),
              g := v.g + [Some(Latest(v.g).value.(usage := Latest(v.g).value.usage + [e]))],
              ops := v.ops + [Grant(d, e.amount)], tally := Bump(v.tally, Begged))
  {
    var s1 := Afford(s, d, p, x, lapse, r);
    s' := Append(s1, d, p, x, lapse, r);
  }

  /** From asking the pool to the round stored with its reservation. */
  lemma Beg(s: State, d: Key, p: string, x: Deployer, lapse: Lapse, r: State -> bool) returns (s': State)
    requires r(s) && Closed(r, d, lapse) && Asking(Look(s, d, p), x) && MayBeg(Look(s, d, p), x, lapse)
    ensures r(s')
    ensures var v := Look(s, d, p);
            var e := UsageEntry(d, Charge(x.spec.containers));
            Look(s', d, p) == v.(
              t := Idle, h := v.h + [Some(Begun(x))],
              g := v.g + [Some(Latest(v.g).value.(usage := Latest(v.g).value.usage + [e]))],
              ops := v.ops + [Grant(d, e.amount)], tally := Bump(Bump(v.tally, Begged), KeptIt))
  {
    var s1 := Take(s, d, p, x, lapse, r);
    s' := Store(s1, d, p, x, lapse, r);
  }

  lemma InquiryNext(v: View)
    requires Plain(v) && Inquires(v.t)
    ensures Next(v) == v.(t := Resume(v.d, v.t, Exists(false)))
  {
  }

  /** Where a cleanup that finds no old workload leads. */
  lemma CleanupNext(d: Key, x: Deployer, ver: nat)
    requires !x.spec.kind.UNKNOWN?
    ensures var t := EnterCleanup(x, ver);
            && (t.FindOldJob? || t.FindDeployment?) && t.mem == x && t.ver == ver
            && Resume(d, t, Exists(false)) ==
                 if x.held == "" then ReadWanted(Advanced(x), ver, MAX_TRIES)
                 else ReadHeld(x, ver, MAX_TRIES, NextRound)
  {
  }

  /** Cleanup finds no old workload. */
  lemma Cleanup(s: State, d: Key, p: string, x: Deployer, lapse: Lapse, r: State -> bool) returns (s': State)
    requires r(s) && Closed(r, d, lapse) && !x.spec.kind.UNKNOWN?
    requires var v := Look(s, d, p);
             && v.h != [] && Latest(v.h) == Some(x) && v.g != [] && Latest(v.g).Some?
             && v.t == EnterCleanup(x, |v.h| - 1)
             && (lapse.Anything? || lapse.MissedJob? || JobKey(d, x) !in v.jobs)
    ensures r(s')
    ensures var v := Look(s, d, p);
            Look(s', d, p) == v.(
              t := if x.held == "" then ReadWanted(Advanced(x), |v.h| - 1, MAX_TRIES)
                   else ReadHeld(x, |v.h| - 1, MAX_TRIES, NextRound))
  {
    CleanupNext(d, x, |Look(s, d, p).h| - 1);
    InquiryNext(Look(s, d, p));
    s' := Go(s, d, p, lapse, r);
  }

  /** A new deployer that holds nothing is about to ask. */
  lemma FirstAsk(s: State, d: Key, p: string, x: Deployer, lapse: Lapse, r: State -> bool) returns (s': State)
    requires var v := Look(s, d, p);
             && v.h != [] && Latest(v.h) == Some(x) && Live(x, p) && Behind(x) && x.held == ""
             && v.g != [] && Latest(v.g).Some? && v.t == Route(x, |v.h| - 1)
             && (lapse.Anything? || lapse.MissedJob? || JobKey(d, x) !in v.jobs)
    requires r(s) && Closed(r, d, lapse)
    ensures r(s')
    ensures var v := Look(s, d, p); Look(s', d, p) == v.(t := ReadWanted(Advanced(x), |v.h| - 1, MAX_TRIES))
  {
    assert Route(x, |Look(s, d, p).h| - 1) == EnterCleanup(x, |Look(s, d, p).h| - 1);
    s' := Cleanup(s, d, p, x, lapse, r);
  }

  /** From its creation to asking the pool for its first round. */
  lemma Arrive(s: State, d: Key, p: string, spec: DeployerSpec, lapse: Lapse, r: State -> bool) returns (s': State)
    requires r(s) && Closed(r, d, lapse) && PoolNow(s.store, p).Some?
    requires DeployerVersions(s.store, d) == [] && ThreadOf(s, d) == Idle
    requires lapse.Anything? || (spec.kind == JOB && NoJobsOf(s.store, d) && Payable(spec.containers))
    requires spec.round > 0 && !spec.kind.UNKNOWN? && spec.resourcePool == p
    requires spec.kind.JOB? ==> SubKey(d, 0) !in s.store.jobs
    ensures var x := NewDeployer(spec).(finalizer := true);
            && r(s')
            && Look(s', d, p) == Look(s, d, p).(
                 h := [Some(NewDeployer(spec)), Some(x)], t := ReadWanted(Advanced(x), 1, MAX_TRIES))
  {
    var x := NewDeployer(spec).(finalizer := true);
    var s1 := Enter(s, d, p, spec, lapse, r);
    assert Live(x, p) && Behind(x) && x.held == "" && JobKey(d, x) == SubKey(d, 0);
    s' := FirstAsk(s1, d, p, x, lapse, r);
  }

  /* ---- the old reservation ---- */

  predicate Renewing(v: View, x: Deployer) {
    && v.h != [] && Latest(v.h) == Some(x) && Live(x, v.p) && Behind(x) && x.held == v.p && v.p != ""
    && v.g != [] && Latest(v.g).Some?
  }

  lemma Notice(s: State, d: Key, p: string, x: Deployer, lapse: Lapse, r: State -> bool) returns (s': State)
    requires r(s) && Closed(r, d, lapse) && Renewing(Look(s, d, p), x) && ThreadOf(s, d).Idle?
    ensures r(s')
    ensures var v := Look(s, d, p); Look(s', d, p) == v.(t := EnterCleanup(x, |v.h| - 1))
  {
    s' := Go(s, d, p, lapse, r);
  }

  lemma Clear(s: State, d: Key, p: string, x: Deployer, lapse: Lapse, r: State -> bool) returns (s': State)
    requires r(s) && Closed(r, d, lapse) && Renewing(Look(s, d, p), x)
    requires var v := Look(s, d, p);
             && v.t == EnterCleanup(x, |v.h| - 1)
             && (lapse.Anything? || lapse.MissedJob? || JobKey(d, x) !in v.jobs)
    ensures r(s')
    ensures var v := Look(s, d, p); Look(s', d, p) == v.(t := ReadHeld(x, |v.h| - 1, MAX_TRIES, NextRound))
  {
    s' := Cleanup(s, d, p, x, lapse, r);
  }

  lemma Spot(s: State, d: Key, p: string, x: Deployer, lapse: Lapse, r: State -> bool) returns (s': State)
    requires r(s) && Closed(r, d, lapse) && Renewing(Look(s, d, p), x) && Holds(Latest(Look(s, d, p).g).value.usage, d)
    requires ThreadOf(s, d) == ReadHeld(x, |Look(s, d, p).h| - 1, MAX_TRIES, NextRound)
    ensures r(s')
    ensures var v := Look(s, d, p);
            Look(s', d, p) == v.(t := PutRelease(x, |v.h| - 1, MAX_TRIES, NextRound, Latest(v.g).value, |v.g| - 1))
  {
    s' := Go(s, d, p, lapse, r);
  }

  lemma Vacate(s: State, d: Key, p: string, x: Deployer, lapse: Lapse, r: State -> bool) returns (s': State)
    requires r(s) && Closed(r, d, lapse) && Renewing(Look(s, d, p), x)
    requires var v := Look(s, d, p);
             v.t == PutRelease(x, |v.h| - 1, MAX_TRIES, NextRound, Latest(v.g).value, |v.g| - 1)
    ensures r(s')
    ensures var v := Look(s, d, p);
            Look(s', d, p) == v.(
              t := ReadWanted(Advanced(x), |v.h| - 1, MAX_TRIES),
              g := v.g + [Some(Latest(v.g).value.(usage := DropFirst(Latest(v.g).value.usage, d)))],
              ops := v.ops + [Return(d)], tally := Bump(v.tally, GaveBack))
  {
    s' := Go(s, d, p, lapse, r);
  }

  /** From an idle, due deployer to reading the pool it holds. */
  lemma Turnover(s: State, d: Key, p: string, x: Deployer, lapse: Lapse, r: State -> bool) returns (s': State)
    requires r(s) && Closed(r, d, lapse) && Renewing(Look(s, d, p), x) && ThreadOf(s, d).Idle?
    requires lapse.Anything? || lapse.MissedJob? || JobKey(d, x) !in s.store.jobs
    ensures r(s')
    ensures var v := Look(s, d, p); Look(s', d, p) == v.(t := ReadHeld(x, |v.h| - 1, MAX_TRIES, NextRound))
  {
    var s1 := Notice(s, d, p, x, lapse, r);
    s' := Clear(s1, d, p, x, lapse, r);
  }

  /** From there to asking for the next round, the old entry released. */
  lemma Release(s: State, d: Key, p: string, x: Deployer, lapse: Lapse, r: State -> bool) returns (s': State)
    requires r(s) && Closed(r, d, lapse) && Renewing(Look(s, d, p), x)
    requires Holds(Latest(Look(s, d, p).g).value.usage, d)
    requires ThreadOf(s, d) == ReadHeld(x, |Look(s, d, p).h| - 1, MAX_TRIES, NextRound)
    ensures r(s')
    ensures var v := Look(s, d, p);
            Look(s', d, p) == v.(
              t := ReadWanted(Advanced(x), |v.h| - 1, MAX_TRIES),
              g := v.g + [Some(Latest(v.g).value.(usage := DropFirst(Latest(v.g).value.usage, d)))],
              ops := v.ops + [Return(d)], tally := Bump(v.tally, GaveBack))
  {
    var s1 := Spot(s, d, p, x, lapse, r);
    s' := Vacate(s1, d, p, x, lapse, r);
  }

  /* ---- the workload ---- */

  /** A live deployer in its current round. */
  predicate Poised(v: View, x: Deployer) {
    && v.h != [] && Latest(v.h) == Some(x) && x.finalizer && !x.deleting
    && x.spec.round == x.status.currentRound && !x.spec.kind.UNKNOWN?
    && v.g != [] && Latest(v.g).Some?
  }

  lemma Look0(s: State, d: Key, p: string, x: Deployer, lapse: Lapse, r: State -> bool) returns (s': State)
    requires r(s) && Closed(r, d, lapse) && Poised(Look(s, d, p), x) && ThreadOf(s, d).Idle?
    ensures r(s')
    ensures var v := Look(s, d, p); Look(s', d, p) == v.(t := EnterHandle(x, |v.h| - 1))
  {
    s' := Go(s, d, p, lapse, r);
  }

  lemma Miss(s: State, d: Key, p: string, x: Deployer, lapse: Lapse, r: State -> bool) returns (s': State)
    requires r(s) && Closed(r, d, lapse) && Poised(Look(s, d, p), x)
    requires ThreadOf(s, d) == EnterHandle(x, |Look(s, d, p).h| - 1)
    ensures r(s')
    ensures var v, y := Look(s, d, p), WithStatus(x, Pending);
            Look(s', d, p) == v.(
              t := if x.spec.kind.JOB? then AnnounceJob(y, |v.h| - 1) else AnnounceSet(y, |v.h| - 1))
  {
    s' := Go(s, d, p, lapse, r);
  }

  lemma Announcing(s: State, d: Key, p: string, x: Deployer, lapse: Lapse, r: State -> bool) returns (s': State)
    requires r(s) && Closed(r, d, lapse) && Poised(Look(s, d, p), x)
    requires var v, y := Look(s, d, p), WithStatus(x, Pending);
             v.t == if x.spec.kind.JOB? then AnnounceJob(y, |v.h| - 1) else AnnounceSet(y, |v.h| - 1)
    ensures r(s')
    ensures var v, y := Look(s, d, p), WithStatus(x, Pending);
            Look(s', d, p) == v.(
              h := v.h + [Some(y)], t := if x.spec.kind.JOB? then Lookup(y, |v.h|) else LookupSet(y, |v.h|))
  {
    s' := Go(s, d, p, lapse, r);
  }

  /** The call that looks for the workload, and finds none. */
  lemma Seek(s: State, d: Key, p: string, x: Deployer, lapse: Lapse, r: State -> bool) returns (s': State)
    requires r(s) && Closed(r, d, lapse) && Poised(Look(s, d, p), x) && ThreadOf(s, d).Idle?
    ensures r(s')
    ensures var v, y := Look(s, d, p), WithStatus(x, Pending);
            Look(s', d, p) == v.(
              t := if x.spec.kind.JOB? then AnnounceJob(y, |v.h| - 1) else AnnounceSet(y, |v.h| - 1))
  {
    var s1 := Look0(s, d, p, x, lapse, r);
    s' := Miss(s1, d, p, x, lapse, r);
  }

  /** From the first look to the announcement stored. */
  lemma Announce(s: State, d: Key, p: string, x: Deployer, lapse: Lapse, r: State -> bool) returns (s': State)
    requires r(s) && Closed(r, d, lapse) && Poised(Look(s, d, p), x) && ThreadOf(s, d).Idle?
    ensures r(s')
    ensures var v, y := Look(s, d, p), WithStatus(x, Pending);
            Look(s', d, p) == v.(
              h := v.h + [Some(y)], t := if x.spec.kind.JOB? then Lookup(y, |v.h|) else LookupSet(y, |v.h|))
  {
    var s1 := Seek(s, d, p, x, lapse, r);
    s' := Announcing(s1, d, p, x, lapse, r);
  }

  /** The latest version lacks its workload. */
  predicate Bare(v: View, x: Deployer) {
    && v.h != [] && Latest(v.h) == Some(x) && !x.spec.kind.UNKNOWN?
    && (if x.spec.kind.JOB? then JobKey(v.d, x) !in v.jobs else JobKey(v.d, x) !in v.sets)
    && v.g != [] && Latest(v.g).Some?
  }

  /** And has been announced. */
  predicate Announced(v: View, x: Deployer) {
    && Bare(v, x)
    && v.t == if x.spec.kind.JOB? then Lookup(x, |v.h| - 1) else LookupSet(x, |v.h| - 1)
  }

  lemma Probe(s: State, d: Key, p: string, x: Deployer, lapse: Lapse, r: State -> bool) returns (s': State)
    requires r(s) && Closed(r, d, lapse) && Announced(Look(s, d, p), x)
    ensures r(s')
    ensures var v := Look(s, d, p);
            Look(s', d, p) == v.(t := if x.spec.kind.JOB? then MakeJob(x, |v.h| - 1) else MakeSet(x, |v.h| - 1))
  {
    InquiryNext(Look(s, d, p));
    s' := Go(s, d, p, lapse, r);
  }

  /** The view with the workload of its latest version made. */
  function WithWorkload(v: View, x: Deployer): View {
    if x.spec.kind.JOB? then v.(jobs := v.jobs[JobKey(v.d, x) := NewJob(v.d, x)])
    else v.(sets := v.sets + {JobKey(v.d, x)})
  }

  lemma Make(s: State, d: Key, p: string, x: Deployer, lapse: Lapse, r: State -> bool) returns (s': State)
    requires r(s) && Closed(r, d, lapse)
    requires var v := Look(s, d, p);
             && Bare(v, x)
             && v.t == (if x.spec.kind.JOB? then MakeJob(x, |v.h| - 1) else MakeSet(x, |v.h| - 1))
    ensures r(s')
    ensures var v := Look(s, d, p); Look(s', d, p) == WithWorkload(v, x).(t := Publish(x, |v.h| - 1))
  {
    s' := Go(s, d, p, lapse, r);
  }

  lemma Finish(s: State, d: Key, p: string, x: Deployer, lapse: Lapse, r: State -> bool) returns (s': State)
    requires r(s) && Closed(r, d, lapse)
    requires var v := Look(s, d, p);
             && v.h != [] && Latest(v.h) == Some(x) && v.t == Publish(x, |v.h| - 1)
             && v.g != [] && Latest(v.g).Some?
    ensures r(s')
    ensures var v := Look(s, d, p); Look(s', d, p) == v.(t := Idle, h := v.h + [Some(x)])
  {
    s' := Go(s, d, p, lapse, r);
  }

  /** A whole reconcile in the current round: announce, make, publish. */
  lemma Launch(s: State, d: Key, p: string, x: Deployer, lapse: Lapse, r: State -> bool) returns (s': State)
    requires r(s) && Closed(r, d, lapse) && Poised(Look(s, d, p), x) && ThreadOf(s, d).Idle?
    requires if x.spec.kind.JOB? then JobKey(d, x) !in s.store.jobs else JobKey(d, x) !in s.store.sets
    ensures r(s')
    ensures var v, y := Look(s, d, p), WithStatus(x, Pending);
            Look(s', d, p) == WithWorkload(v, y).(h := v.h + [Some(y), Some(y)])
  {
    var y := WithStatus(x, Pending);
    var s1 := Announce(s, d, p, x, lapse, r);
    s' := Complete(s1, d, p, y, lapse, r);
    assert Look(s, d, p).h + [Some(y)] + [Some(y)] == Look(s, d, p).h + [Some(y), Some(y)];
  }

  lemma Complete(s: State, d: Key, p: string, x: Deployer, lapse: Lapse, r: State -> bool) returns (s': State)
    requires r(s) && Closed(r, d, lapse) && Announced(Look(s, d, p), x)
    ensures r(s')
    ensures var v := Look(s, d, p); Look(s', d, p) == WithWorkload(v, x).(t := Idle, h := v.h + [Some(x)])
  {
    var s1 := Probe(s, d, p, x, lapse, r);
    var s2 := Make(s1, d, p, x, lapse, r);
    s' := Finish(s2, d, p, x, lapse, r);
  }
}
