/** The pools' books over whole runs, and the guarantee the reservations are for: what runs fits. */
module EndToEnd {
  import opened Objects
  import opened Quantities
  import opened Pods
  import opened Ledger
  import opened Capacity
  import opened Api
  import opened DeployerThread
  import opened Cluster
  import opened Refinement
  import opened Leakage
  import opened DeployerRounds
  import opened OneJob
  import opened Reservations
  import opened Totals

  /* ---- the atomic results, over runs of the cluster ---- */

  /** The over-commit bound holds of the stored pool in every run of non-negative amounts and fixed
      capacity whose syncs met no total beyond int32. */
  lemma {:induction false} RunOverCommitBound(acts: seq<Action>, p: string, dim: Dim)
    requires Steady(OpsOf(Exec(acts), p))
    requires LegalRun(OpsOf(Exec(acts), p)) && SyncsExact(OpsOf(Exec(acts), p))
    requires PoolNow(Exec(acts).store, p).Some?
    ensures Bounded(PoolNow(Exec(acts).store, p).value, SinceSync(OpsOf(Exec(acts), p)), dim)
  {
    RefinesAtomic(acts, p);
    OverCommitBound(OpsOf(Exec(acts), p), dim);
  }

  /** And holds throughout exactly in those. */
  lemma {:induction false} RunOverCommitIff(acts: seq<Action>, p: string)
    requires Steady(OpsOf(Exec(acts), p))
    ensures LegalRun(OpsOf(Exec(acts), p))
    ensures BoundedThroughout(OpsOf(Exec(acts), p)) <==> SyncsExact(OpsOf(Exec(acts), p))
  {
    RefinesAtomic(acts, p);
    OverCommitIff(OpsOf(Exec(acts), p));
  }

  /** The ledger balances, and a deployer's entries are the queue of its own grants, in every run. */
  lemma {:induction false} RunLedger(acts: seq<Action>, p: string, d: Key, dim: Dim)
    ensures var s := Exec(acts); var ops := OpsOf(s, p);
            && Sum(UsageNow(s.store, p), dim) == Granted(ops, dim) - Returned(ops, dim)
            && Mine(s.store, p, d) == Queue(ops, d)
  {
    RefinesAtomic(acts, p);
    Conservation(OpsOf(Exec(acts), p), dim);
    EntriesAreQueue(OpsOf(Exec(acts), p), d);
  }

  /** In every run usage is what the stored Free leaves of the capacity, plus what has moved since. */
  lemma {:induction false} RunUsageEquation(acts: seq<Action>, p: string, dim: Dim)
    requires Steady(OpsOf(Exec(acts), p)) && LegalRun(OpsOf(Exec(acts), p)) && SyncsExact(OpsOf(Exec(acts), p))
    requires PoolNow(Exec(acts).store, p).Some? && PoolNow(Exec(acts).store, p).value.free.Some?
    ensures var now := PoolNow(Exec(acts).store, p).value;
            Sum(now.usage, dim) ==
            now.capacity.At(dim) - now.free.value.At(dim) + NetSince(OpsOf(Exec(acts), p), dim)
  {
    RefinesAtomic(acts, p);
    UsageEquation(OpsOf(Exec(acts), p), dim);
  }

  /** The pool holds no more than its capacity after the first `i` actions. */
  predicate WithinAt(acts: seq<Action>, p: string, i: nat)
    requires i <= |acts|
  {
    Within(PoolNow(Exec(acts[..i]).store, p))
  }

  /** And at no moment of the run. */
  ghost predicate AlwaysWithin(acts: seq<Action>, p: string) {
    forall i: nat | i <= |acts| :: WithinAt(acts, p, i)
  }

  /** In every run of non-negative amounts and fixed capacity, with any reads, the pool is within its
      capacity at every moment if and only if every beg that landed fitted. */
  lemma {:induction false} AlwaysWithinIff(acts: seq<Action>, p: string)
    requires Steady(OpsOf(Exec(acts), p))
    ensures LegalRun(OpsOf(Exec(acts), p))
    ensures AlwaysWithin(acts, p) <==> FittingGrants(OpsOf(Exec(acts), p))
  {
    RefinesAtomic(acts, p);
    WithinIffFitting(OpsOf(Exec(acts), p));
    AlwaysWithinOps(acts, p);
  }

  lemma {:induction false} AlwaysWithinOps(acts: seq<Action>, p: string)
    ensures LegalRun(OpsOf(Exec(acts), p))
    ensures AlwaysWithin(acts, p) <==> WithinThroughout(OpsOf(Exec(acts), p))
    decreases |acts|
  {
    RefinesAtomic(acts, p);
    assert acts[..|acts|] == acts;
    if acts == [] {
      assert WithinAt(acts, p, 0);
    } else {
      var before := acts[..|acts| - 1];
      AlwaysWithinOps(before, p);
      AlwaysWithinSnoc(acts, p);
      OpsSnoc(Exec(before), acts[|acts| - 1], p);
      RefinesAtomic(before, p);
    }
  }

  lemma WithinPrefix(acts: seq<Action>, p: string, i: nat)
    requires i < |acts|
    ensures WithinAt(acts, p, i) == WithinAt(acts[..|acts| - 1], p, i)
  {
    assert acts[..|acts| - 1][..i] == acts[..i];
  }

  lemma AlwaysWithinSnoc(acts: seq<Action>, p: string)
    requires acts != []
    ensures AlwaysWithin(acts, p) <==> AlwaysWithin(acts[..|acts| - 1], p) && WithinAt(acts, p, |acts|)
  {
    var before := acts[..|acts| - 1];
    if AlwaysWithin(acts, p) {
      forall i: nat | i <= |before| ensures WithinAt(before, p, i) {
        assert WithinAt(acts, p, i);
        WithinPrefix(acts, p, i);
      }
    }
    if AlwaysWithin(before, p) && WithinAt(acts, p, |acts|) {
      forall i: nat | i <= |acts| ensures WithinAt(acts, p, i) {
        if i < |acts| {
          assert WithinAt(before, p, i);
          WithinPrefix(acts, p, i);
        }
      }
    }
  }

  lemma OpsSnoc(s: State, a: Action, p: string)
    ensures var ops, ops' := OpsOf(s, p), OpsOf(Apply(s, a), p);
            ops' == ops || (ops' != [] && ops'[..|ops'| - 1] == ops)
    ensures OpsOf(Apply(s, a), p) == OpsOf(s, p) || OpOf(s, a).Some?
  {
  }

  /* ---- demand of the live jobs ---- */

  /** The live jobs that draw on pool `p`: their deployers are stored, not being deleted, and name it. */
  function Drawing(st: Store, p: string): set<Key> {
    set j | j in st.jobs &&
      var now := DeployerNow(st, st.jobs[j].owner);
      now.Some? && !now.value.deleting && now.value.held == p
  }

  /** What those jobs may use. */
  ghost function Load(st: Store, p: string, dim: Dim): int {
    Total(Drawing(st, p), j => if j in st.jobs then PodLimit(st.jobs[j].pod, dim) else 0)
  }

  predicate Covers(usage: seq<UsageEntry>, job: Job, dim: Dim) {
    exists i | 0 <= i < |usage| :: usage[i].owner == job.owner && usage[i].amount.At(dim) == PodLimit(job.pod, dim)
  }

  predicate DistinctOwners(jobs: map<Key, Job>, names: set<Key>)
    requires names <= jobs.Keys
  {
    forall j, k | j in names && k in names && jobs[j].owner == jobs[k].owner :: j == k
  }

  /** Jobs of distinct owners, each with an entry of its own size, fit in the usage. */
  lemma {:induction false} LoadWithinUsage(
    jobs: map<Key, Job>, names: set<Key>, usage: seq<UsageEntry>, dim: Dim, f: Key -> int)
    requires names <= jobs.Keys && DistinctOwners(jobs, names) && NonNegativeUsage(usage)
    requires forall j | j in names :: Covers(usage, jobs[j], dim)
    requires forall j | j in names :: f(j) == PodLimit(jobs[j].pod, dim)
    ensures Total(names, f) <= Sum(usage, dim)
    decreases |usage|
  {
    if usage == [] {
      assert forall j :: j in names ==> Covers(usage, jobs[j], dim);
      assert names == {};
    } else {
      var n := |usage| - 1;
      var last := usage[n];
      if j :| j in names && jobs[j].owner == last.owner && PodLimit(jobs[j].pod, dim) == last.amount.At(dim) {
        forall k | k in names - {j} ensures Covers(usage[..n], jobs[k], dim) {
          CoveredEarlier(usage, jobs[k], dim);
        }
        LoadWithinUsage(jobs, names - {j}, usage[..n], dim, f);
        TotalRemove(names, j, f);
      } else {
        forall k | k in names ensures Covers(usage[..n], jobs[k], dim) {
          CoveredEarlier(usage, jobs[k], dim);
        }
        LoadWithinUsage(jobs, names, usage[..n], dim, f);
        assert last.amount.At(dim) >= 0;
      }
    }
  }

  lemma CoveredEarlier(usage: seq<UsageEntry>, job: Job, dim: Dim)
    requires usage != [] && Covers(usage, job, dim)
    requires var last := usage[|usage| - 1]; last.owner != job.owner || last.amount.At(dim) != PodLimit(job.pod, dim)
    ensures Covers(usage[..|usage| - 1], job, dim)
  {
    var i :| 0 <= i < |usage| && usage[i].owner == job.owner && usage[i].amount.At(dim) == PodLimit(job.pod, dim);
    assert usage[..|usage| - 1][i] == usage[i];
  }

  lemma {:induction false} EntriesAreUsage(usage: seq<UsageEntry>, d: Key, e: UsageEntry)
    requires e in EntriesOf(usage, d)
    ensures e in usage && e.owner == d
  {
    if e !in EntriesOf(usage[..|usage| - 1], d) {
      assert e == usage[|usage| - 1];
    } else {
      EntriesAreUsage(usage[..|usage| - 1], d, e);
    }
  }

  /* ---- end to end ---- */

  /** A live job that draws on a pool is covered by an entry there. */
  lemma DrawingCovered(s: State, p: string, j: Key, dim: Dim)
    requires j in Drawing(s.store, p) && AllFunded(s, s.store.jobs[j].owner)
    ensures PoolNow(s.store, p).Some? && Covers(UsageNow(s.store, p), s.store.jobs[j], dim)
  {
    var job := s.store.jobs[j];
    assert JobFunded(s.store, j);
    var e :| e in Mine(s.store, p, job.owner)
             && e.amount.cpu == PodLimit(job.pod, Cpu) && e.amount.memory == PodLimit(job.pod, Memory);
    EntriesAreUsage(UsageNow(s.store, p), job.owner, e);
    assert e.amount.At(dim) == PodLimit(job.pod, dim);
  }

  /** End to end: the limits of all live jobs that draw on a pool, of deployers that are not being deleted,
      are within its capacity, if its own operations are steady and its grants fitted, and those deployers
      were treated prudently. Nothing is asked of other pools, or of deployers without such a job. */
  lemma {:induction false} LiveJobsFitCapacity(acts: seq<Action>, p: string, dim: Dim)
    requires LegalRun(OpsOf(Exec(acts), p)) && Steady(OpsOf(Exec(acts), p)) && FittingGrants(OpsOf(Exec(acts), p))
    requires forall j | j in Drawing(Exec(acts).store, p) :: PrudentRun(acts, Exec(acts).store.jobs[j].owner)
    ensures var st := Exec(acts).store;
            if PoolNow(st, p).Some? then Load(st, p, dim) <= PoolNow(st, p).value.capacity.At(dim)
            else Drawing(st, p) == {}
  {
    var s := Exec(acts);
    RefinesAtomic(acts, p);
    forall j | j in Drawing(s.store, p) ensures AllFunded(s, s.store.jobs[j].owner) {
      RunFunded(acts, s.store.jobs[j].owner);
    }
    FundedFits(s, p, dim);
  }

  lemma FundedFits(s: State, p: string, dim: Dim)
    requires LegalRun(OpsOf(s, p)) && Replay(OpsOf(s, p)) == PoolNow(s.store, p)
    requires Steady(OpsOf(s, p)) && FittingGrants(OpsOf(s, p))
    requires forall j | j in Drawing(s.store, p) :: AllFunded(s, s.store.jobs[j].owner)
    ensures if PoolNow(s.store, p).Some? then Load(s.store, p, dim) <= PoolNow(s.store, p).value.capacity.At(dim)
            else Drawing(s.store, p) == {}
  {
    var names := Drawing(s.store, p);
    forall j | j in names ensures PoolNow(s.store, p).Some? && Covers(UsageNow(s.store, p), s.store.jobs[j], dim) {
      DrawingCovered(s, p, j, dim);
    }
    if PoolNow(s.store, p).Some? {
      WithinIffFitting(OpsOf(s, p));
      SteadyPool(OpsOf(s, p));
      forall j, k | j in names && k in names && s.store.jobs[j].owner == s.store.jobs[k].owner ensures j == k {
        OwnJobs(s, s.store.jobs[j].owner, j);
        OwnJobs(s, s.store.jobs[k].owner, k);
      }
      var f := (j: Key) => if j in s.store.jobs then PodLimit(s.store.jobs[j].pod, dim) else 0;
      LoadWithinUsage(s.store.jobs, names, UsageNow(s.store, p), dim, f);
      TotalSame(names, f, j => if j in s.store.jobs then PodLimit(s.store.jobs[j].pod, dim) else 0);
    }
  }

  /* ---- when it is so for every pool ---- */

  /** The amount fits into the stored Free, less what has moved since it was stored. */
  predicate BegFits(s: State, t: Thread)
    requires t.PutBeg?
  {
    var p := t.mem.spec.resourcePool;
    var now := PoolNow(s.store, p);
    now.Some? && now.value.free.Some? ==> Fits(OpsOf(s, p), now.value.free.value, Charge(t.mem.spec.containers))
  }

  /** A sync since the last beg is enough: what lands then fits. */
  lemma {:induction false} SyncedBegFits(acts: seq<Action>, d: Key, ch: Choice)
    requires ThreadOf(Exec(acts), d).PutBeg? && Lands(Exec(acts).store, Call(d, ThreadOf(Exec(acts), d)), ch)
    requires var ops := OpsOf(Exec(acts), ThreadOf(Exec(acts), d).mem.spec.resourcePool);
             Steady(ops) && SinceSync(ops) == 0
    ensures BegFits(Exec(acts), ThreadOf(Exec(acts), d))
  {
    RefinesAtomic(acts, ThreadOf(Exec(acts), d).mem.spec.resourcePool);
    RunSound(acts);
    LandingFits(Exec(acts), d, ch);
  }

  lemma LandingFits(s: State, d: Key, ch: Choice)
    requires WriteSound(s, d) && ThreadOf(s, d).PutBeg? && Lands(s.store, Call(d, ThreadOf(s, d)), ch)
    requires var ops := OpsOf(s, ThreadOf(s, d).mem.spec.resourcePool);
             Steady(ops) && LegalRun(ops) && SinceSync(ops) == 0
    ensures BegFits(s, ThreadOf(s, d))
  {
    var ops := OpsOf(s, ThreadOf(s, d).mem.spec.resourcePool);
    SyncedNet(ops, Cpu);
    SyncedNet(ops, Memory);
  }

  /** Prudent towards whichever deployer it concerns. */
  predicate PrudentAct(s: State, a: Action) {
    match a
    case DeployerTurn(d, _) => Prudent(s, a, d)
    case CreateDeployer(d, _) => Prudent(s, a, d)
    case EditDeployer(d, _, _) => Prudent(s, a, d)
    case _ => true
  }

  /** Prudent, with a fixed non-negative capacity, and begs that land only when they fit into what the last
      sync left. */
  predicate Disciplined(s: State, a: Action) {
    PrudentAct(s, a) &&
    match a
    case DeployerTurn(d, ch) =>
      var t := ThreadOf(s, d);
      t.PutBeg? && Lands(s.store, Call(d, t), ch) ==> BegFits(s, t)
    case CreatePool(_, c) => c.cpu >= 0 && c.memory >= 0
    case EditPool(_, _) => false
    case _ => true
  }

  ghost predicate DisciplinedRun(acts: seq<Action>) {
    forall i | 0 <= i < |acts| :: Disciplined(Exec(acts[..i]), acts[i])
  }

  lemma DisciplinedIsPrudent(acts: seq<Action>, d: Key)
    requires DisciplinedRun(acts)
    ensures PrudentRun(acts, d)
  {
    forall i | 0 <= i < |acts| ensures Prudent(Exec(acts[..i]), acts[i], d) {
      assert Disciplined(Exec(acts[..i]), acts[i]);
    }
  }

  ghost predicate SteadilyFitting(s: State) {
    forall p :: Steady(OpsOf(s, p)) && LegalRun(OpsOf(s, p)) && FittingGrants(OpsOf(s, p))
  }

  lemma ChargeNonNegative(containers: seq<ContainerSpec>)
    requires Payable(containers)
    ensures Charge(containers).cpu >= 0 && Charge(containers).memory >= 0
  {
    BegSumsExact(containers, |containers|, Cpu);
    BegSumsExact(containers, |containers|, Memory);
    DemandPrefix(containers, |containers|, Cpu);
    DemandPrefix(containers, |containers|, Memory);
    assert containers[..|containers|] == containers;
  }

  /** The next operation is steady, and a grant fits. */
  lemma OpDisciplined(s: State, a: Action)
    requires Disciplined(s, a) && OpOf(s, a).Some? && (a.DeployerTurn? ==> AllFunded(s, a.d))
    ensures SteadyOp(OpOf(s, a).value.1)
    ensures OpOf(s, a).value.1.Grant? ==>
              a.DeployerTurn? && ThreadOf(s, a.d).PutBeg? && BegFits(s, ThreadOf(s, a.d))
  {
    if a.DeployerTurn? && ThreadOf(s, a.d).PutBeg? {
      var t, h := ThreadOf(s, a.d), DeployerVersions(s.store, a.d);
      assert Derived(h, t) && Solvent(s, a.d);
      ChargeNonNegative(h[t.ver].value.spec.containers);
    }
  }

  lemma FittingSnoc(ops: seq<PoolOp>, op: PoolOp)
    requires Steady(ops) && LegalRun(ops) && FittingGrants(ops) && Legal(Replay(ops), op) && SteadyOp(op)
    requires op.Grant? ==> Fits(ops, Replay(ops).value.free.value, op.amount)
    ensures Steady(ops + [op]) && LegalRun(ops + [op]) && FittingGrants(ops + [op])
  {
    RunSnoc(ops, op);
    assert (ops + [op])[..|ops|] == ops;
  }

  lemma StepFitting(s: State, a: Action)
    requires Sound(s) && (a.DeployerTurn? ==> AllFunded(s, a.d)) && Disciplined(s, a) && SteadilyFitting(s)
    ensures SteadilyFitting(Apply(s, a))
  {
    var s', op := Apply(s, a), OpOf(s, a);
    forall p ensures Steady(OpsOf(s', p)) && LegalRun(OpsOf(s', p)) && FittingGrants(OpsOf(s', p)) {
      assert Steady(OpsOf(s, p)) && FittingGrants(OpsOf(s, p)) && InBooks(s, p);
      if op.Some? && op.value.0 == p {
        OpDisciplined(s, a);
        StepPools(s, a);
        FittingSnoc(OpsOf(s, p), op.value.1);
        assert OpsOf(s', p) == OpsOf(s, p) + [op.value.1];
      } else {
        assert OpsOf(s', p) == OpsOf(s, p);
      }
    }
  }

  lemma DisciplinedPrefix(acts: seq<Action>)
    requires DisciplinedRun(acts) && acts != []
    ensures DisciplinedRun(acts[..|acts| - 1]) && Disciplined(Exec(acts[..|acts| - 1]), acts[|acts| - 1])
  {
    var before := acts[..|acts| - 1];
    forall i | 0 <= i < |before| ensures Disciplined(Exec(before[..i]), before[i]) {
      assert before[..i] == acts[..i] && before[i] == acts[i];
    }
  }

  lemma {:induction false} RunFitting(acts: seq<Action>)
    requires DisciplinedRun(acts)
    ensures SteadilyFitting(Exec(acts))
    decreases |acts|
  {
    if acts != [] {
      var before, a := acts[..|acts| - 1], acts[|acts| - 1];
      DisciplinedPrefix(acts);
      RunFitting(before);
      RunSound(before);
      if a.DeployerTurn? {
        DisciplinedIsPrudent(before, a.d);
        RunFunded(before, a.d);
      }
      StepFitting(Exec(before), a);
    }
  }

  /** In a disciplined run no pool is ever drawn on beyond its capacity. */
  lemma {:induction false} DisciplinedJobsFit(acts: seq<Action>, p: string, dim: Dim)
    requires DisciplinedRun(acts) && PoolNow(Exec(acts).store, p).Some?
    ensures Load(Exec(acts).store, p, dim) <= PoolNow(Exec(acts).store, p).value.capacity.At(dim)
  {
    RunFitting(acts);
    assert Steady(OpsOf(Exec(acts), p)) && LegalRun(OpsOf(Exec(acts), p));
    forall j | j in Drawing(Exec(acts).store, p) ensures PrudentRun(acts, Exec(acts).store.jobs[j].owner) {
      DisciplinedIsPrudent(acts, Exec(acts).store.jobs[j].owner);
    }
    LiveJobsFitCapacity(acts, p, dim);
  }
}
