/** No job without a reservation. */
module Reservations {
  import opened Objects
  import opened Quantities
  import opened Pods
  import opened Api
  import opened DeployerThread
  import opened Cluster
  import opened Refinement
  import opened Leakage
  import opened DeployerRounds
  import opened OneJob

  /** Amounts are non-negative and add up within an int32. */
  predicate Payable(containers: seq<ContainerSpec>) {
    NonNegativeContainers(containers) && Fits32(Demand(containers, Cpu)) && Fits32(Demand(containers, Memory))
  }

  /** Whoever sets the round to the current one finds the reservation for it in place, and no reconcile
      about to take it away; nor are containers changed within a round without one. And a beg reads a
      pool whose Free has been computed. */
  predicate Prudent(s: State, a: Action, d: Key) {
    Attentive(s, a, d) &&
    match a
    case DeployerTurn(e, ch) =>
      var t := ThreadOf(s, d);
      e == d && t.ReadWanted? ==> var r := Answer(s.store, Call(d, t), ch); r.GotPool? ==> r.pool.free.Some?
    case CreateDeployer(e, spec) => e == d ==> Payable(spec.containers)
    case EditDeployer(e, spec, _) => e == d ==> Payable(spec.containers) && PrudentEdit(s, d, spec)
    case _ => true
  }

  predicate PrudentEdit(s: State, d: Key, spec: DeployerSpec) {
    var now := DeployerNow(s.store, d);
    now.Some? && (now.value.finalizer || now.value.status.currentRound != 0)
    && spec.round == now.value.status.currentRound ==>
      || (now.value.spec.round == spec.round && now.value.spec.containers == spec.containers)
      || (ThreadOf(s, d).Idle? && Reserves(s.store, now.value.held, d, spec.containers))
  }

  ghost predicate PrudentRun(acts: seq<Action>, d: Key) {
    forall i | 0 <= i < |acts| :: Prudent(Exec(acts[..i]), acts[i], d)
  }

  /** `d` holds the charge of `containers` in pool `p`. */
  predicate Reserves(st: Store, p: string, d: Key, containers: seq<ContainerSpec>) {
    UsageEntry(d, Charge(containers)) in Mine(st, p, d)
  }

  predicate PayableVersions(h: Versions<Deployer>) {
    forall i | 0 <= i < |h| && h[i].Some? :: Payable(h[i].value.spec.containers)
  }

  /** Its next reconcile does not go straight to the job: another round is asked for, or none has begun and
      the finalizer comes first, with whose update a round of 0 is stored as -1. */
  predicate Open(x: Deployer) {
    x.spec.round != x.status.currentRound || (!x.finalizer && x.status.currentRound == 0)
  }

  /** The stored deployer has its reservation, unless it is open. */
  predicate Funded(st: Store, d: Key) {
    var now := DeployerNow(st, d);
    now.Some? && !now.value.deleting && !Open(now.value) ==>
      Reserves(st, now.value.held, d, now.value.spec.containers)
  }

  predicate Working(t: Thread) {
    t.FindJob? || t.AnnounceJob? || t.Lookup? || t.MakeJob? || t.WatchJob?
  }

  /** The reconcile works towards the next round. */
  predicate Advancing(x: Deployer, t: Thread) {
    t.FindOldJob? || t.DropOldJob? || t.FindDeployment? || t.DropDeployment? || Clearing(x, t)
  }

  predicate Solvent(s: State, d: Key)
    requires Derived(DeployerVersions(s.store, d), ThreadOf(s, d))
  {
    var t, now, h := ThreadOf(s, d), DeployerNow(s.store, d), DeployerVersions(s.store, d);
    && PayableVersions(h) && Funded(s.store, d)
    && (!t.Idle? && now.Some? ==>
          var x := h[t.ver].value;
          && (Working(t) ==> Reserves(s.store, now.value.held, d, x.spec.containers))
          && (t.Commit? && IsCurrent(h, t.ver) ==> Reserves(s.store, t.mem.held, d, x.spec.containers))
          && (Advancing(x, t) ==> Open(now.value))
          && (t.Publish? ==> Tends(x, t.mem)))
  }

  /** An entry of exactly the job's limits. */
  predicate Backs(entries: seq<UsageEntry>, job: Job) {
    exists e | e in entries ::
      e.amount.cpu == PodLimit(job.pod, Cpu) && e.amount.memory == PodLimit(job.pod, Memory)
  }

  /** The job's limits are reserved in the pool its deployer's stored status names. */
  predicate JobFunded(st: Store, j: Key)
    requires j in st.jobs
  {
    var job := st.jobs[j];
    var now := DeployerNow(st, job.owner);
    now.Some? && !now.value.deleting ==> Backs(Mine(st, now.value.held, job.owner), job)
  }

  ghost predicate AllFunded(s: State, d: Key) {
    && Sound(s) && OneJobOf(s, d) && Solvent(s, d)
    && (forall j | j in s.store.jobs && s.store.jobs[j].owner == d :: JobFunded(s.store, j))
  }

  lemma ReservesPod(st: Store, p: string, d: Key, containers: seq<ContainerSpec>)
    requires Reserves(st, p, d, containers) && Payable(containers)
    ensures exists e | e in Mine(st, p, d) ::
              e.amount.cpu == PodLimit(PodOf(containers), Cpu) && e.amount.memory == PodLimit(PodOf(containers), Memory)
  {
    PodMatchesCharge(containers, Cpu);
    PodMatchesCharge(containers, Memory);
    var e := UsageEntry(d, Charge(containers));
    assert e in Mine(st, p, d) && e.amount.cpu == PodLimit(PodOf(containers), Cpu);
  }

  /* ---- everyone else's turns ---- */

  lemma OthersKeepFunds(s: State, a: Action, p: string, d: Key, containers: seq<ContainerSpec>)
    requires Sound(s) && !(a.DeployerTurn? && a.d == d)
    ensures Reserves(Apply(s, a).store, p, d, containers) == Reserves(s.store, p, d, containers)
  {
    OthersKeepMine(s, a, p, d);
  }

  /** An edit never re-enters the current round, nor changes what it costs. */
  lemma ClientFunded(s: State, a: Action, d: Key)
    requires AllFunded(s, d) && Prudent(s, a, d) && !(a.DeployerTurn? && a.d == d)
    ensures Funded(Apply(s, a).store, d) && PayableVersions(DeployerVersions(Apply(s, a).store, d))
  {
    var s' := Apply(s, a);
    OthersLeaveDeployer(s, a, d);
    assert Solvent(s, d);
    var now' := DeployerNow(s'.store, d);
    if now'.Some? { OthersKeepFunds(s, a, now'.value.held, d, now'.value.spec.containers); }
  }

  /** The reservations a reconcile in flight relies on stay. */
  lemma OthersKeepSolvent(s: State, a: Action, d: Key, now: Deployer)
    requires AllFunded(s, d) && Prudent(s, a, d) && !(a.DeployerTurn? && a.d == d)
    requires !ThreadOf(s, d).Idle? && DeployerNow(s.store, d) == Some(now)
    ensures Derived(DeployerVersions(s.store, d), ThreadOf(s, d))
    ensures var t, st' := ThreadOf(s, d), Apply(s, a).store;
            var x := DeployerVersions(s.store, d)[t.ver].value;
            && (Working(t) ==> Reserves(st', now.held, d, x.spec.containers))
            && (t.Commit? && IsCurrent(DeployerVersions(s.store, d), t.ver) ==>
                  Reserves(st', t.mem.held, d, x.spec.containers))
  {
    var t, h := ThreadOf(s, d), DeployerVersions(s.store, d);
    assert Derived(h, t) && Solvent(s, d);
    OthersKeepFunds(s, a, now.held, d, h[t.ver].value.spec.containers);
    OthersKeepFunds(s, a, t.mem.held, d, h[t.ver].value.spec.containers);
  }

  /** A client leaves what is held, and never asks for the current round anew under a running reconcile. */
  lemma OthersKeepNow(s: State, a: Action, d: Key)
    requires AllFunded(s, d) && Prudent(s, a, d) && !(a.DeployerTurn? && a.d == d) && !ThreadOf(s, d).Idle?
    requires ThreadOf(s, d).AddFinalizer? || DeployerNow(s.store, d).Some?
    ensures var now, now' := DeployerNow(s.store, d), DeployerNow(Apply(s, a).store, d);
            now.Some? && now'.Some? ==>
              && now'.value.held == now.value.held
              && (Open(now.value) ==> Open(now'.value))
  {
    OthersLeaveDeployer(s, a, d);
  }

  lemma OthersSolvent(s: State, a: Action, d: Key)
    requires AllFunded(s, d) && Prudent(s, a, d) && !(a.DeployerTurn? && a.d == d)
    requires Derived(DeployerVersions(Apply(s, a).store, d), ThreadOf(Apply(s, a), d))
    ensures Solvent(Apply(s, a), d)
  {
    var s', t := Apply(s, a), ThreadOf(s, d);
    var h := DeployerVersions(s.store, d);
    ClientFunded(s, a, d);
    OthersStay(s, a);
    StepGrows(s, a);
    OthersLeaveDeployer(s, a, d);
    assert Derived(h, t) && InStep(s, d) && Solvent(s, d) && h <= DeployerVersions(s'.store, d);
    if !t.Idle? && ThreadOf(s', d) == t && DeployerNow(s.store, d).Some? {
      OthersKeepSolvent(s, a, d, DeployerNow(s.store, d).value);
      OthersKeepNow(s, a, d);
    }
  }

  lemma OthersJobsFunded(s: State, a: Action, d: Key, j: Key)
    requires AllFunded(s, d) && j in Apply(s, a).store.jobs && Apply(s, a).store.jobs[j].owner == d
    requires !(a.DeployerTurn? && a.d == d) && Prudent(s, a, d)
    ensures JobFunded(Apply(s, a).store, j)
  {
    var s' := Apply(s, a);
    OthersLeaveJobs(s, a, d);
    OthersLeaveDeployer(s, a, d);
    assert JobFunded(s.store, j);
    if DeployerNow(s.store, d).Some? { OthersKeepMine(s, a, DeployerNow(s.store, d).value.held, d); }
  }

  /* ---- the deployer's own turn ---- */

  /** What a turn of `d` does to its own entries: only releases take any away. */
  lemma TurnKeepsFunds(s: State, d: Key, ch: Choice, p: string, containers: seq<ContainerSpec>)
    requires Sound(s) && !ThreadOf(s, d).PutRelease?
    ensures Reserves(s.store, p, d, containers) ==> Reserves(Apply(s, DeployerTurn(d, ch)).store, p, d, containers)
  {
    MineStep(s, DeployerTurn(d, ch), p, d);
  }

  /** A reconcile that releases works for the next round or tears down. */
  lemma ReleaseUnfunded(s: State, d: Key, ch: Choice)
    requires AllFunded(s, d) && ThreadOf(s, d).PutRelease? && Attentive(s, DeployerTurn(d, ch), d)
    ensures var s' := Apply(s, DeployerTurn(d, ch));
            var now' := DeployerNow(s'.store, d);
            && s'.store.deployers == s.store.deployers && s'.store.jobs == s.store.jobs
            && (now'.Some? && !now'.value.deleting ==>
                  NoJobsOf(s'.store, d) && Open(now'.value))
  {
    var t := ThreadOf(s, d);
    assert Derived(DeployerVersions(s.store, d), t) && InStep(s, d) && Solvent(s, d);
    KeepsDeployers(s.store, d, t, ch);
    JobsAfter(s.store, d, t, ch);
  }

  /** Where each kind of phase starts. */
  lemma PhaseStarts(h: Versions<Deployer>, d: Key, t: Thread, r: Response)
    requires Derived(h, t) && RunsJobs(h) && !WritesDeployer(t) && !t.Idle?
    requires t.ReadWanted? && r.GotPool? ==> r.pool.free.Some?
    ensures var x, t' := h[t.ver].value, Resume(d, t, r);
            !t'.Idle? ==>
              && t'.ver == t.ver
              && (Working(t') ==> Working(t))
              && (Advancing(x, t') ==> Advancing(x, t))
              && (t'.Commit? ==> t.PutBeg? && r.AckAt? && t'.mem.held == x.spec.resourcePool)
              && (t'.Publish? ==> Tends(x, t'.mem))
  {
  }

  /** A beg that succeeded put the charge of the version it was derived from into the pool. */
  lemma BegFunds(s: State, d: Key, ch: Choice)
    requires AllFunded(s, d) && ThreadOf(s, d).PutBeg? && Lands(s.store, Call(d, ThreadOf(s, d)), ch)
    requires Derived(DeployerVersions(s.store, d), ThreadOf(s, d))
    ensures var x := DeployerVersions(s.store, d)[ThreadOf(s, d).ver].value;
            Reserves(Apply(s, DeployerTurn(d, ch)).store, x.spec.resourcePool, d, x.spec.containers)
  {
    var t, x := ThreadOf(s, d), DeployerVersions(s.store, d)[ThreadOf(s, d).ver].value;
    assert Derives(x, t) && t.mem.spec == x.spec;
    BegLanded(s, d, ch, "");
    EndsWith(Mine(s.store, x.spec.resourcePool, d), UsageEntry(d, Charge(x.spec.containers)));
  }

  lemma EndsWith(entries: seq<UsageEntry>, e: UsageEntry)
    ensures e in entries + [e]
  {
    assert (entries + [e])[|entries|] == e;
  }

  lemma BeginPhases(x: Deployer, ver: nat)
    requires x.spec.kind == JOB
    ensures var t := Begin(x, ver);
            && !t.Commit? && !t.Publish?
            && (Working(t) || Advancing(x, t) ==> !x.deleting)
            && (Working(t) ==> x.spec.round == x.status.currentRound)
            && (Advancing(x, t) ==> x.spec.round != x.status.currentRound)
    ensures var t := Route(x, ver);
            && !t.Commit? && !t.Publish?
            && (Working(t) ==> x.spec.round == x.status.currentRound)
            && (Advancing(x, t) ==> x.spec.round != x.status.currentRound)
  {
  }

  lemma ReadSolvent(s: State, d: Key, ch: Choice)
    requires AllFunded(s, d) && Prudent(s, DeployerTurn(d, ch), d) && ThreadOf(s, d).Idle?
    requires Derived(DeployerVersions(Apply(s, DeployerTurn(d, ch)).store, d),
                     ThreadOf(Apply(s, DeployerTurn(d, ch)), d))
    ensures Solvent(Apply(s, DeployerTurn(d, ch)), d)
  {
    var s', r := Apply(s, DeployerTurn(d, ch)), Answer(s.store, GetDeployer(d), ch);
    assert Solvent(s, d) && RunsJobs(DeployerVersions(s.store, d));
    assert s'.store == s.store;
    CurrentRead(s.store, d, ch);
    if r.GotDeployer? { BeginPhases(r.deployer, r.ver); BeginNotClearing(r.deployer, r.ver); }
  }

  lemma ResumeSolvent(s: State, d: Key, ch: Choice)
    requires AllFunded(s, d) && Prudent(s, DeployerTurn(d, ch), d)
    requires !WritesDeployer(ThreadOf(s, d)) && !ThreadOf(s, d).Idle? && !ThreadOf(s, d).PutRelease?
    requires Derived(DeployerVersions(Apply(s, DeployerTurn(d, ch)).store, d),
                     ThreadOf(Apply(s, DeployerTurn(d, ch)), d))
    ensures Solvent(Apply(s, DeployerTurn(d, ch)), d)
  {
    var t, s' := ThreadOf(s, d), Apply(s, DeployerTurn(d, ch));
    var h, now, r := DeployerVersions(s.store, d), DeployerNow(s.store, d), Answer(s.store, Call(d, t), ch);
    assert Derived(h, t) && RunsJobs(h) && Solvent(s, d);
    KeepsDeployers(s.store, d, t, ch);
    PhaseStarts(h, d, t, r);
    if now.Some? {
      TurnKeepsFunds(s, d, ch, now.value.held, now.value.spec.containers);
      TurnKeepsFunds(s, d, ch, now.value.held, h[t.ver].value.spec.containers);
    }
    if t.PutBeg? && r.AckAt? { BegFunds(s, d, ch); }
  }

  lemma ReleaseSolvent(s: State, d: Key, ch: Choice)
    requires AllFunded(s, d) && Prudent(s, DeployerTurn(d, ch), d) && ThreadOf(s, d).PutRelease?
    requires Derived(DeployerVersions(Apply(s, DeployerTurn(d, ch)).store, d),
                     ThreadOf(Apply(s, DeployerTurn(d, ch)), d))
    ensures Solvent(Apply(s, DeployerTurn(d, ch)), d)
  {
    var t := ThreadOf(s, d);
    assert Derived(DeployerVersions(s.store, d), t) && RunsJobs(DeployerVersions(s.store, d)) && Solvent(s, d);
    ReleaseUnfunded(s, d, ch);
    PhaseStarts(DeployerVersions(s.store, d), d, t, Answer(s.store, Call(d, t), ch));
  }

  /** What the write of a reconcile in its current round, or of a new round, leaves. */
  lemma WrittenFunds(x: Deployer, d: Key, t: Thread)
    requires WritesDeployer(t) && Derives(x, t) && (t.Publish? ==> Tends(x, t.mem))
    ensures var y := Written(x, d, t);
            y.Some? ==>
              && y.value.spec == (if t.AddFinalizer? then Updated(x) else x).spec && y.value.deleting == x.deleting
              && y.value.finalizer == (x.finalizer || t.AddFinalizer?) && (t.AddFinalizer? ==> !x.finalizer)
              && (!t.AddFinalizer? ==> x.finalizer)
              && (if t.Commit? then y.value.held == t.mem.held && y.value.status.currentRound == x.spec.round
                  else y.value.held == x.held && y.value.status.currentRound == x.status.currentRound)
  {
  }

  lemma WriteFunded(s: State, d: Key, ch: Choice)
    requires AllFunded(s, d) && WritesDeployer(ThreadOf(s, d))
    ensures var st' := Apply(s, DeployerTurn(d, ch)).store;
            Funded(st', d) && PayableVersions(DeployerVersions(st', d))
  {
    var t := ThreadOf(s, d);
    var h, h' := DeployerVersions(s.store, d), DeployerVersions(Apply(s, DeployerTurn(d, ch)).store, d);
    assert Derived(h, t) && Solvent(s, d);
    WriteAnswer(s.store, d, t, ch);
    if Lands(s.store, Call(d, t), ch) {
      WrittenFunds(h[t.ver].value, d, t);
      WrittenPayable(h, Written(h[t.ver].value, d, t), ch.quiet);
      LandedFunded(s, d, ch);
    } else {
      MineUnwritten(s, d, ch);
    }
  }

  lemma WrittenPayable(h: Versions<Deployer>, y: Option<Deployer>, quiet: bool)
    requires PayableVersions(h) && (y.Some? ==> Payable(y.value.spec.containers))
    ensures PayableVersions(Put(h, y, quiet))
  {
  }

  lemma LandedFunded(s: State, d: Key, ch: Choice)
    requires AllFunded(s, d) && WritesDeployer(ThreadOf(s, d)) && Lands(s.store, Call(d, ThreadOf(s, d)), ch)
    ensures Funded(Apply(s, DeployerTurn(d, ch)).store, d)
  {
    var t, h := ThreadOf(s, d), DeployerVersions(s.store, d);
    assert Derived(h, t) && Solvent(s, d) && RoundsKept(h);
    WriteAnswer(s.store, d, t, ch);
    WrittenFunds(h[t.ver].value, d, t);
    RoundNonNegative(h, t.ver);
    MineUnwritten(s, d, ch);
  }

  /** Where a deployer write leads, as far as phases go. */
  lemma WriteNext(d: Key, t: Thread, r: Response)
    requires WritesDeployer(t)
    ensures var t' := Resume(d, t, r);
            || t'.Idle?
            || (t.AddFinalizer? && r.AckAt? && t' == Route(Updated(t.mem), r.ver))
            || (t.AnnounceJob? && t' == Lookup(t.mem, if r.AckAt? then r.ver else t.ver))
            || (t.AnnounceSet? && t'.LookupSet?)
  {
  }

  lemma GuardSolvent(s: State, d: Key, ch: Choice)
    requires AllFunded(s, d) && ThreadOf(s, d).AddFinalizer?
    requires Derived(DeployerVersions(Apply(s, DeployerTurn(d, ch)).store, d),
                     ThreadOf(Apply(s, DeployerTurn(d, ch)), d))
    requires Funded(Apply(s, DeployerTurn(d, ch)).store, d)
    requires PayableVersions(DeployerVersions(Apply(s, DeployerTurn(d, ch)).store, d))
    ensures Solvent(Apply(s, DeployerTurn(d, ch)), d)
  {
    var t, r := ThreadOf(s, d), Answer(s.store, Call(d, ThreadOf(s, d)), ch);
    if r.AckAt? {
      WriteAnswer(s.store, d, t, ch);
      BeginPhases(Updated(t.mem), r.ver);
      BeginNotClearing(Updated(t.mem), r.ver);
    }
  }

  /** The announcement, stored or not, leaves the reservation the job relies on. */
  lemma AnnounceReserved(s: State, d: Key, ch: Choice)
    requires AllFunded(s, d) && ThreadOf(s, d).AnnounceJob?
    ensures Derived(DeployerVersions(s.store, d), ThreadOf(s, d))
    ensures var st', x := Apply(s, DeployerTurn(d, ch)).store, DeployerVersions(s.store, d)[ThreadOf(s, d).ver].value;
            DeployerNow(st', d).Some? ==> Reserves(st', DeployerNow(st', d).value.held, d, x.spec.containers)
  {
    var t, h := ThreadOf(s, d), DeployerVersions(s.store, d);
    assert Derived(h, t) && Solvent(s, d);
    WriteAnswer(s.store, d, t, ch);
    MineUnwritten(s, d, ch);
    if Lands(s.store, Call(d, t), ch) {
      WrittenFunds(h[t.ver].value, d, t);
    }
  }

  /** The version the job will be made from has the same containers. */
  lemma AnnounceSource(s: State, d: Key, ch: Choice)
    requires AllFunded(s, d) && ThreadOf(s, d).AnnounceJob?
    ensures Derived(DeployerVersions(s.store, d), ThreadOf(s, d))
    ensures var t, x := ThreadOf(s, d), DeployerVersions(s.store, d)[ThreadOf(s, d).ver].value;
            var h', t' := DeployerVersions(Apply(s, DeployerTurn(d, ch)).store, d),
                          ThreadOf(Apply(s, DeployerTurn(d, ch)), d);
            t'.Lookup? && t'.ver < |h'| && h'[t'.ver].Some? && h'[t'.ver].value.spec.containers == x.spec.containers
  {
    var t, h := ThreadOf(s, d), DeployerVersions(s.store, d);
    assert Derived(h, t) && Solvent(s, d);
    WriteAnswer(s.store, d, t, ch);
    AnnounceNext(d, t, Answer(s.store, Call(d, t), ch));
    if Lands(s.store, Call(d, t), ch) {
      WrittenFunds(h[t.ver].value, d, t);
    }
  }

  lemma AnnounceNext(d: Key, t: Thread, r: Response)
    requires t.AnnounceJob?
    ensures Resume(d, t, r) == Lookup(t.mem, if r.AckAt? then r.ver else t.ver)
  {
  }

  lemma AnnounceSolvent(s: State, d: Key, ch: Choice)
    requires AllFunded(s, d) && ThreadOf(s, d).AnnounceJob?
    requires Derived(DeployerVersions(Apply(s, DeployerTurn(d, ch)).store, d),
                     ThreadOf(Apply(s, DeployerTurn(d, ch)), d))
    requires Funded(Apply(s, DeployerTurn(d, ch)).store, d)
    requires PayableVersions(DeployerVersions(Apply(s, DeployerTurn(d, ch)).store, d))
    ensures Solvent(Apply(s, DeployerTurn(d, ch)), d)
  {
    AnnounceReserved(s, d, ch);
    AnnounceSource(s, d, ch);
  }

  lemma WriteSolvent(s: State, d: Key, ch: Choice)
    requires AllFunded(s, d) && WritesDeployer(ThreadOf(s, d))
    requires Derived(DeployerVersions(Apply(s, DeployerTurn(d, ch)).store, d),
                     ThreadOf(Apply(s, DeployerTurn(d, ch)), d))
    ensures Solvent(Apply(s, DeployerTurn(d, ch)), d)
  {
    var t := ThreadOf(s, d);
    WriteFunded(s, d, ch);
    if t.AddFinalizer? { GuardSolvent(s, d, ch); }
    else if t.AnnounceJob? { AnnounceSolvent(s, d, ch); }
    else { WriteNext(d, t, Answer(s.store, Call(d, t), ch)); }
  }

  lemma MineUnwritten(s: State, d: Key, ch: Choice)
    requires Sound(s) && WritesDeployer(ThreadOf(s, d))
    ensures forall p, e :: Mine(Apply(s, DeployerTurn(d, ch)).store, p, e) == Mine(s.store, p, e)
  {
    LeavesPools(s.store, d, ThreadOf(s, d), ch);
  }

  lemma TurnSolvent(s: State, d: Key, ch: Choice)
    requires AllFunded(s, d) && Prudent(s, DeployerTurn(d, ch), d)
    requires Derived(DeployerVersions(Apply(s, DeployerTurn(d, ch)).store, d),
                     ThreadOf(Apply(s, DeployerTurn(d, ch)), d))
    ensures Solvent(Apply(s, DeployerTurn(d, ch)), d)
  {
    var t := ThreadOf(s, d);
    if t.Idle? { ReadSolvent(s, d, ch); }
    else if WritesDeployer(t) { WriteSolvent(s, d, ch); }
    else if t.PutRelease? { ReleaseSolvent(s, d, ch); }
    else { ResumeSolvent(s, d, ch); }
  }

  lemma WriteJobsFunded(s: State, d: Key, ch: Choice, j: Key)
    requires AllFunded(s, d) && WritesDeployer(ThreadOf(s, d))
    requires j in s.store.jobs && s.store.jobs[j].owner == d
    ensures var st' := Apply(s, DeployerTurn(d, ch)).store; j in st'.jobs && JobFunded(st', j)
  {
    assert JobFunded(s.store, j);
    JobsAfter(s.store, d, ThreadOf(s, d), ch);
    OwnRoundKept(s, d, ch);
    MineUnwritten(s, d, ch);
  }

  lemma NewJobFunded(s: State, d: Key, ch: Choice, j: Key)
    requires AllFunded(s, d) && ThreadOf(s, d).MakeJob?
    requires j !in s.store.jobs && j in Apply(s, DeployerTurn(d, ch)).store.jobs
    ensures JobFunded(Apply(s, DeployerTurn(d, ch)).store, j)
  {
    var a, t := DeployerTurn(d, ch), ThreadOf(s, d);
    var h, now := DeployerVersions(s.store, d), DeployerNow(s.store, d);
    assert Derived(h, t) && InStep(s, d) && Solvent(s, d);
    JobsAfter(s.store, d, t, ch);
    KeepsDeployers(s.store, d, t, ch);
    if now.Some? {
      MineStep(s, a, now.value.held, d);
      ReservesPod(s.store, now.value.held, d, h[t.ver].value.spec.containers);
    }
  }

  lemma KeptJobFunded(s: State, d: Key, ch: Choice, j: Key)
    requires AllFunded(s, d) && !WritesDeployer(ThreadOf(s, d)) && !ThreadOf(s, d).PutRelease?
    requires j in s.store.jobs && s.store.jobs[j].owner == d && j in Apply(s, DeployerTurn(d, ch)).store.jobs
    ensures JobFunded(Apply(s, DeployerTurn(d, ch)).store, j)
  {
    var t, now := ThreadOf(s, d), DeployerNow(s.store, d);
    assert JobFunded(s.store, j);
    JobsAfter(s.store, d, t, ch);
    KeepsDeployers(s.store, d, t, ch);
    if now.Some? { MineStep(s, DeployerTurn(d, ch), now.value.held, d); }
  }

  /** A job is made only with its reservation, and loses it only after it is gone. */
  lemma TurnJobsFunded(s: State, d: Key, ch: Choice, j: Key)
    requires AllFunded(s, d) && Prudent(s, DeployerTurn(d, ch), d)
    requires j in Apply(s, DeployerTurn(d, ch)).store.jobs && Apply(s, DeployerTurn(d, ch)).store.jobs[j].owner == d
    ensures JobFunded(Apply(s, DeployerTurn(d, ch)).store, j)
  {
    var t := ThreadOf(s, d);
    JobsAfter(s.store, d, t, ch);
    if t.PutRelease? { ReleaseUnfunded(s, d, ch); }
    else if WritesDeployer(t) { WriteJobsFunded(s, d, ch, j); }
    else if j in s.store.jobs { KeptJobFunded(s, d, ch, j); }
    else { NewJobFunded(s, d, ch, j); }
  }

  /* ---- every step ---- */

  lemma StepFunded(s: State, a: Action, d: Key)
    requires AllFunded(s, d) && Prudent(s, a, d)
    ensures AllFunded(Apply(s, a), d)
  {
    var s' := Apply(s, a);
    StepSound(s, a);
    StepOneJob(s, a, d);
    if a.DeployerTurn? && a.d == d { TurnSolvent(s, d, a.ch); } else { OthersSolvent(s, a, d); }
    forall j | j in s'.store.jobs && s'.store.jobs[j].owner == d ensures JobFunded(s'.store, j) {
      if a.DeployerTurn? && a.d == d { TurnJobsFunded(s, d, a.ch, j); } else { OthersJobsFunded(s, a, d, j); }
    }
  }

  lemma PrudentPrefix(acts: seq<Action>, d: Key)
    requires PrudentRun(acts, d) && acts != []
    ensures PrudentRun(acts[..|acts| - 1], d)
    ensures Prudent(Exec(acts[..|acts| - 1]), acts[|acts| - 1], d)
  {
    var before := acts[..|acts| - 1];
    forall i | 0 <= i < |before| ensures Prudent(Exec(before[..i]), before[i], d) {
      assert before[..i] == acts[..i] && before[i] == acts[i];
    }
  }

  lemma {:induction false} RunFunded(acts: seq<Action>, d: Key)
    requires PrudentRun(acts, d)
    ensures AllFunded(Exec(acts), d)
    decreases |acts|
  {
    if acts != [] {
      PrudentPrefix(acts, d);
      RunFunded(acts[..|acts| - 1], d);
      StepFunded(Exec(acts[..|acts| - 1]), acts[|acts| - 1], d);
    }
  }

  /** No job without a reservation: every live job of a stored deployer that is not being deleted has an
      entry of that deployer, of exactly the job's limits, in the pool the stored status names. Nothing is
      asked of other deployers. */
  lemma {:induction false} NoJobWithoutReservation(acts: seq<Action>, d: Key, j: Key)
    requires PrudentRun(acts, d) && j in Exec(acts).store.jobs && Exec(acts).store.jobs[j].owner == d
    requires DeployerNow(Exec(acts).store, d).Some? && !DeployerNow(Exec(acts).store, d).value.deleting
    ensures var st := Exec(acts).store; var p := DeployerNow(st, d).value.held;
            PoolNow(st, p).Some? && Backs(Mine(st, p, d), st.jobs[j])
  {
    RunFunded(acts, d);
    assert JobFunded(Exec(acts).store, j);
  }
}
