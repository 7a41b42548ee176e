/** Exactly when the guarantees about a deployer's jobs hold, with no assumption on reads, edits or other
    deployers: step by step, what its reconciles may write and make. */
module ExactJobs {
  import opened Objects
  import opened Pods
  import opened Api
  import opened DeployerThread
  import opened Cluster
  import opened Refinement
  import opened Leakage
  import opened DeployerRounds
  import opened OneJob
  import opened Reservations
  import opened Runs

  /* ---- what a turn does to its own deployer and jobs ---- */

  /** The status write under way lands. */
  predicate Stores(s: State, d: Key, ch: Choice) {
    SavesStatus(ThreadOf(s, d)) && Lands(s.store, Call(d, ThreadOf(s, d)), ch)
  }

  predicate SavesStatus(t: Thread) {
    t.Park? || t.Commit? || t.AnnounceJob? || t.AnnounceSet? || t.Publish?
  }

  /** A job is made. */
  predicate Makes(s: State, d: Key, ch: Choice) {
    ThreadOf(s, d).MakeJob? && !ch.fate.Refused? && JobKey(d, ThreadOf(s, d).mem) !in s.store.jobs
  }

  /** A release lands in the pool the stored deployer names. */
  predicate GivesBack(s: State, d: Key, ch: Choice) {
    && ThreadOf(s, d).PutRelease? && Lands(s.store, Call(d, ThreadOf(s, d)), ch)
    && DeployerNow(s.store, d).Some? && DeployerNow(s.store, d).value.held == ThreadOf(s, d).mem.held
  }

  /** A landing status write stores exactly the status and the pool in memory; otherwise a turn leaves both as
      they were, or the deployer is gone. */
  lemma TurnStores(s: State, d: Key, ch: Choice)
    ensures var t := ThreadOf(s, d);
            var now, now' := DeployerNow(s.store, d), DeployerNow(Apply(s, DeployerTurn(d, ch)).store, d);
            if Stores(s, d, ch) then
              && now.Some?
              && now' == Some(now.value.(status := t.mem.status, held := t.mem.held))
            else
              if now'.Some? then
                && now.Some? && now'.value.status == now.value.status && now'.value.held == now.value.held
                && now'.value.deleting == now.value.deleting
              else now.Some? ==> now.value.deleting
  {
    var t := ThreadOf(s, d);
    CallKinds(d, t);
    if WritesDeployer(t) {
      WriteAnswer(s.store, d, t, ch);
    } else {
      KeepsDeployers(s.store, d, t, ch);
    }
  }

  /* ---- the stored round ---- */

  /** All live jobs of the stored deployer are of its stored round. */
  predicate InRound(s: State, d: Key) {
    var now := DeployerNow(s.store, d);
    now.Some? ==> forall j | j in s.store.jobs && s.store.jobs[j].owner == d ::
                    s.store.jobs[j].round == now.value.status.currentRound
  }

  /** What a caller would have to check: another round is stored only while there are no jobs, a job is made
      only in the stored round, and a name is reused only if no job of a later round is left under it. */
  predicate Clean(s: State, a: Action, d: Key) {
    var now := DeployerNow(s.store, d);
    match a
    case DeployerTurn(e, ch) =>
      var t := ThreadOf(s, d);
      e == d && now.Some? ==>
        && (Stores(s, d, ch) && t.mem.status.currentRound != now.value.status.currentRound ==> NoJobsOf(s.store, d))
        && (Makes(s, d, ch) ==> t.mem.status.currentRound == now.value.status.currentRound)
    case CreateDeployer(e, _) =>
      e == d && now.None? ==> forall j | j in s.store.jobs && s.store.jobs[j].owner == d :: s.store.jobs[j].round == 0
    case _ => true
  }

  lemma TurnInRoundIff(s: State, d: Key, ch: Choice)
    requires InRound(s, d)
    ensures InRound(Apply(s, DeployerTurn(d, ch)), d) <==> Clean(s, DeployerTurn(d, ch), d)
  {
    var t, s' := ThreadOf(s, d), Apply(s, DeployerTurn(d, ch));
    TurnStores(s, d, ch);
    JobsAfter(s.store, d, t, ch);
    if Makes(s, d, ch) {
      assert s'.store.jobs[JobKey(d, t.mem)] == NewJob(d, t.mem);
    }
    if Stores(s, d, ch) {
      assert s'.store.jobs == s.store.jobs;
    }
  }

  lemma OthersInRoundIff(s: State, a: Action, d: Key)
    requires InRound(s, d) && !(a.DeployerTurn? && a.d == d)
    ensures InRound(Apply(s, a), d) <==> Clean(s, a, d)
  {
    OthersLeaveDeployer(s, a, d);
    OthersLeaveJobs(s, a, d);
    if a.CreateDeployer? && a.d == d && DeployerNow(s.store, d).None? {
      assert DeployerNow(Apply(s, a).store, d) == Some(NewDeployer(a.spec));
    }
  }

  /** Every action of the run is clean. */
  ghost predicate CleanRun(acts: seq<Action>, d: Key) {
    Each(acts, (s, a) => Clean(s, a, d))
  }

  /** All live jobs are of the stored round at every moment of the run. */
  ghost predicate AlwaysInRound(acts: seq<Action>, d: Key) {
    Always(acts, s => InRound(s, d))
  }

  /** At every moment of a run all live jobs of a deployer are of its stored round, so that there is at most
      one, if and only if every action of the run is clean. */
  lemma {:induction false} JobsInRoundIff(acts: seq<Action>, d: Key)
    ensures AlwaysInRound(acts, d) <==> CleanRun(acts, d)
  {
    var p, q := (s: State) => InRound(s, d), (s: State, a: Action) => Clean(s, a, d);
    forall i: nat | i < |acts| ensures Decides(acts, p, q, i) {
      PrefixStep(acts, i);
      var s, a := Exec(acts[..i]), acts[i];
      if InRound(s, d) {
        if a.DeployerTurn? && a.d == d { TurnInRoundIff(s, d, a.ch); } else { OthersInRoundIff(s, a, d); }
      }
    }
    StepwiseIff(acts, p, q);
  }

  /** In a clean run a stored deployer has one live job at most. */
  lemma {:induction false} CleanOneJob(acts: seq<Action>, d: Key, j: Key, k: Key)
    requires CleanRun(acts, d) && DeployerNow(Exec(acts).store, d).Some?
    requires j in Exec(acts).store.jobs && Exec(acts).store.jobs[j].owner == d
    requires k in Exec(acts).store.jobs && Exec(acts).store.jobs[k].owner == d
    ensures j == k
  {
    JobsInRoundIff(acts, d);
    assert acts[..|acts|] == acts;
    assert HoldsAt(acts, s => InRound(s, d), |acts|);
    RunNamed(acts, j);
    RunNamed(acts, k);
  }

  /** Attentive treatment of a deployer makes a run clean. */
  lemma {:induction false} AttentiveIsClean(acts: seq<Action>, d: Key)
    requires AttentiveRun(acts, d)
    ensures CleanRun(acts, d)
  {
    var p := (s: State) => InRound(s, d);
    forall i: nat | i <= |acts| ensures HoldsAt(acts, p, i) {
      forall k | 0 <= k < i ensures Attentive(Exec(acts[..i][..k]), acts[..i][k], d) {
        assert acts[..i][..k] == acts[..k];
      }
      RunOneJob(acts[..i], d);
      StepInRound(Exec(acts[..i]), d);
    }
    JobsInRoundIff(acts, d);
  }

  lemma StepInRound(s: State, d: Key)
    requires OneJobOf(s, d)
    ensures InRound(s, d)
  {
    forall j | j in s.store.jobs && s.store.jobs[j].owner == d ensures JobInStep(s, j) {}
  }

  /* ---- reservations ---- */

  /** Each live job of the stored deployer, unless that is being deleted, is backed in the pool it names. */
  predicate JobsFunded(s: State, d: Key) {
    var now := DeployerNow(s.store, d);
    now.Some? && !now.value.deleting ==>
      forall j | j in s.store.jobs && s.store.jobs[j].owner == d ::
        Backs(Mine(s.store, now.value.held, d), s.store.jobs[j])
  }

  /** All live jobs are backed by these entries. */
  predicate BackAll(s: State, d: Key, entries: seq<UsageEntry>) {
    forall j | j in s.store.jobs && s.store.jobs[j].owner == d :: Backs(entries, s.store.jobs[j])
  }

  /** What a caller would have to check, unless the deployer is being deleted: a job is made only with its
      limits reserved in the stored pool; a release in that pool leaves an entry for each live job besides
      the oldest, which it takes; a status write that moves to another pool finds each of them backed there;
      and a name is reused only when no job is left under it. */
  predicate Sparing(s: State, a: Action, d: Key) {
    var now := DeployerNow(s.store, d);
    match a
    case DeployerTurn(e, ch) =>
      var t := ThreadOf(s, d);
      e == d && now.Some? && !now.value.deleting ==>
        && (Makes(s, d, ch) ==> Backs(Mine(s.store, now.value.held, d), NewJob(d, t.mem)))
        && (GivesBack(s, d, ch) ==> BackAll(s, d, Rest(Mine(s.store, now.value.held, d))))
        && (Stores(s, d, ch) ==> BackAll(s, d, Mine(s.store, t.mem.held, d)))
    case CreateDeployer(e, _) => e == d && now.None? ==> NoJobsOf(s.store, d)
    case _ => true
  }

  function Rest(entries: seq<UsageEntry>): seq<UsageEntry> {
    if entries == [] then [] else entries[1..]
  }

  /** What a turn does to its own entries in a pool that the stored deployer or the status in memory names. */
  lemma TurnEntries(s: State, d: Key, ch: Choice, p: string)
    requires Sound(s)
    ensures var t := ThreadOf(s, d);
            var before, after := Mine(s.store, p, d), Mine(Apply(s, DeployerTurn(d, ch)).store, p, d);
            if t.PutRelease? && Lands(s.store, Call(d, t), ch) && t.mem.held == p then after == Rest(before)
            else if t.PutBeg? && Lands(s.store, Call(d, t), ch) then before <= after
            else after == before
  {
    MineStep(s, DeployerTurn(d, ch), p, d);
  }

  lemma MoreBacks(before: seq<UsageEntry>, after: seq<UsageEntry>, job: Job)
    requires before <= after && Backs(before, job)
    ensures Backs(after, job)
  {
    var e :| e in before && e.amount.cpu == PodLimit(job.pod, Cpu) && e.amount.memory == PodLimit(job.pod, Memory);
    assert e in after;
  }

  lemma MakeFundedIff(s: State, d: Key, ch: Choice)
    requires Sound(s) && JobsFunded(s, d) && Makes(s, d, ch)
    ensures JobsFunded(Apply(s, DeployerTurn(d, ch)), d) <==> Sparing(s, DeployerTurn(d, ch), d)
  {
    var t, s', now := ThreadOf(s, d), Apply(s, DeployerTurn(d, ch)), DeployerNow(s.store, d);
    TurnStores(s, d, ch);
    JobsAfter(s.store, d, t, ch);
    if now.Some? {
      TurnEntries(s, d, ch, now.value.held);
      assert s'.store.jobs[JobKey(d, t.mem)] == NewJob(d, t.mem);
    }
  }

  lemma StoreFundedIff(s: State, d: Key, ch: Choice)
    requires Sound(s) && Stores(s, d, ch)
    ensures JobsFunded(Apply(s, DeployerTurn(d, ch)), d) <==> Sparing(s, DeployerTurn(d, ch), d)
  {
    var t := ThreadOf(s, d);
    TurnStores(s, d, ch);
    JobsAfter(s.store, d, t, ch);
    TurnEntries(s, d, ch, t.mem.held);
  }

  lemma ReleaseFundedIff(s: State, d: Key, ch: Choice)
    requires Sound(s) && GivesBack(s, d, ch)
    ensures JobsFunded(Apply(s, DeployerTurn(d, ch)), d) <==> Sparing(s, DeployerTurn(d, ch), d)
  {
    var t := ThreadOf(s, d);
    TurnStores(s, d, ch);
    KeepsDeployers(s.store, d, t, ch);
    JobsAfter(s.store, d, t, ch);
    TurnEntries(s, d, ch, t.mem.held);
  }

  /** Any other turn leaves the jobs backed. */
  lemma RestStaysFunded(s: State, d: Key, ch: Choice)
    requires Sound(s) && JobsFunded(s, d) && !Makes(s, d, ch) && !Stores(s, d, ch) && !GivesBack(s, d, ch)
    ensures JobsFunded(Apply(s, DeployerTurn(d, ch)), d)
  {
    var t, s' := ThreadOf(s, d), Apply(s, DeployerTurn(d, ch));
    var now' := DeployerNow(s'.store, d);
    TurnStores(s, d, ch);
    JobsAfter(s.store, d, t, ch);
    if now'.Some? && !now'.value.deleting {
      var p := now'.value.held;
      TurnEntries(s, d, ch, p);
      forall j | j in s'.store.jobs && s'.store.jobs[j].owner == d
        ensures Backs(Mine(s'.store, p, d), s'.store.jobs[j])
      {
        MoreBacks(Mine(s.store, p, d), Mine(s'.store, p, d), s.store.jobs[j]);
      }
    }
  }

  lemma TurnFundedIff(s: State, d: Key, ch: Choice)
    requires Sound(s) && JobsFunded(s, d)
    ensures JobsFunded(Apply(s, DeployerTurn(d, ch)), d) <==> Sparing(s, DeployerTurn(d, ch), d)
  {
    if Makes(s, d, ch) { MakeFundedIff(s, d, ch); }
    else if Stores(s, d, ch) { StoreFundedIff(s, d, ch); }
    else if GivesBack(s, d, ch) { ReleaseFundedIff(s, d, ch); }
    else { RestStaysFunded(s, d, ch); }
  }

  lemma OthersFundedIff(s: State, a: Action, d: Key)
    requires Sound(s) && JobsFunded(s, d) && PoolNow(s.store, "").None? && !(a.DeployerTurn? && a.d == d)
    ensures JobsFunded(Apply(s, a), d) <==> Sparing(s, a, d)
  {
    var s', now := Apply(s, a), DeployerNow(s.store, d);
    OthersLeaveDeployer(s, a, d);
    OthersLeaveJobs(s, a, d);
    if now.Some? {
      OthersKeepMine(s, a, now.value.held, d);
    } else if a.CreateDeployer? && a.d == d {
      OthersKeepMine(s, a, "", d);
      assert DeployerNow(s'.store, d) == Some(NewDeployer(a.spec)) && s'.store.jobs == s.store.jobs;
    }
  }

  /** Every action of the run is sparing. */
  ghost predicate SparingRun(acts: seq<Action>, d: Key) {
    Each(acts, (s, a) => Sparing(s, a, d))
  }

  /** Each live job is backed at every moment of the run. */
  ghost predicate AlwaysFunded(acts: seq<Action>, d: Key) {
    Always(acts, s => JobsFunded(s, d))
  }

  /** At every moment of a run each live job of a deployer that is not being deleted has an entry of its
      limits in the pool the stored status names, if and only if every action of the run is sparing. */
  lemma {:induction false} JobsFundedIff(acts: seq<Action>, d: Key)
    ensures AlwaysFunded(acts, d) <==> SparingRun(acts, d)
  {
    var p, q := (s: State) => JobsFunded(s, d), (s: State, a: Action) => Sparing(s, a, d);
    forall i: nat | i < |acts| ensures Decides(acts, p, q, i) {
      PrefixStep(acts, i);
      RunSound(acts[..i]);
      RunLeak(acts[..i], d);
      StepFundedIff(Exec(acts[..i]), acts[i], d);
    }
    StepwiseIff(acts, p, q);
  }

  lemma StepFundedIff(s: State, a: Action, d: Key)
    requires Sound(s) && PoolNow(s.store, "").None?
    ensures JobsFunded(s, d) ==> (JobsFunded(Apply(s, a), d) <==> Sparing(s, a, d))
  {
    if JobsFunded(s, d) {
      if a.DeployerTurn? && a.d == d { TurnFundedIff(s, d, a.ch); } else { OthersFundedIff(s, a, d); }
    }
  }

  /** Prudent treatment of a deployer makes a run sparing. */
  lemma {:induction false} PrudentIsSparing(acts: seq<Action>, d: Key)
    requires PrudentRun(acts, d)
    ensures SparingRun(acts, d)
  {
    var p := (s: State) => JobsFunded(s, d);
    forall i: nat | i <= |acts| ensures HoldsAt(acts, p, i) {
      forall k | 0 <= k < i ensures Prudent(Exec(acts[..i][..k]), acts[..i][k], d) {
        assert acts[..i][..k] == acts[..k];
      }
      RunFunded(acts[..i], d);
      FundedJobs(Exec(acts[..i]), d);
    }
    JobsFundedIff(acts, d);
  }

  lemma FundedJobs(s: State, d: Key)
    requires AllFunded(s, d)
    ensures JobsFunded(s, d)
  {
    forall j | j in s.store.jobs && s.store.jobs[j].owner == d ensures JobFunded(s.store, j) {}
  }
}
