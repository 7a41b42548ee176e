/** At most one live job: under current reads, every live job of a deployer is the one named for its
    stored round, after any step and any partial failure. */
module OneJob {
  import opened Objects
  import opened Rounds
  import opened Lives
  import opened Names
  import opened Api
  import opened DeployerThread
  import opened Cluster
  import opened Refinement
  import opened DeployerRounds

  predicate NoJobsOf(st: Store, d: Key) {
    forall j | j in st.jobs :: st.jobs[j].owner != d
  }

  /** What is asked of one deployer, and of no other: it runs jobs, and its name is reused only once its old
      jobs and reconciles are gone; its reconciles read its latest version, and a cleanup of its does not
      miss the old job if it is there. */
  predicate Attentive(s: State, a: Action, d: Key) {
    match a
    case DeployerTurn(e, ch) =>
      e == d ==>
        && (ThreadOf(s, d).Idle? ==> ch.index + 1 >= |DeployerVersions(s.store, d)|)
        && (ThreadOf(s, d).FindOldJob? && !ch.seen ==> JobKey(d, ThreadOf(s, d).mem) !in s.store.jobs)
    case CreateDeployer(e, spec) =>
      e == d ==> spec.kind == JOB && NoJobsOf(s.store, d) && ThreadOf(s, d).Idle?
    case EditDeployer(e, spec, _) => e == d ==> spec.kind == JOB
    case _ => true
  }

  ghost predicate AttentiveRun(acts: seq<Action>, d: Key) {
    forall i | 0 <= i < |acts| :: Attentive(Exec(acts[..i]), acts[i], d)
  }

  predicate RunsJobs(h: Versions<Deployer>) {
    forall i | 0 <= i < |h| && h[i].Some? :: h[i].value.spec.kind == JOB
  }

  /** The old job is gone and the new round is not stored yet. */
  predicate Clearing(x: Deployer, t: Thread) {
    || (t.ReadHeld? && t.goal.NextRound?) || (t.PutRelease? && t.goal.NextRound?)
    || t.ReadWanted? || t.PutBeg? || t.Commit?
    || (t.Publish? && t.mem.status.currentRound != x.status.currentRound)
  }

  /** The stored deployer, if it is still there, has not moved under the reconcile, but for its spec and its
      finalizer. */
  predicate Abreast(now: Option<Deployer>, x: Deployer) {
    now.Some? ==>
      && (x.deleting ==> now.value.deleting)
      && SameRound(x.status, now.value.status) && x.held == now.value.held
  }

  predicate InStep(s: State, d: Key)
    requires Derived(DeployerVersions(s.store, d), ThreadOf(s, d))
  {
    var t := ThreadOf(s, d);
    t.Idle? || t.AddFinalizer? ||
    (var x := DeployerVersions(s.store, d)[t.ver].value;
     && Abreast(DeployerNow(s.store, d), x)
     && (Clearing(x, t) && DeployerNow(s.store, d).Some? ==> NoJobsOf(s.store, d)))
  }

  predicate Named(j: Key, job: Job) {
    job.round >= 0 && j == SubKey(job.owner, job.round)
  }

  predicate JobInStep(s: State, j: Key)
    requires j in s.store.jobs
  {
    var job := s.store.jobs[j];
    && Named(j, job)
    && (DeployerNow(s.store, job.owner).Some? ==>
          job.round == DeployerNow(s.store, job.owner).value.status.currentRound)
  }

  ghost predicate OneJobOf(s: State, d: Key) {
    && Orderly(s)
    && Derived(DeployerVersions(s.store, d), ThreadOf(s, d))
    && InStep(s, d) && RunsJobs(DeployerVersions(s.store, d))
    && (forall j | j in s.store.jobs && s.store.jobs[j].owner == d :: JobInStep(s, j))
  }

  lemma {:induction false} RoundNonNegative(h: Versions<Deployer>, i: nat)
    requires RoundsKept(h) && i < |h| && h[i].Some?
    ensures h[i].value.status.currentRound >= 0
  {
    assert GoodVersion(h, BaseOf, false, i);
    if i > 0 && h[i - 1].Some? {
      RoundNonNegative(h, i - 1);
    }
  }

  /** All live jobs of a stored deployer have one name. */
  lemma OwnJobs(s: State, d: Key, j: Key)
    requires OneJobOf(s, d) && j in s.store.jobs && s.store.jobs[j].owner == d && DeployerNow(s.store, d).Some?
    ensures j == SubKey(d, DeployerNow(s.store, d).value.status.currentRound)
  {
    assert JobInStep(s, j);
  }

  /* ---- the deployer's own turn ---- */

  /** Where clearing starts: right after the old job was looked for or deleted. */
  lemma ClearingStarts(h: Versions<Deployer>, d: Key, t: Thread, r: Response)
    requires Derived(h, t) && RunsJobs(h) && !WritesDeployer(t) && !t.Idle?
    ensures var x, t' := h[t.ver].value, Resume(d, t, r);
            !t'.Idle? ==>
              && t'.ver == t.ver && !t'.AddFinalizer?
              && (Clearing(x, t') ==>
                    Clearing(x, t) || (t.FindOldJob? && r == Exists(false)) || (t.DropOldJob? && r.Ack?))
  {
  }

  lemma BeginNotClearing(x: Deployer, ver: nat)
    requires x.spec.kind == JOB
    ensures !Clearing(x, Begin(x, ver)) && !Clearing(x, Route(x, ver))
    ensures !Begin(x, ver).Idle? ==> Begin(x, ver).ver == ver
    ensures !Route(x, ver).Idle? ==> Route(x, ver).ver == ver && !Route(x, ver).AddFinalizer?
    ensures !Begin(x, ver).Idle? && !Begin(x, ver).AddFinalizer? ==> x.finalizer
  {
  }

  lemma CurrentRead(st: Store, d: Key, ch: Choice)
    requires ch.index + 1 >= |DeployerVersions(st, d)|
    ensures var r := Answer(st, GetDeployer(d), ch);
            r.GotDeployer? ==> r.ver + 1 == |DeployerVersions(st, d)| && DeployerNow(st, d) == Some(r.deployer)
  {
  }

  /** The requests that create or delete a job, and the rest. */
  lemma JobsAfter(st: Store, d: Key, t: Thread, ch: Choice)
    ensures var st' := After(st, Call(d, t), ch);
            if t.DropOldJob? && !ch.fate.Refused? then st'.jobs == st.jobs - {JobKey(d, t.mem)}
            else if t.MakeJob? && !ch.fate.Refused? && JobKey(d, t.mem) !in st.jobs then
              st'.jobs == st.jobs[JobKey(d, t.mem) := NewJob(d, t.mem)]
            else st'.jobs == st.jobs
  {
    CallKinds(d, t);
    AfterFrame(st, Call(d, t), ch);
  }

  /** Looking for the old job, or deleting it, leaves none. */
  lemma Cleared(s: State, d: Key, ch: Choice)
    requires OneJobOf(s, d) && Attentive(s, DeployerTurn(d, ch), d)
    requires var t := ThreadOf(s, d); var r := Answer(s.store, Call(d, t), ch);
             (t.FindOldJob? && r == Exists(false)) || (t.DropOldJob? && r.Ack?)
    requires DeployerNow(s.store, d).Some?
    ensures NoJobsOf(Apply(s, DeployerTurn(d, ch)).store, d)
  {
    var t, st' := ThreadOf(s, d), Apply(s, DeployerTurn(d, ch)).store;
    assert InStep(s, d);
    JobsAfter(s.store, d, t, ch);
    forall j | j in st'.jobs ensures st'.jobs[j].owner != d {
      if s.store.jobs[j].owner == d {
        OwnJobs(s, d, j);
      }
    }
  }

  /** A turn that writes no deployer stays in step. */
  lemma ResumeInStep(s: State, d: Key, ch: Choice)
    requires OneJobOf(s, d) && Attentive(s, DeployerTurn(d, ch), d) && !WritesDeployer(ThreadOf(s, d))
    ensures var s' := Apply(s, DeployerTurn(d, ch));
            && s'.store.deployers == s.store.deployers
            && Derived(DeployerVersions(s'.store, d), ThreadOf(s', d)) && InStep(s', d)
  {
    var t, s' := ThreadOf(s, d), Apply(s, DeployerTurn(d, ch));
    var r := Answer(s.store, Call(d, t), ch);
    var h := DeployerVersions(s.store, d);
    assert Derived(h, t) && RoundsKept(h) && InStep(s, d) && RunsJobs(h);
    TurnOrderly(s, d, ch);
    KeepsDeployers(s.store, d, t, ch);
    if t.Idle? {
      CurrentRead(s.store, d, ch);
      if r.GotDeployer? { BeginNotClearing(r.deployer, r.ver); }
    } else {
      ClearingStarts(h, d, t, r);
      JobsAfter(s.store, d, t, ch);
      var t' := ThreadOf(s', d);
      if !t'.Idle? && Clearing(h[t.ver].value, t') && !Clearing(h[t.ver].value, t) && DeployerNow(s.store, d).Some? {
        Cleared(s, d, ch);
      }
    }
  }

  /** What a deployer write leaves when it is accepted. */
  lemma WriteAbreast(x: Deployer, d: Key, t: Thread)
    requires WritesDeployer(t) && Derives(x, t) && !t.DropFinalizer?
    ensures var y := Written(x, d, t);
            && y.Some? && y.value.finalizer == (x.finalizer || t.AddFinalizer?) && y.value.deleting == x.deleting
            && y.value.spec == (if t.AddFinalizer? then Updated(x) else x).spec
            && (!Clearing(x, t) ==> SameRound(x.status, y.value.status) && x.held == y.value.held)
  {
  }

  /** Where a write other than the finalizer's leads. */
  lemma SaveNext(d: Key, t: Thread, r: Response)
    requires WritesDeployer(t) && !t.AddFinalizer?
    ensures var t' := Resume(d, t, r);
            t'.Idle? || ((t'.Lookup? || t'.LookupSet?) && t'.ver == if r.AckAt? then r.ver else t.ver)
  {
  }

  lemma SaveInStep(s: State, d: Key, ch: Choice)
    requires OneJobOf(s, d) && WritesDeployer(ThreadOf(s, d)) && !ThreadOf(s, d).AddFinalizer?
    requires Derived(DeployerVersions(Apply(s, DeployerTurn(d, ch)).store, d),
                     ThreadOf(Apply(s, DeployerTurn(d, ch)), d))
    ensures InStep(Apply(s, DeployerTurn(d, ch)), d)
  {
    var t, h := ThreadOf(s, d), DeployerVersions(s.store, d);
    assert Derived(h, t) && InStep(s, d);
    SaveNext(d, t, Answer(s.store, Call(d, t), ch));
    WriteAnswer(s.store, d, t, ch);
    if !t.DropFinalizer? { WriteAbreast(h[t.ver].value, d, t); }
  }

  lemma GuardInStep(s: State, d: Key, ch: Choice)
    requires OneJobOf(s, d) && ThreadOf(s, d).AddFinalizer?
    requires Derived(DeployerVersions(Apply(s, DeployerTurn(d, ch)).store, d),
                     ThreadOf(Apply(s, DeployerTurn(d, ch)), d))
    ensures InStep(Apply(s, DeployerTurn(d, ch)), d)
  {
    var t, h := ThreadOf(s, d), DeployerVersions(s.store, d);
    var r := Answer(s.store, Call(d, t), ch);
    assert Derived(h, t) && RunsJobs(h);
    WriteAnswer(s.store, d, t, ch);
    WriteAbreast(h[t.ver].value, d, t);
    if r.AckAt? { BeginNotClearing(Updated(t.mem), r.ver); }
  }

  lemma WriteInStep(s: State, d: Key, ch: Choice)
    requires OneJobOf(s, d) && WritesDeployer(ThreadOf(s, d))
    ensures var s' := Apply(s, DeployerTurn(d, ch));
            Derived(DeployerVersions(s'.store, d), ThreadOf(s', d)) && InStep(s', d)
  {
    assert Derived(DeployerVersions(s.store, d), ThreadOf(s, d)) && RoundsKept(DeployerVersions(s.store, d));
    TurnOrderly(s, d, ch);
    if ThreadOf(s, d).AddFinalizer? { GuardInStep(s, d, ch); } else { SaveInStep(s, d, ch); }
  }

  /** A turn that stores another round, or another pool, finds no job of the deployer's. */
  lemma OwnRoundKept(s: State, d: Key, ch: Choice)
    requires OneJobOf(s, d) && !NoJobsOf(s.store, d)
    ensures var now, now' := DeployerNow(s.store, d), DeployerNow(Apply(s, DeployerTurn(d, ch)).store, d);
            now'.Some? ==>
              && now.Some? && now'.value.status.currentRound == now.value.status.currentRound
              && now'.value.held == now.value.held && now'.value.deleting == now.value.deleting
  {
    var t, h := ThreadOf(s, d), DeployerVersions(s.store, d);
    assert Derived(h, t) && InStep(s, d);
    if WritesDeployer(t) {
      WriteAnswer(s.store, d, t, ch);
      if !t.DropFinalizer? { WriteAbreast(h[t.ver].value, d, t); }
    } else {
      KeepsDeployers(s.store, d, t, ch);
    }
  }

  lemma NewJobInStep(s: State, d: Key, ch: Choice, j: Key)
    requires OneJobOf(s, d) && j in Apply(s, DeployerTurn(d, ch)).store.jobs && j !in s.store.jobs
    ensures JobInStep(Apply(s, DeployerTurn(d, ch)), j)
  {
    var t, h := ThreadOf(s, d), DeployerVersions(s.store, d);
    assert Derived(h, t) && RoundsKept(h) && InStep(s, d);
    JobsAfter(s.store, d, t, ch);
    KeepsDeployers(s.store, d, t, ch);
    RoundNonNegative(h, t.ver);
  }

  /** Jobs stay named for the stored round: the round moves only when none are left. */
  lemma TurnJobsInStep(s: State, d: Key, ch: Choice, j: Key)
    requires OneJobOf(s, d) && j in Apply(s, DeployerTurn(d, ch)).store.jobs
    requires Apply(s, DeployerTurn(d, ch)).store.jobs[j].owner == d
    ensures JobInStep(Apply(s, DeployerTurn(d, ch)), j)
  {
    if j !in s.store.jobs {
      NewJobInStep(s, d, ch, j);
    } else {
      JobsAfter(s.store, d, ThreadOf(s, d), ch);
      assert JobInStep(s, j);
      OwnRoundKept(s, d, ch);
    }
  }

  /* ---- everyone else's turns ---- */

  lemma OthersLeaveDeployer(s: State, a: Action, d: Key)
    requires !(a.DeployerTurn? && a.d == d)
    ensures var h, h' := DeployerVersions(s.store, d), DeployerVersions(Apply(s, a).store, d);
            h' == h || ((a.CreateDeployer? || a.EditDeployer? || a.DeleteDeployer?) && a.d == d)
  {
    if a.DeployerTurn? { OtherDeployerUntouched(s.store, a.d, ThreadOf(s, a.d), a.ch, d); }
    else if a.PoolTurn? { PoolTurnFrame(s.store, a.p, KeeperOf(s, a.p), a.ch); }
  }

  lemma OthersLeaveJobs(s: State, a: Action, d: Key)
    requires !(a.DeployerTurn? && a.d == d)
    ensures var st, st' := s.store, Apply(s, a).store;
            NoJobsOf(st, d) ==> NoJobsOf(st', d)
    ensures forall j | j in Apply(s, a).store.jobs && Apply(s, a).store.jobs[j].owner == d ::
              j in s.store.jobs && s.store.jobs[j] == Apply(s, a).store.jobs[j]
  {
    if a.DeployerTurn? { JobsAfter(s.store, a.d, ThreadOf(s, a.d), a.ch); }
    else if a.PoolTurn? { PoolTurnFrame(s.store, a.p, KeeperOf(s, a.p), a.ch); }
  }

  /** What a client may do to a deployer whose reconcile runs. */
  lemma ClientAbreast(s: State, a: Action, d: Key, x: Deployer)
    requires !(a.DeployerTurn? && a.d == d) && Attentive(s, a, d) && !ThreadOf(s, d).Idle?
    requires Abreast(DeployerNow(s.store, d), x)
    ensures Abreast(DeployerNow(Apply(s, a).store, d), x)
    ensures DeployerNow(Apply(s, a).store, d).Some? ==> DeployerNow(s.store, d).Some?
  {
    OthersLeaveDeployer(s, a, d);
  }

  lemma OthersInStep(s: State, a: Action, d: Key)
    requires OneJobOf(s, d) && Attentive(s, a, d) && !(a.DeployerTurn? && a.d == d)
    requires Derived(DeployerVersions(Apply(s, a).store, d), ThreadOf(Apply(s, a), d))
    ensures InStep(Apply(s, a), d)
  {
    var s', t := Apply(s, a), ThreadOf(s, d);
    var h := DeployerVersions(s.store, d);
    OthersStay(s, a);
    StepGrows(s, a);
    assert Derived(h, t) && InStep(s, d) && h <= DeployerVersions(s'.store, d);
    OthersLeaveJobs(s, a, d);
    if !t.Idle? && !t.AddFinalizer? && ThreadOf(s', d) == t {
      ClientAbreast(s, a, d, h[t.ver].value);
    }
  }

  /** No client changes a stored round; one that creates a deployer finds no jobs under its name. */
  lemma ClientRound(s: State, a: Action, d: Key)
    requires Attentive(s, a, d) && !(a.DeployerTurn? && a.d == d) && !NoJobsOf(s.store, d)
    ensures var now, now' := DeployerNow(s.store, d), DeployerNow(Apply(s, a).store, d);
            now'.Some? ==> now.Some? && now'.value.status == now.value.status
  {
    OthersLeaveDeployer(s, a, d);
  }

  lemma OthersJobsInStep(s: State, a: Action, d: Key, j: Key)
    requires OneJobOf(s, d) && Attentive(s, a, d) && !(a.DeployerTurn? && a.d == d)
    requires j in Apply(s, a).store.jobs && Apply(s, a).store.jobs[j].owner == d
    ensures JobInStep(Apply(s, a), j)
  {
    OthersLeaveJobs(s, a, d);
    assert JobInStep(s, j);
    ClientRound(s, a, d);
  }

  lemma StepRunsJobs(s: State, a: Action, d: Key)
    requires OneJobOf(s, d) && Attentive(s, a, d)
    ensures RunsJobs(DeployerVersions(Apply(s, a).store, d))
  {
    var h, h' := DeployerVersions(s.store, d), DeployerVersions(Apply(s, a).store, d);
    var t := ThreadOf(s, d);
    assert RunsJobs(h) && Derived(h, t);
    if a.DeployerTurn? && a.d == d {
      if WritesDeployer(t) {
        WriteAnswer(s.store, d, t, a.ch);
        if !t.DropFinalizer? { WriteAbreast(h[t.ver].value, d, t); }
      } else {
        KeepsDeployers(s.store, d, t, a.ch);
      }
    } else {
      OthersLeaveDeployer(s, a, d);
    }
  }

  lemma StepOneJob(s: State, a: Action, d: Key)
    requires OneJobOf(s, d) && Attentive(s, a, d)
    ensures OneJobOf(Apply(s, a), d)
  {
    var s' := Apply(s, a);
    StepOrderly(s, a);
    assert Derived(DeployerVersions(s'.store, d), ThreadOf(s', d));
    StepRunsJobs(s, a, d);
    if !(a.DeployerTurn? && a.d == d) { OthersInStep(s, a, d); }
    else if WritesDeployer(ThreadOf(s, d)) { WriteInStep(s, d, a.ch); }
    else { ResumeInStep(s, d, a.ch); }
    forall j | j in s'.store.jobs && s'.store.jobs[j].owner == d ensures JobInStep(s', j) {
      if a.DeployerTurn? && a.d == d { TurnJobsInStep(s, d, a.ch, j); } else { OthersJobsInStep(s, a, d, j); }
    }
  }

  lemma AttentivePrefix(acts: seq<Action>, d: Key)
    requires AttentiveRun(acts, d) && acts != []
    ensures AttentiveRun(acts[..|acts| - 1], d)
    ensures Attentive(Exec(acts[..|acts| - 1]), acts[|acts| - 1], d)
  {
    var before := acts[..|acts| - 1];
    forall i | 0 <= i < |before| ensures Attentive(Exec(before[..i]), before[i], d) {
      assert before[..i] == acts[..i] && before[i] == acts[i];
    }
  }

  lemma {:induction false} RunOneJob(acts: seq<Action>, d: Key)
    requires AttentiveRun(acts, d)
    ensures OneJobOf(Exec(acts), d)
    decreases |acts|
  {
    if acts != [] {
      AttentivePrefix(acts, d);
      RunOneJob(acts[..|acts| - 1], d);
      StepOneJob(Exec(acts[..|acts| - 1]), acts[|acts| - 1], d);
    }
  }

  /** Every live job of a stored deployer is the one named for its stored round: so there is at most
      one, at every step and after any partial failure. Nothing is asked of other deployers. */
  lemma {:induction false} AtMostOneLiveJob(acts: seq<Action>, d: Key, j: Key)
    requires AttentiveRun(acts, d) && DeployerNow(Exec(acts).store, d).Some?
    requires j in Exec(acts).store.jobs && Exec(acts).store.jobs[j].owner == d
    ensures var round := DeployerNow(Exec(acts).store, d).value.status.currentRound;
            Exec(acts).store.jobs[j].round == round && j == SubKey(d, round)
  {
    RunOneJob(acts, d);
    assert JobInStep(Exec(acts), j);
  }

  /* ---- whose jobs a reconcile touches, with no assumption on reads ---- */

  lemma StepNamed(s: State, a: Action, j: Key)
    requires Orderly(s) && j in Apply(s, a).store.jobs
    requires j in s.store.jobs ==> Named(j, s.store.jobs[j])
    ensures Named(j, Apply(s, a).store.jobs[j])
  {
    if a.DeployerTurn? {
      var t := ThreadOf(s, a.d);
      JobsAfter(s.store, a.d, t, a.ch);
      assert Derived(DeployerVersions(s.store, a.d), t) && RoundsKept(DeployerVersions(s.store, a.d));
      if t.MakeJob? { RoundNonNegative(DeployerVersions(s.store, a.d), t.ver); }
    }
  }

  lemma {:induction false} RunNamed(acts: seq<Action>, j: Key)
    requires j in Exec(acts).store.jobs
    ensures Named(j, Exec(acts).store.jobs[j])
    decreases |acts|
  {
    var before := Exec(acts[..|acts| - 1]);
    RunOrderly(acts[..|acts| - 1]);
    if j in before.store.jobs { RunNamed(acts[..|acts| - 1], j); }
    StepNamed(before, acts[|acts| - 1], j);
  }

  /** Sub-resource names keep deployers apart: in every run, with any reads, a turn of one deployer
      leaves every other deployer's jobs exactly as they are. */
  lemma {:induction false} OthersJobsUntouched(acts: seq<Action>, d: Key, ch: Choice, j: Key)
    requires j in Exec(acts).store.jobs && Exec(acts).store.jobs[j].owner != d
    ensures var s := Exec(acts); var s' := Apply(s, DeployerTurn(d, ch));
            j in s'.store.jobs && s'.store.jobs[j] == s.store.jobs[j]
  {
    var s := Exec(acts);
    var t := ThreadOf(s, d);
    RunNamed(acts, j);
    RunOrderly(acts);
    assert Derived(DeployerVersions(s.store, d), t) && RoundsKept(DeployerVersions(s.store, d));
    JobsAfter(s.store, d, t, ch);
    if t.DropOldJob? {
      RoundNonNegative(DeployerVersions(s.store, d), t.ver);
      SubKeyUnique(d, t.mem.status.currentRound, s.store.jobs[j].owner, s.store.jobs[j].round);
    }
  }
}
