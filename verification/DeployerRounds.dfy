/** What a deployer reconcile holds in memory, and the rounds and history its writes leave. */
module DeployerRounds {
  import opened Objects
  import opened Lives
  import opened Api
  import opened DeployerThread
  import opened Cluster
  import opened Refinement

  /** A live deployer whose spec asks for a later round. */
  predicate Due(x: Deployer) {
    !x.deleting && x.finalizer && x.spec.round > x.status.currentRound
  }

  /** `mem` is the live deployer `x` with at most another status word. */
  predicate Tends(x: Deployer, mem: Deployer) {
    !x.deleting && x.finalizer && mem == WithStatus(x, mem.status.status)
  }

  /** A deployer being tended in its current round. */
  predicate Handles(x: Deployer, mem: Deployer) {
    Tends(x, mem) && x.spec.round == x.status.currentRound
  }

  /** What a reconcile holds in memory, given the version it read or last wrote. */
  predicate Derives(x: Deployer, t: Thread)
    requires !t.Idle?
  {
    match t
    case AddFinalizer(mem, _) => !x.deleting && !x.finalizer && mem == x.(finalizer := true)
    case Park(mem, _) => Tends(x, mem)
    case FindOldJob(mem, _) => mem == x && Due(x) && x.spec.kind == JOB
    case DropOldJob(mem, _) => mem == x && Due(x) && x.spec.kind == JOB
    case FindDeployment(mem, _) => mem == x && Due(x) && x.spec.kind == SERVICE
    case DropDeployment(mem, _) => mem == x && Due(x) && x.spec.kind == SERVICE
    case ReadHeld(mem, _, _, goal) => mem == x && if goal.NextRound? then Due(x) else x.deleting && x.finalizer
    case PutRelease(mem, _, _, goal, _, _) => mem == x && if goal.NextRound? then Due(x) else x.deleting && x.finalizer
    case ReadWanted(mem, _, _) => Due(x) && mem == Advanced(x)
    case PutBeg(mem, _, _, _, _) => Due(x) && mem == Advanced(x)
    case Commit(mem, _) => Due(x) && mem == Advanced(x).(held := x.spec.resourcePool)
    case DropFinalizer(mem, _) => x.deleting && x.finalizer && mem == x.(finalizer := false)
    case Publish(mem, _) => Tends(x, mem) || (Due(x) && mem == WithStatus(Advanced(x), Failed))
    case FindJob(mem, _) => Handles(x, mem) && x.spec.kind == JOB
    case AnnounceJob(mem, _) => Handles(x, mem) && x.spec.kind == JOB
    case Lookup(mem, _) => Handles(x, mem) && x.spec.kind == JOB
    case MakeJob(mem, _) => Handles(x, mem) && x.spec.kind == JOB
    case WatchJob(mem, _) => Handles(x, mem) && x.spec.kind == JOB
    case FindSet(mem, _) => Handles(x, mem)
    case AnnounceSet(mem, _) => Handles(x, mem)
    case LookupSet(mem, _) => Handles(x, mem)
    case DropSet(mem, _) => Handles(x, mem)
    case MakeSet(mem, _) => Handles(x, mem)
    case FindService(mem, _) => Handles(x, mem)
    case UpdateService(mem, _) => Handles(x, mem)
    case LookupService(mem, _) => Handles(x, mem)
    case DropService(mem, _) => Handles(x, mem)
    case MakeService(mem, _) => Handles(x, mem)
    case WatchSet(mem, _) => Handles(x, mem)
  }

  predicate Derived(h: Versions<Deployer>, t: Thread) {
    !t.Idle? ==> t.ver < |h| && h[t.ver].Some? && Derives(h[t.ver].value, t)
  }

  function BaseOf(x: Deployer): CommonStatus {
    x.status
  }

  /** A deployer's versions start blank, and each keeps the round or advances it. */
  predicate RoundsKept(h: Versions<Deployer>) {
    WellRun(h, BaseOf, false)
  }

  ghost predicate Orderly(s: State) {
    forall d :: Derived(DeployerVersions(s.store, d), ThreadOf(s, d)) && RoundsKept(DeployerVersions(s.store, d))
  }

  /* ---- control flow ---- */

  lemma BeginDerives(h: Versions<Deployer>, x: Deployer, ver: nat)
    requires IsVersion(h, ver, x)
    ensures Derived(h, Begin(x, ver))
    ensures Due(x) ==> Derived(h, EnterRelease(x, ver, NextRound))
    ensures !x.deleting && x.finalizer ==> Derived(h, Route(x, ver))
  {
  }

  lemma AfterReleaseDerives(h: Versions<Deployer>, x: Deployer, ver: nat, goal: Goal)
    requires IsVersion(h, ver, x)
    requires if goal.NextRound? then Due(x) else x.deleting && x.finalizer
    ensures Derived(h, AfterRelease(x, ver, goal))
  {
  }

  predicate WritesDeployer(t: Thread) {
    t.AddFinalizer? || t.Park? || t.Commit? || t.AnnounceJob? || t.AnnounceSet? || t.Publish? || t.DropFinalizer?
  }

  predicate Tending(t: Thread) {
    || t.FindJob? || t.Lookup? || t.MakeJob? || t.WatchJob?
    || t.FindSet? || t.LookupSet? || t.DropSet? || t.MakeSet? || t.WatchSet?
    || t.FindService? || t.UpdateService? || t.LookupService? || t.DropService? || t.MakeService?
  }

  /** Tending goes on from the same version, or ends in a status to publish. */
  lemma TendingNext(d: Key, t: Thread, r: Response)
    requires Tending(t)
    ensures var t' := Resume(d, t, r);
            && t'.ver == t.ver && (t'.mem == t.mem || t'.mem == WithStatus(t.mem, t'.mem.status.status))
            && (Tending(t') || t'.AnnounceJob? || t'.AnnounceSet? || t'.Publish?)
            && ((t'.FindJob? || t'.AnnounceJob? || t'.Lookup? || t'.MakeJob? || t'.WatchJob?) ==>
                  t.FindJob? || t.Lookup? || t.MakeJob? || t.WatchJob?)
  {
  }

  lemma TendingDerives(h: Versions<Deployer>, d: Key, t: Thread, r: Response)
    requires Derived(h, t) && Tending(t)
    ensures Derived(h, Resume(d, t, r))
  {
    TendingNext(d, t, r);
    var x, t' := h[t.ver].value, Resume(d, t, r);
    assert Handles(x, t.mem) && Handles(x, t'.mem);
  }

  /** An answer that moves no deployer version keeps memory derived from the same version. */
  lemma ResumeDerives(h: Versions<Deployer>, d: Key, t: Thread, r: Response)
    requires Derived(h, t) && !WritesDeployer(t)
    requires t.Idle? && r.GotDeployer? ==> IsVersion(h, r.ver, r.deployer)
    ensures Derived(h, Resume(d, t, r))
  {
    if t.Idle? {
      if r.GotDeployer? { BeginDerives(h, r.deployer, r.ver); }
    } else if Tending(t) {
      TendingDerives(h, d, t, r);
    } else if t.ReadHeld? || t.PutRelease? {
      AfterReleaseDerives(h, t.mem, t.ver, t.goal);
    } else if !t.ReadWanted? && !t.PutBeg? {
      BeginDerives(h, t.mem, t.ver);
    }
  }

  lemma DeployerReadIsVersion(st: Store, d: Key, ch: Choice)
    ensures var r := Answer(st, GetDeployer(d), ch);
            r.GotDeployer? ==> IsVersion(DeployerVersions(st, d), r.ver, r.deployer)
  {
  }

  lemma KeepsDeployers(st: Store, d: Key, t: Thread, ch: Choice)
    requires !WritesDeployer(t)
    ensures After(st, Call(d, t), ch).deployers == st.deployers
  {
    CallKinds(d, t);
    AfterFrame(st, Call(d, t), ch);
  }

  /* ---- the deployer's own writes ---- */

  /** The version a deployer write adds to the one it was derived from. */
  function Written(x: Deployer, d: Key, t: Thread): Option<Deployer>
    requires WritesDeployer(t)
  {
    RevisedDeployer(x, Call(d, t))
  }

  /** A status write keeps the round or advances it by the book. */
  lemma WrittenWellRun(x: Deployer, d: Key, t: Thread)
    requires WritesDeployer(t) && Derives(x, t)
    ensures var y := Written(x, d, t);
            y.Some? ==> Moves(x.status, y.value.status, false)
  {
  }

  lemma PutWellRun(h: Versions<Deployer>, y: Option<Deployer>, quiet: bool)
    requires RoundsKept(h) && Latest(h).Some?
    requires y.Some? ==> Moves(Latest(h).value.status, y.value.status, false)
    ensures RoundsKept(Put(h, y, quiet))
  {
    SnocWellRun(h, BaseOf, false, y);
  }

  /** Where a deployer write leads: nowhere, on from the version it wrote, or on from the old one. */
  lemma WriteDerives(h: Versions<Deployer>, d: Key, t: Thread, r: Response)
    requires WritesDeployer(t) && t.ver < |h| && h[t.ver].Some? && Derives(h[t.ver].value, t)
    requires r.AckAt? ==> r.ver < |h| && h[r.ver] == Written(h[t.ver].value, d, t)
    ensures Derived(h, Resume(d, t, r))
  {
    if t.AddFinalizer? && r.AckAt? {
      BeginDerives(h, Updated(t.mem), r.ver);
    }
  }

  lemma WriteAnswer(st: Store, d: Key, t: Thread, ch: Choice)
    requires WritesDeployer(t)
    ensures var h, req := DeployerVersions(st, d), Call(d, t);
            var h', r := DeployerVersions(After(st, req, ch), d), Answer(st, req, ch);
            if Lands(st, req, ch) then
              && IsCurrent(h, t.ver) && h' == Put(h, Written(h[t.ver].value, d, t), ch.quiet)
              && (r.AckAt? ==> r.ver == |h'| - 1)
            else h' == h && !r.AckAt?
  {
    CallKinds(d, t);
    assert Call(d, t).ver == t.ver;
    DeployerWriteAnswer(st, Call(d, t), ch);
  }

  lemma WriteStep(s: State, d: Key, ch: Choice)
    requires WritesDeployer(ThreadOf(s, d))
    requires Derived(DeployerVersions(s.store, d), ThreadOf(s, d)) && RoundsKept(DeployerVersions(s.store, d))
    ensures var s' := Apply(s, DeployerTurn(d, ch));
            Derived(DeployerVersions(s'.store, d), ThreadOf(s', d)) && RoundsKept(DeployerVersions(s'.store, d))
  {
    var t := ThreadOf(s, d);
    var req := Call(d, t);
    var h, h' := DeployerVersions(s.store, d), DeployerVersions(After(s.store, req, ch), d);
    WriteAnswer(s.store, d, t, ch);
    WrittenWellRun(h[t.ver].value, d, t);
    if Lands(s.store, req, ch) {
      PutWellRun(h, Written(h[t.ver].value, d, t), ch.quiet);
    }
    WriteDerives(h', d, t, Answer(s.store, req, ch));
  }

  /* ---- every step ---- */

  lemma DerivedStays(h: Versions<Deployer>, h': Versions<Deployer>, t: Thread)
    requires Derived(h, t) && h <= h'
    ensures Derived(h', t)
  {
  }

  lemma ClientWellRun(s: State, a: Action, d: Key)
    requires !(a.DeployerTurn? && a.d == d)
    requires RoundsKept(DeployerVersions(s.store, d))
    ensures RoundsKept(DeployerVersions(Apply(s, a).store, d))
  {
    var h, h' := DeployerVersions(s.store, d), DeployerVersions(Apply(s, a).store, d);
    if a.DeployerTurn? {
      OtherDeployerUntouched(s.store, a.d, ThreadOf(s, a.d), a.ch, d);
    }
    assert h' == h || h' == h + [Latest(h')];
    if h' != h {
      SnocWellRun(h, BaseOf, false, Latest(h'));
    }
  }

  lemma TurnOrderly(s: State, d: Key, ch: Choice)
    requires Derived(DeployerVersions(s.store, d), ThreadOf(s, d)) && RoundsKept(DeployerVersions(s.store, d))
    ensures var s' := Apply(s, DeployerTurn(d, ch));
            Derived(DeployerVersions(s'.store, d), ThreadOf(s', d)) && RoundsKept(DeployerVersions(s'.store, d))
  {
    var t := ThreadOf(s, d);
    if WritesDeployer(t) {
      WriteStep(s, d, ch);
    } else {
      KeepsDeployers(s.store, d, t, ch);
      DeployerReadIsVersion(s.store, d, ch);
      ResumeDerives(DeployerVersions(s.store, d), d, t, Answer(s.store, Call(d, t), ch));
    }
  }

  lemma StepOrderly(s: State, a: Action)
    requires Orderly(s)
    ensures Orderly(Apply(s, a))
  {
    var s' := Apply(s, a);
    StepGrows(s, a);
    OthersStay(s, a);
    forall d
      ensures Derived(DeployerVersions(s'.store, d), ThreadOf(s', d)) && RoundsKept(DeployerVersions(s'.store, d))
    {
      if a.DeployerTurn? && a.d == d {
        TurnOrderly(s, d, a.ch);
      } else {
        ClientWellRun(s, a, d);
        assert DeployerVersions(s.store, d) <= DeployerVersions(s'.store, d);
        DerivedStays(DeployerVersions(s.store, d), DeployerVersions(s'.store, d), ThreadOf(s, d));
      }
    }
  }

  lemma {:induction false} RunOrderly(acts: seq<Action>)
    ensures Orderly(Exec(acts))
    decreases |acts|
  {
    if acts != [] {
      RunOrderly(acts[..|acts| - 1]);
      StepOrderly(Exec(acts[..|acts| - 1]), acts[|acts| - 1]);
    }
  }

  /* ---- history ---- */

  /** A deployer's history is exact, in every run, despite aborted advances: its rounds are the earlier
      non-zero current rounds in strictly increasing order, each once. */
  lemma {:induction false} DeployerHistoryExact(acts: seq<Action>, d: Key, b: nat, i: nat)
    requires OneLife(DeployerVersions(Exec(acts).store, d), b, i)
    ensures ExactLife(DeployerVersions(Exec(acts).store, d), BaseOf, b, i)
  {
    RunOrderly(acts);
    LifeIsExact(DeployerVersions(Exec(acts).store, d), BaseOf, b, i);
  }

  /** The current round never decreases and the history only grows. */
  lemma {:induction false} DeployerRoundMonotone(acts: seq<Action>, d: Key, b: nat, i: nat, j: nat)
    requires OneLife(DeployerVersions(Exec(acts).store, d), b, j) && b <= i <= j
    ensures var h := DeployerVersions(Exec(acts).store, d);
            && h[i].Some? && h[j].Some?
            && 0 <= h[i].value.status.currentRound <= h[j].value.status.currentRound
            && h[i].value.status.history <= h[j].value.status.history
  {
    RunOrderly(acts);
    LifeIsMonotone(DeployerVersions(Exec(acts).store, d), BaseOf, false, b, i, j);
  }
}
