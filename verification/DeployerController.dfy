/** The deployer controller in its own form. Every method is proved to make exactly the requests of the
    deployer thread, in its order, whatever happens between them: so each execution of `Reconcile`,
    interleaved with anything, is a run of the cluster. */
module DeployerController {
  import opened Objects
  import opened Quantities
  import opened Names
  import opened Pods
  import opened Rounds
  import opened Ledger
  import opened Api
  import opened DeployerThread
  import opened Cluster
  import opened Server

  datatype Attempt = Succeeded | Conflicted | GaveUp

  function AttemptOf(written: Response): Attempt {
    if written.AckAt? then Succeeded else if written.Conflict? then Conflicted else GaveUp
  }

  class DeployContext {
    const server: ApiServer
    const key: Key
    var deployer: Deployer
    var ver: nat

    constructor (server: ApiServer, key: Key, deployer: Deployer, ver: nat)
      ensures this.server == server && this.key == key && this.deployer == deployer && this.ver == ver
    {
      this.server, this.key, this.deployer, this.ver := server, key, deployer, ver;
    }

    /** Where this reconcile stands. */
    function Thread(): Thread
      reads server
    {
      ThreadOf(server.state, key)
    }

    method SetStatus(s: Status)
      modifies this`deployer
      ensures deployer == WithStatus(old(deployer), s)
    {
      deployer := deployer.(status := deployer.status.(status := s));
    }

    /** A status write whose failure is swallowed. */
    method PublishStatus(failed: bool) returns (ghost r: Response)
      requires server.Valid()
      requires var mem := if failed then WithStatus(deployer, Failed) else deployer;
               Call(key, Thread()) == UpdateDeployerStatus(key, mem.status, mem.held, ver)
      modifies this, server`state, server`plan, server`acts
      ensures server.Valid()
      ensures Thread() == Resume(key, old(Thread()), r)
      ensures deployer == if failed then WithStatus(old(deployer), Failed) else old(deployer)
      ensures ver == if r.AckAt? then r.ver else old(ver)
    {
      if failed {
        SetStatus(Failed);
      }
      var answer := server.DeployerCall(key, UpdateDeployerStatus(key, deployer.status, deployer.held, ver));
      r := answer;
      if answer.AckAt? {
        ver := answer.ver;
      }
    }

    /** The entry to release, or -1. */
    method FindUsage(usage: seq<UsageEntry>) returns (target: int)
      ensures target == if Holds(usage, key) then First(usage, key) else -1
    {
      target := -1;
      var i := 0;
      while i < |usage|
        invariant 0 <= i <= |usage|
        invariant target == -1
        invariant forall j | 0 <= j < i :: usage[j].owner != key
      {
        if usage[i].owner == key {
          target := i;
          break;
        }
        i := i + 1;
      }
    }

    /** One attempt to release: read the pool, search, write. */
    method TryRelease(ghost tries: nat, ghost goal: Goal) returns (attempt: Attempt)
      requires server.Valid() && tries >= 1
      requires deployer.held != "" ==> Thread() == ReadHeld(deployer, ver, tries, goal)
      modifies server`state, server`plan, server`acts
      ensures server.Valid()
      ensures deployer.held == "" ==> attempt == Succeeded && server.state == old(server.state)
      ensures deployer.held != "" ==>
                match attempt
                case Succeeded => Thread() == AfterRelease(deployer, ver, goal)
                case Conflicted => Thread() == if tries > 1 then ReadHeld(deployer, ver, tries - 1, goal) else Idle
                case GaveUp => Thread() == Idle
    {
      if deployer.held == "" {
        return Succeeded;
      }
      var read := server.DeployerCall(key, GetPool(deployer.held));
      assert Thread() == Resume(key, ReadHeld(deployer, ver, tries, goal), read);
      if !read.GotPool? {
        return GaveUp;
      }
      var usage := read.pool.usage;
      var target := FindUsage(usage);
      if target == -1 {
        return Succeeded;
      }
      usage := usage[..target] + usage[target + 1..];
      attempt := StoreRelease(tries, goal, read.pool, read.ver, usage);
    }

    /** Write the usage left after the release. */
    method StoreRelease(ghost tries: nat, ghost goal: Goal, pool: Pool, pver: nat, usage: seq<UsageEntry>)
      returns (attempt: Attempt)
      requires server.Valid() && usage == DropFirst(pool.usage, key)
      requires Thread() == PutRelease(deployer, ver, tries, goal, pool, pver)
      modifies server`state, server`plan, server`acts
      ensures server.Valid()
      ensures match attempt
              case Succeeded => Thread() == AfterRelease(deployer, ver, goal)
              case Conflicted => Thread() == if tries > 1 then ReadHeld(deployer, ver, tries - 1, goal) else Idle
              case GaveUp => Thread() == Idle
    {
      var written := server.DeployerCall(key, UpdatePoolStatus(deployer.held, usage, pool.free, pver));
      attempt := AttemptOf(written);
    }

    /** `retry.RetryOnConflict` around the attempt. */
    method ReleaseResource(ghost goal: Goal) returns (ok: bool)
      requires server.Valid()
      requires deployer.held != "" ==> Thread() == ReadHeld(deployer, ver, MAX_TRIES, goal)
      modifies server`state, server`plan, server`acts
      ensures server.Valid()
      ensures deployer.held == "" ==> ok && server.state == old(server.state)
      ensures deployer.held != "" && ok ==> Thread() == AfterRelease(deployer, ver, goal)
      ensures !ok ==> Thread() == Idle
    {
      var tries := MAX_TRIES;
      var attempt := TryRelease(tries, goal);
      while attempt == Conflicted && tries > 1
        invariant server.Valid() && tries >= 1
        invariant deployer.held == "" ==> attempt == Succeeded && server.state == old(server.state)
        invariant deployer.held != "" ==>
                    match attempt
                    case Succeeded => Thread() == AfterRelease(deployer, ver, goal)
                    case Conflicted => Thread() == if tries > 1 then ReadHeld(deployer, ver, tries - 1, goal) else Idle
                    case GaveUp => Thread() == Idle
        decreases tries
      {
        tries := tries - 1;
        attempt := TryRelease(tries, goal);
      }
      ok := attempt == Succeeded;
    }

    /** One attempt to beg: add up, read the pool, check Free, append. A nil Free panics. */
    method TryBeg(ghost tries: nat) returns (attempt: Attempt, panicked: bool)
      requires server.Valid() && tries >= 1 && Thread() == ReadWanted(deployer, ver, tries)
      modifies this`deployer, server`state, server`plan, server`acts
      ensures server.Valid()
      ensures match attempt
              case Succeeded =>
                !panicked && deployer == old(deployer)
                && Thread() == Commit(deployer.(held := deployer.spec.resourcePool), ver)
              case Conflicted =>
                !panicked && deployer == old(deployer)
                && Thread() == if tries > 1 then ReadWanted(deployer, ver, tries - 1) else Idle
              case GaveUp =>
                if panicked then deployer == old(deployer) && Thread() == Publish(WithStatus(deployer, Failed), ver)
                else Thread() == Idle
    {
      panicked := false;
      var amount := SumDemand(deployer.spec.containers);
      var read := server.DeployerCall(key, GetPool(deployer.spec.resourcePool));
      if !read.GotPool? {
        return GaveUp, false;
      }
      if read.pool.free.None? {
        return GaveUp, true;
      }
      if read.pool.free.value.cpu < amount.cpu || read.pool.free.value.memory < amount.memory {
        SetStatus(Failed);
        return GaveUp, false;
      }
      attempt := StoreBeg(tries, read.pool, read.ver, read.pool.usage + [UsageEntry(key, amount)]);
    }

    /** Write the usage with the new entry; Free stays as it was. */
    method StoreBeg(ghost tries: nat, pool: Pool, pver: nat, usage: seq<UsageEntry>) returns (attempt: Attempt)
      requires server.Valid() && usage == pool.usage + [UsageEntry(key, Charge(deployer.spec.containers))]
      requires Thread() == PutBeg(deployer, ver, tries, pool, pver)
      modifies server`state, server`plan, server`acts
      ensures server.Valid()
      ensures match attempt
              case Succeeded => Thread() == Commit(deployer.(held := deployer.spec.resourcePool), ver)
              case Conflicted => Thread() == if tries > 1 then ReadWanted(deployer, ver, tries - 1) else Idle
              case GaveUp => Thread() == Idle
    {
      var written := server.DeployerCall(key, UpdatePoolStatus(deployer.spec.resourcePool, usage, pool.free, pver));
      attempt := AttemptOf(written);
    }

    method BegResource() returns (ok: bool, panicked: bool)
      requires server.Valid() && Thread() == ReadWanted(deployer, ver, MAX_TRIES)
      modifies this`deployer, server`state, server`plan, server`acts
      ensures server.Valid()
      ensures ok ==> !panicked && deployer == old(deployer).(held := old(deployer).spec.resourcePool)
                     && Thread() == Commit(deployer, ver)
      ensures panicked ==> deployer == old(deployer) && Thread() == Publish(WithStatus(deployer, Failed), ver)
      ensures !ok && !panicked ==> Thread() == Idle
    {
      var tries := MAX_TRIES;
      var attempt;
      attempt, panicked := TryBeg(tries);
      while attempt == Conflicted && tries > 1
        invariant server.Valid() && tries >= 1
        invariant attempt != GaveUp || panicked ==> deployer == old(deployer)
        invariant match attempt
                  case Succeeded => !panicked && Thread() == Commit(deployer.(held := deployer.spec.resourcePool), ver)
                  case Conflicted =>
                    !panicked && Thread() == if tries > 1 then ReadWanted(deployer, ver, tries - 1) else Idle
                  case GaveUp => Thread() == if panicked then Publish(WithStatus(deployer, Failed), ver) else Idle
        decreases tries
      {
        tries := tries - 1;
        attempt, panicked := TryBeg(tries);
      }
      ok := attempt == Succeeded;
      if ok {
        deployer := deployer.(held := deployer.spec.resourcePool);
      }
    }

    method DeleteJob(round: int) returns (ok: bool)
      requires server.Valid() && round == deployer.status.currentRound
      requires Thread() == FindOldJob(deployer, ver)
      modifies server`state, server`plan, server`acts
      ensures server.Valid()
      ensures Thread() == if ok then EnterRelease(deployer, ver, NextRound) else Idle
    {
      var found := server.DeployerCall(key, GetJob(SubKey(key, round)));
      if !found.Exists? {
        return false;
      }
      if !found.found {
        return true;
      }
      var deleted := server.DeployerCall(key, Request.DeleteJob(SubKey(key, round)));
      ok := deleted.Ack?;
    }

    /** Looks for a Deployment, although `CreateStatefulSet` makes a StatefulSet. */
    method DeleteDeployment() returns (ok: bool)
      requires server.Valid() && Thread() == FindDeployment(deployer, ver)
      modifies server`state, server`plan, server`acts
      ensures server.Valid()
      ensures Thread() == if ok then EnterRelease(deployer, ver, NextRound) else Idle
    {
      var name := SubKey(key, deployer.status.currentRound);
      var found := server.DeployerCall(key, GetDeployment(name));
      if !found.Exists? {
        return false;
      }
      if !found.found {
        return true;
      }
      var deleted := server.DeployerCall(key, Request.DeleteDeployment(name));
      ok := deleted.Ack?;
    }

    method CleanupForNextRound() returns (ok: bool)
      requires server.Valid() && Thread() == EnterCleanup(deployer, ver)
      modifies this, server`state, server`plan, server`acts
      ensures server.Valid() && ver == old(ver)
      ensures ok ==> deployer == old(deployer).(held := "")
                     && Thread() == AfterRelease(old(deployer), ver, NextRound)
      ensures !ok ==> Thread() == Idle
    {
      ok := false;
      match deployer.spec.kind {
        case JOB => ok := DeleteJob(deployer.status.currentRound);
        case SERVICE => ok := DeleteDeployment();
        case UNKNOWN =>
      }
      if !ok {
        return;
      }
      ok := ReleaseResource(NextRound);
      if ok {
        deployer := deployer.(held := "");
      }
    }

    /** Appends to the history in memory. */
    method BackupState()
      modifies this`deployer
      ensures deployer == old(deployer).(status := Backup(old(deployer).status))
    {
      if deployer.status.currentRound == 0 {
        return;
      }
      var rec := HistoryRecord(deployer.status.currentRound, deployer.status.status);
      deployer := deployer.(status := deployer.status.(history := deployer.status.history + [rec]));
    }

    /** Publishes Pending before the workload is made, whether or not the write succeeds. */
    method Announce()
      requires server.Valid()
      requires var mem := WithStatus(deployer, Pending);
               Thread() == AnnounceJob(mem, ver) || Thread() == AnnounceSet(mem, ver)
      modifies this, server`state, server`plan, server`acts
      ensures server.Valid() && deployer == WithStatus(old(deployer), Pending)
      ensures Thread() == if old(Thread()).AnnounceJob? then Lookup(deployer, ver) else LookupSet(deployer, ver)
    {
      SetStatus(Pending);
      ghost var r := PublishStatus(false);
    }

    method CreateAndWatchJob() returns (ok: bool)
      requires server.Valid() && Thread() == FindJob(deployer, ver)
      modifies this, server`state, server`plan, server`acts
      ensures server.Valid()
      ensures Thread() == Publish(if ok then deployer else WithStatus(deployer, Failed), ver)
    {
      var found := server.DeployerCall(key, GetJob(SubKey(key, deployer.spec.round)));
      if !found.Exists? {
        return false;
      }
      if !found.found {
        Announce();
        ok := CreateJobResource();
        return;
      }
      ok := WatchPods();
    }

    /** `GetStatusFromPod`, and the status taken over from it. */
    method WatchPods() returns (ok: bool)
      requires server.Valid() && (Thread() == WatchJob(deployer, ver) || Thread() == WatchSet(deployer, ver))
      modifies this`deployer, server`state, server`plan, server`acts
      ensures server.Valid()
      ensures Thread() == Publish(if ok then deployer else WithStatus(deployer, Failed), ver)
    {
      var pods := server.DeployerCall(key, ListPods);
      if !pods.Pods? {
        return false;
      }
      SetStatus(StatusOf(pods.pods));
      return true;
    }

    /** `newJob` and the non-forcing `CreateResource`. */
    method CreateJobResource() returns (ok: bool)
      requires server.Valid() && Thread() == Lookup(deployer, ver)
      modifies server`state, server`plan, server`acts
      ensures server.Valid()
      ensures Thread() == Publish(if ok then deployer else WithStatus(deployer, Failed), ver)
    {
      var round := deployer.status.currentRound;
      var pod := NewPodSpec(deployer.spec.containers);
      var job := Job(key, round, pod);
      var existing := server.DeployerCall(key, LookupJob(SubKey(key, round)));
      assert Thread() == Resume(key, Lookup(deployer, ver), existing);
      if !existing.Exists? {
        return false;
      }
      if existing.found {
        return true;
      }
      ok := AddJob(job);
    }

    method AddJob(job: Job) returns (ok: bool)
      requires server.Valid() && Thread() == MakeJob(deployer, ver) && job == NewJob(key, deployer)
      modifies server`state, server`plan, server`acts
      ensures server.Valid()
      ensures Thread() == Publish(if ok then deployer else WithStatus(deployer, Failed), ver)
    {
      var created := server.DeployerCall(key, CreateJob(SubKey(key, job.round), job));
      ok := created.Ack?;
    }

    method HandleService() returns (ok: bool)
      requires server.Valid() && Thread() == FindSet(deployer, ver)
      modifies this, server`state, server`plan, server`acts
      ensures server.Valid()
      ensures Thread() == Publish(if ok then deployer else WithStatus(deployer, Failed), ver)
    {
      var found := server.DeployerCall(key, GetSet(SubKey(key, deployer.status.currentRound)));
      assert Thread() == Resume(key, FindSet(deployer, ver), found);
      if !found.Exists? {
        return false;
      }
      if !found.found {
        ok := CreateStatefulSet();
        return;
      }
      ok := RefreshService();
    }

    /** `createOrUpdateService`, whose port merge is in `Ports`, and then the pods' status. */
    method RefreshService() returns (ok: bool)
      requires server.Valid() && Thread() == FindService(deployer, ver)
      modifies this, server`state, server`plan, server`acts
      ensures server.Valid()
      ensures Thread() == Publish(if ok then deployer else WithStatus(deployer, Failed), ver)
    {
      var found := server.DeployerCall(key, AskService(Getting, key));
      assert Thread() == Resume(key, FindService(deployer, ver), found);
      if !found.Exists? {
        return false;
      }
      if found.found {
        var updated := server.DeployerCall(key, AskService(Updating, key));
        ok := updated.Ack?;
      } else {
        ok := ForceCreateService();
      }
      if ok {
        ok := WatchPods();
      }
    }

    /** The forcing `CreateResource` of a service. */
    method ForceCreateService() returns (ok: bool)
      requires server.Valid() && Thread() == LookupService(deployer, ver)
      modifies server`state, server`plan, server`acts
      ensures server.Valid()
      ensures Thread() == if ok then WatchSet(deployer, ver) else Publish(WithStatus(deployer, Failed), ver)
    {
      var existing := server.DeployerCall(key, AskService(Seeking, key));
      assert Thread() == Resume(key, LookupService(deployer, ver), existing);
      if !existing.Exists? {
        return false;
      }
      if existing.found {
        ok := RemoveService();
        if !ok {
          return;
        }
      }
      ok := AddService();
    }

    method RemoveService() returns (ok: bool)
      requires server.Valid() && Thread() == DropService(deployer, ver)
      modifies server`state, server`plan, server`acts
      ensures server.Valid()
      ensures Thread() == if ok then MakeService(deployer, ver) else Publish(WithStatus(deployer, Failed), ver)
    {
      var dropped := server.DeployerCall(key, AskService(Deleting, key));
      ok := dropped.Ack?;
    }

    method AddService() returns (ok: bool)
      requires server.Valid() && Thread() == MakeService(deployer, ver)
      modifies server`state, server`plan, server`acts
      ensures server.Valid()
      ensures Thread() == if ok then WatchSet(deployer, ver) else Publish(WithStatus(deployer, Failed), ver)
    {
      var created := server.DeployerCall(key, AskService(Creating, key));
      ok := created.Ack?;
    }

    method CreateStatefulSet() returns (ok: bool)
      requires server.Valid() && Thread() == AnnounceSet(WithStatus(deployer, Pending), ver)
      modifies this, server`state, server`plan, server`acts
      ensures server.Valid()
      ensures Thread() == Publish(if ok then deployer else WithStatus(deployer, Failed), ver)
    {
      Announce();
      ok := ForceCreateSet();
    }

    /** The forcing `CreateResource` of a StatefulSet: one of the same name is deleted first. */
    method ForceCreateSet() returns (ok: bool)
      requires server.Valid() && Thread() == LookupSet(deployer, ver)
      modifies server`state, server`plan, server`acts
      ensures server.Valid()
      ensures Thread() == Publish(if ok then deployer else WithStatus(deployer, Failed), ver)
    {
      var name := SubKey(key, deployer.status.currentRound);
      var existing := server.DeployerCall(key, LookupStatefulSet(name));
      assert Thread() == Resume(key, LookupSet(deployer, ver), existing);
      if !existing.Exists? {
        return false;
      }
      if existing.found {
        ok := RemoveSet(name);
        if !ok {
          return;
        }
      }
      ok := AddSet(name);
    }

    method RemoveSet(name: Key) returns (ok: bool)
      requires server.Valid() && Thread() == DropSet(deployer, ver) && name == JobKey(key, deployer)
      modifies server`state, server`plan, server`acts
      ensures server.Valid()
      ensures Thread() == if ok then MakeSet(deployer, ver) else Publish(WithStatus(deployer, Failed), ver)
    {
      var dropped := server.DeployerCall(key, DeleteSet(name));
      ok := dropped.Ack?;
    }

    method AddSet(name: Key) returns (ok: bool)
      requires server.Valid() && Thread() == MakeSet(deployer, ver) && name == JobKey(key, deployer)
      modifies server`state, server`plan, server`acts
      ensures server.Valid()
      ensures Thread() == Publish(if ok then deployer else WithStatus(deployer, Failed), ver)
    {
      var created := server.DeployerCall(key, CreateSet(name));
      ok := created.Ack?;
    }

    method Handle() returns (ok: bool)
      requires server.Valid() && Thread() == EnterHandle(deployer, ver)
      modifies this, server`state, server`plan, server`acts
      ensures server.Valid()
      ensures Thread() == Publish(if ok then deployer else WithStatus(deployer, Failed), ver)
    {
      match deployer.spec.kind {
        case JOB => ok := CreateAndWatchJob();
        case SERVICE => ok := HandleService();
        case UNKNOWN => ok := false;
      }
    }

    /** The advance branch of Reconcile: delete, release, back up, beg, and only then store. */
    method Advance() returns (ok: bool)
      requires server.Valid() && Thread() == EnterCleanup(deployer, ver)
      modifies this, server`state, server`plan, server`acts
      ensures server.Valid()
      ensures Thread() == Idle
    {
      ok := CleanupForNextRound();
      if !ok {
        return;
      }
      BackupState();
      ok := ReleaseResource(NextRound);
      deployer := deployer.(status := deployer.status.(status := Pending, currentRound := deployer.spec.round));
      ok := BegAndStore();
    }

    method BegAndStore() returns (ok: bool)
      requires server.Valid() && Thread() == ReadWanted(deployer, ver, MAX_TRIES)
      modifies this, server`state, server`plan, server`acts
      ensures server.Valid() && Thread() == Idle
    {
      var panicked;
      ok, panicked := BegResource();
      if panicked {
        ghost var _ := PublishStatus(true);   // the deferred recover
      } else if ok {
        var written := server.DeployerCall(key, UpdateDeployerStatus(key, deployer.status, deployer.held, ver));
        ok := written.AckAt?;
      }
    }

    method Finalize() returns (ok: bool)
      requires server.Valid() && Thread() == EnterRelease(deployer, ver, Teardown)
      modifies this, server`state, server`plan, server`acts
      ensures server.Valid()
      ensures Thread() == Idle
    {
      ok := ReleaseResource(Teardown);
      if ok {
        deployer := deployer.(finalizer := false);
        ok := RemoveFinalizer();
      }
    }

    method RemoveFinalizer() returns (ok: bool)
      requires server.Valid() && Thread() == DropFinalizer(deployer, ver) && !deployer.finalizer
      modifies server`state, server`plan, server`acts
      ensures server.Valid()
      ensures Thread() == Idle
    {
      var written := server.DeployerCall(key, UpdateDeployer(key, deployer.finalizer, ver));
      ok := written.AckAt?;
    }

    method StorePark() returns (ok: bool)
      requires server.Valid() && Thread() == Park(WithStatus(deployer, Undo), ver)
      modifies this`deployer, server`state, server`plan, server`acts
      ensures server.Valid() && Thread() == Idle
    {
      SetStatus(Undo);
      var written := server.DeployerCall(key, UpdateDeployerStatus(key, deployer.status, deployer.held, ver));
      ok := written.AckAt?;
    }

    /** Reconcile, once the deployer is known to be live and to carry the finalizer. */
    method Proceed() returns (ok: bool)
      requires server.Valid() && Thread() == Route(deployer, ver)
      modifies this, server`state, server`plan, server`acts
      ensures server.Valid() && Thread() == Idle
    {
      if deployer.spec.round < deployer.status.currentRound {
        ok := StorePark();
        return;
      }
      if deployer.spec.round > deployer.status.currentRound {
        ok := Advance();
        return;
      }
      ok := HandleAndPublish();
    }

    method HandleAndPublish() returns (ok: bool)
      requires server.Valid() && Thread() == EnterHandle(deployer, ver)
      modifies this, server`state, server`plan, server`acts
      ensures server.Valid() && Thread() == Idle
    {
      ok := Handle();
      ghost var _ := PublishStatus(!ok);
    }
  }

  /** `DeployerReconciler.Reconcile`: what happens from here on contains one whole reconcile of `key`,
      from its first call (the last act of `past`) until its thread is idle again. */
  method Reconcile(server: ApiServer, key: Key) returns (ok: bool)
    requires server.Valid() && ThreadOf(server.state, key) == Idle
    modifies server
    ensures server.Valid() && old(server.acts) < server.past
    ensures var first := server.past[|server.past| - 1]; first.DeployerTurn? && first.d == key
    ensures ThreadOf(server.state, key) == Idle
  {
    var read := server.OpenDeployer(key);
    if !read.GotDeployer? {
      return false;
    }
    var ctx := new DeployContext(server, key, read.deployer, read.ver);
    if ctx.deployer.deleting {
      ok := true;
      if ctx.deployer.finalizer {
        ok := ctx.Finalize();
      }
      return;
    }
    if !ctx.deployer.finalizer {
      ctx.deployer := ctx.deployer.(finalizer := true);
      var written := server.DeployerCall(key, UpdateDeployer(key, true, ctx.ver));
      if !written.AckAt? {
        return false;
      }
      ctx.deployer, ctx.ver := Updated(ctx.deployer), written.ver;
    }
    ok := ctx.Proceed();
  }
}
