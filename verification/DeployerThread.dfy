/** One deployer reconcile, cut at its API calls: `Call` is the request it waits on and `Resume` what it
    does with the answer, up to its next request. `mem` is the in-memory object the reconcile mutates,
    `ver` the version it read or last wrote. */
module DeployerThread {
  import opened Objects
  import opened Quantities
  import opened Names
  import opened Pods
  import opened Rounds
  import opened Ledger
  import opened Api

  /** `retry.DefaultRetry` makes five attempts. */
  const MAX_TRIES: nat := 5

  /** Why a reservation is released. */
  datatype Goal = NextRound | Teardown

  datatype Thread =
    | Idle
    | AddFinalizer(mem: Deployer, ver: nat)
    | Park(mem: Deployer, ver: nat)
    | FindOldJob(mem: Deployer, ver: nat)
    | DropOldJob(mem: Deployer, ver: nat)
    | FindDeployment(mem: Deployer, ver: nat)
    | DropDeployment(mem: Deployer, ver: nat)
    | ReadHeld(mem: Deployer, ver: nat, tries: nat, goal: Goal)
    | PutRelease(mem: Deployer, ver: nat, tries: nat, goal: Goal, snap: Pool, pver: nat)
    | ReadWanted(mem: Deployer, ver: nat, tries: nat)
    | PutBeg(mem: Deployer, ver: nat, tries: nat, snap: Pool, pver: nat)
    | Commit(mem: Deployer, ver: nat)
    | FindJob(mem: Deployer, ver: nat)
    | AnnounceJob(mem: Deployer, ver: nat)
    | Lookup(mem: Deployer, ver: nat)
    | MakeJob(mem: Deployer, ver: nat)
    | WatchJob(mem: Deployer, ver: nat)
    | FindSet(mem: Deployer, ver: nat)
    | AnnounceSet(mem: Deployer, ver: nat)
    | LookupSet(mem: Deployer, ver: nat)
    | DropSet(mem: Deployer, ver: nat)
    | MakeSet(mem: Deployer, ver: nat)
    | FindService(mem: Deployer, ver: nat)
    | UpdateService(mem: Deployer, ver: nat)
    | LookupService(mem: Deployer, ver: nat)
    | DropService(mem: Deployer, ver: nat)
    | MakeService(mem: Deployer, ver: nat)
    | WatchSet(mem: Deployer, ver: nat)
    | Publish(mem: Deployer, ver: nat)
    | DropFinalizer(mem: Deployer, ver: nat)

  /* ---- the in-memory mutations ---- */

  function WithStatus(mem: Deployer, s: Status): Deployer {
    mem.(status := mem.status.(status := s))
  }

  /** The new round as it stands in memory before the pool is asked. */
  function Advanced(mem: Deployer): Deployer {
    mem.(held := "", status := StartRound(mem.status, mem.spec.round))
  }

  /** The object as the answer to an update returns it. */
  function Updated(mem: Deployer): Deployer {
    mem.(spec := mem.spec.(round := Defaulted(mem.spec.round)))
  }

  function JobKey(d: Key, mem: Deployer): Key {
    SubKey(d, mem.status.currentRound)
  }

  function NewJob(d: Key, mem: Deployer): Job {
    Job(d, mem.status.currentRound, PodOf(mem.spec.containers))
  }

  /* ---- control flow between requests ---- */

  function AfterRelease(mem: Deployer, ver: nat, goal: Goal): Thread {
    match goal
    case NextRound => ReadWanted(Advanced(mem), ver, MAX_TRIES)
    case Teardown => DropFinalizer(mem.(finalizer := false), ver)
  }

  /** A deployer that holds no pool has nothing to release. */
  function EnterRelease(mem: Deployer, ver: nat, goal: Goal): Thread {
    if mem.held == "" then AfterRelease(mem, ver, goal) else ReadHeld(mem, ver, MAX_TRIES, goal)
  }

  function EnterHandle(mem: Deployer, ver: nat): Thread {
    match mem.spec.kind
    case JOB => FindJob(mem, ver)
    case SERVICE => FindSet(mem, ver)
    case UNKNOWN => Publish(WithStatus(mem, Failed), ver)
  }

  function EnterCleanup(mem: Deployer, ver: nat): Thread {
    match mem.spec.kind
    case JOB => FindOldJob(mem, ver)
    case SERVICE => FindDeployment(mem, ver)
    case UNKNOWN => Idle
  }

  function Route(mem: Deployer, ver: nat): Thread {
    if mem.spec.round < mem.status.currentRound then Park(WithStatus(mem, Undo), ver)
    else if mem.spec.round > mem.status.currentRound then EnterCleanup(mem, ver)
    else EnterHandle(mem, ver)
  }

  function Begin(mem: Deployer, ver: nat): Thread {
    if mem.deleting then (if mem.finalizer then EnterRelease(mem, ver, Teardown) else Idle)
    else if !mem.finalizer then AddFinalizer(mem.(finalizer := true), ver)
    else Route(mem, ver)
  }

  function Broken(t: Thread): Thread
    requires !t.Idle?
  {
    Publish(WithStatus(t.mem, Failed), t.ver)
  }

  function Call(d: Key, t: Thread): Request {
    match t
    case Idle => GetDeployer(d)
    case AddFinalizer(mem, ver) => UpdateDeployer(d, true, ver)
    case Park(mem, ver) => UpdateDeployerStatus(d, mem.status, mem.held, ver)
    case FindOldJob(mem, _) => GetJob(JobKey(d, mem))
    case DropOldJob(mem, _) => DeleteJob(JobKey(d, mem))
    case FindDeployment(mem, _) => GetDeployment(JobKey(d, mem))
    case DropDeployment(mem, _) => DeleteDeployment(JobKey(d, mem))
    case ReadHeld(mem, _, _, _) => GetPool(mem.held)
    case PutRelease(mem, _, _, _, snap, pver) =>
      UpdatePoolStatus(mem.held, DropFirst(snap.usage, d), snap.free, pver)
    case ReadWanted(mem, _, _) => GetPool(mem.spec.resourcePool)
    case PutBeg(mem, _, _, snap, pver) =>
      UpdatePoolStatus(mem.spec.resourcePool,
                       snap.usage + [UsageEntry(d, Charge(mem.spec.containers))], snap.free, pver)
    case Commit(mem, ver) => UpdateDeployerStatus(d, mem.status, mem.held, ver)
    case FindJob(mem, _) => GetJob(SubKey(d, mem.spec.round))
    case AnnounceJob(mem, ver) => UpdateDeployerStatus(d, mem.status, mem.held, ver)
    case Lookup(mem, _) => LookupJob(JobKey(d, mem))
    case MakeJob(mem, _) => CreateJob(JobKey(d, mem), NewJob(d, mem))
    case WatchJob(_, _) => ListPods
    case FindSet(mem, _) => GetSet(JobKey(d, mem))
    case AnnounceSet(mem, ver) => UpdateDeployerStatus(d, mem.status, mem.held, ver)
    case LookupSet(mem, _) => LookupStatefulSet(JobKey(d, mem))
    case DropSet(mem, _) => DeleteSet(JobKey(d, mem))
    case MakeSet(mem, _) => CreateSet(JobKey(d, mem))
    case FindService(_, _) => AskService(Getting, d)
    case UpdateService(_, _) => AskService(Updating, d)
    case LookupService(_, _) => AskService(Seeking, d)
    case DropService(_, _) => AskService(Deleting, d)
    case MakeService(_, _) => AskService(Creating, d)
    case WatchSet(_, _) => ListPods
    case Publish(mem, ver) => UpdateDeployerStatus(d, mem.status, mem.held, ver)
    case DropFinalizer(mem, ver) => UpdateDeployer(d, false, ver)
  }

  /** Which calls write what. */
  lemma CallKinds(d: Key, t: Thread)
    ensures var req := Call(d, t);
            && !req.UpdatePool?
            && (req.UpdatePoolStatus? <==> t.PutRelease? || t.PutBeg?)
            && (req.UpdateDeployer? <==> t.AddFinalizer? || t.DropFinalizer?)
            && (req.UpdateDeployerStatus? <==>
                  t.Park? || t.Commit? || t.AnnounceJob? || t.AnnounceSet? || t.Publish?)
            && (req.UpdateDeployer? || req.UpdateDeployerStatus? ==> req.d == d)
            && (req.DeleteJob? <==> t.DropOldJob?) && (req.CreateJob? <==> t.MakeJob?)
  {
  }

  function Resume(d: Key, t: Thread, r: Response): Thread {
    match t
    case Idle => if r.GotDeployer? then Begin(r.deployer, r.ver) else Idle
    case AddFinalizer(mem, _) => if r.AckAt? then Route(Updated(mem), r.ver) else Idle
    case Park(_, _) => Idle
    case FindOldJob(mem, ver) =>
      if r == Exists(true) then DropOldJob(mem, ver)
      else if r == Exists(false) then EnterRelease(mem, ver, NextRound)
      else Idle
    case DropOldJob(mem, ver) => if r.Ack? then EnterRelease(mem, ver, NextRound) else Idle
    case FindDeployment(mem, ver) =>
      if r == Exists(true) then DropDeployment(mem, ver)
      else if r == Exists(false) then EnterRelease(mem, ver, NextRound)
      else Idle
    case DropDeployment(mem, ver) => if r.Ack? then EnterRelease(mem, ver, NextRound) else Idle
    case ReadHeld(mem, ver, tries, goal) =>
      if !r.GotPool? then Idle
      else if Holds(r.pool.usage, d) then PutRelease(mem, ver, tries, goal, r.pool, r.ver)
      else AfterRelease(mem, ver, goal)
    case PutRelease(mem, ver, tries, goal, _, _) =>
      if r.AckAt? then AfterRelease(mem, ver, goal)
      else if r.Conflict? && tries > 1 then ReadHeld(mem, ver, tries - 1, goal)
      else Idle
    case ReadWanted(mem, ver, tries) =>
      if !r.GotPool? then Idle
      else if r.pool.free.None? then Broken(t)            // a nil Free panics; recover publishes
      else if !Affords(r.pool.free.value, Charge(mem.spec.containers)) then Idle
      else PutBeg(mem, ver, tries, r.pool, r.ver)
    case PutBeg(mem, ver, tries, _, _) =>
      if r.AckAt? then Commit(mem.(held := mem.spec.resourcePool), ver)
      else if r.Conflict? && tries > 1 then ReadWanted(mem, ver, tries - 1)
      else Idle
    case Commit(_, _) => Idle
    case FindJob(mem, ver) =>
      if r == Exists(true) then WatchJob(mem, ver)
      else if r == Exists(false) then AnnounceJob(WithStatus(mem, Pending), ver)
      else Broken(t)
    case AnnounceJob(mem, ver) => Lookup(mem, if r.AckAt? then r.ver else ver)
    case Lookup(mem, ver) =>
      if r == Exists(true) then Publish(mem, ver)
      else if r == Exists(false) then MakeJob(mem, ver)
      else Broken(t)
    case MakeJob(mem, ver) => if r.Ack? then Publish(mem, ver) else Broken(t)
    case WatchJob(mem, ver) => if r.Pods? then Publish(WithStatus(mem, StatusOf(r.pods)), ver) else Broken(t)
    case FindSet(mem, ver) =>
      if r == Exists(true) then FindService(mem, ver)
      else if r == Exists(false) then AnnounceSet(WithStatus(mem, Pending), ver)
      else Broken(t)
    case AnnounceSet(mem, ver) => LookupSet(mem, if r.AckAt? then r.ver else ver)
    case LookupSet(mem, ver) =>
      if r == Exists(true) then DropSet(mem, ver)
      else if r == Exists(false) then MakeSet(mem, ver)
      else Broken(t)
    case DropSet(mem, ver) => if r.Ack? then MakeSet(mem, ver) else Broken(t)
    case MakeSet(mem, ver) => if r.Ack? then Publish(mem, ver) else Broken(t)
    case FindService(mem, ver) =>
      if r == Exists(true) then UpdateService(mem, ver)
      else if r == Exists(false) then LookupService(mem, ver)
      else Broken(t)
    case UpdateService(mem, ver) => if r.Ack? then WatchSet(mem, ver) else Broken(t)
    case LookupService(mem, ver) =>
      if r == Exists(true) then DropService(mem, ver)
      else if r == Exists(false) then MakeService(mem, ver)
      else Broken(t)
    case DropService(mem, ver) => if r.Ack? then MakeService(mem, ver) else Broken(t)
    case MakeService(mem, ver) => if r.Ack? then WatchSet(mem, ver) else Broken(t)
    case WatchSet(mem, ver) => if r.Pods? then Publish(WithStatus(mem, StatusOf(r.pods)), ver) else Broken(t)
    case Publish(_, _) => Idle
    case DropFinalizer(_, _) => Idle
  }
}
