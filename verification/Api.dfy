/** The API server as the controllers see it: versioned objects, optimistic updates, requests that may
    be refused, and answers that may be lost. */
module Api {
  import opened Objects
  import opened Pods

  datatype Job = Job(owner: Key, round: int, pod: PodSpec)

  datatype Store = Store(
    pools: map<string, Versions<Pool>>,
    deployers: map<Key, Versions<Deployer>>,
    jobs: map<Key, Job>,
    sets: set<Key>)                       // StatefulSets, by name

  function PoolVersions(st: Store, p: string): Versions<Pool> {
    if p in st.pools then st.pools[p] else []
  }

  function DeployerVersions(st: Store, d: Key): Versions<Deployer> {
    if d in st.deployers then st.deployers[d] else []
  }

  /** The pool as it is stored now. */
  function PoolNow(st: Store, p: string): Option<Pool> {
    Latest(PoolVersions(st, p))
  }

  function DeployerNow(st: Store, d: Key): Option<Deployer> {
    Latest(DeployerVersions(st, d))
  }

  function UsageNow(st: Store, p: string): seq<UsageEntry> {
    if PoolNow(st, p).Some? then PoolNow(st, p).value.usage else []
  }

  datatype Verb = Getting | Updating | Seeking | Deleting | Creating

  datatype Request =
    | GetDeployer(d: Key)
    | UpdateDeployer(d: Key, finalizer: bool, ver: nat)
    | UpdateDeployerStatus(d: Key, status: CommonStatus, held: string, ver: nat)
    | GetPool(p: string)
    | UpdatePool(p: string, finalizer: bool, ver: nat)
    | UpdatePoolStatus(p: string, usage: seq<UsageEntry>, free: Option<Resource>, ver: nat)
    | GetJob(j: Key)
    | LookupJob(j: Key)                   // the uncached lookup of CreateResource
    | DeleteJob(j: Key)
    | CreateJob(j: Key, job: Job)
    | ListPods
    | GetDeployment(k: Key)
    | DeleteDeployment(k: Key)
    | GetSet(k: Key)
    | LookupStatefulSet(k: Key)
    | DeleteSet(k: Key)
    | CreateSet(k: Key)
    | AskService(verb: Verb, k: Key)

  datatype Response =
    | Refusal                             // any error but a conflict
    | Conflict
    | Ack
    | AckAt(ver: nat)
    | GotDeployer(deployer: Deployer, ver: nat)
    | GotPool(pool: Pool, ver: nat)
    | Exists(found: bool)
    | Pods(pods: PodList)

  datatype Fate = Refused | Lost | Served

  /** How one request goes. `Lost`: it takes effect but the client is told it failed. `index`: the
      version a read returns. `quiet`: a write that changes nothing keeps the version. `seen`: what a
      cached existence check reports. */
  datatype Choice = Choice(fate: Fate, index: nat, quiet: bool, seen: bool, pods: PodList)

  const FAILURE := Choice(Refused, 0, false, false, None)

  /** The same for a machine whose other calls are abstract: `reply` is what such a call gets. */
  datatype Luck<T> = Luck(fate: Fate, index: nat, quiet: bool, reply: T)

  /** Reads return some version of the object, not necessarily the latest. */
  function Read<T>(h: Versions<T>, index: nat): Option<(T, nat)> {
    if h == [] then None
    else
      var i := if index < |h| then index else |h| - 1;
      if h[i].Some? then Some((h[i].value, i)) else None
  }

  /** An object marked for deletion goes when its finalizer does. */
  function Kept(x: Deployer): Option<Deployer> {
    if x.deleting && !x.finalizer then None else Some(x)
  }

  function KeptPool(x: Pool): Option<Pool> {
    if x.deleting && !x.finalizer then None else Some(x)
  }


  /** The object a deployer request writes, given the stored one. A status write touches the status only;
      an update sends the whole object, so it also defaults a round of 0. */
  function RevisedDeployer(x: Deployer, req: Request): Option<Deployer>
    requires req.UpdateDeployer? || req.UpdateDeployerStatus?
  {
    if req.UpdateDeployer? then Kept(x.(finalizer := req.finalizer, spec := x.spec.(round := Defaulted(x.spec.round))))
    else Some(x.(status := req.status, held := req.held))
  }

  function RevisedPool(x: Pool, req: Request): Option<Pool>
    requires req.UpdatePool? || req.UpdatePoolStatus?
  {
    if req.UpdatePool? then KeptPool(x.(finalizer := req.finalizer))
    else Some(x.(usage := req.usage, free := req.free))
  }

  /** The request is a versioned write, and this choice lets it take effect. */
  predicate Lands(st: Store, req: Request, ch: Choice) {
    && !ch.fate.Refused?
    && match req
       case UpdateDeployer(d, _, ver) => IsCurrent(DeployerVersions(st, d), ver)
       case UpdateDeployerStatus(d, _, _, ver) => IsCurrent(DeployerVersions(st, d), ver)
       case UpdatePool(p, _, ver) => IsCurrent(PoolVersions(st, p), ver)
       case UpdatePoolStatus(p, _, _, ver) => IsCurrent(PoolVersions(st, p), ver)
       case _ => false
  }

  function WriteDeployer(st: Store, d: Key, h: Versions<Deployer>): Store {
    st.(deployers := st.deployers[d := h])
  }

  function WritePool(st: Store, p: string, h: Versions<Pool>): Store {
    st.(pools := st.pools[p := h])
  }

  /** The store after a request. */
  function After(st: Store, req: Request, ch: Choice): Store {
    if ch.fate.Refused? then st else
    match req
    case UpdateDeployer(d, _, ver) =>
      var h := DeployerVersions(st, d);
      if Lands(st, req, ch) then WriteDeployer(st, d, Put(h, RevisedDeployer(h[ver].value, req), ch.quiet)) else st
    case UpdateDeployerStatus(d, _, _, ver) =>
      var h := DeployerVersions(st, d);
      if Lands(st, req, ch) then WriteDeployer(st, d, Put(h, RevisedDeployer(h[ver].value, req), ch.quiet)) else st
    case UpdatePool(p, _, ver) =>
      var h := PoolVersions(st, p);
      if Lands(st, req, ch) then WritePool(st, p, Put(h, RevisedPool(h[ver].value, req), ch.quiet)) else st
    case UpdatePoolStatus(p, _, _, ver) =>
      var h := PoolVersions(st, p);
      if Lands(st, req, ch) then WritePool(st, p, Put(h, RevisedPool(h[ver].value, req), ch.quiet)) else st
    case DeleteJob(j) => st.(jobs := st.jobs - {j})
    case CreateJob(j, job) => if j in st.jobs then st else st.(jobs := st.jobs[j := job])
    case DeleteSet(k) => st.(sets := st.sets - {k})
    case CreateSet(k) => st.(sets := st.sets + {k})
    case _ => st
  }

  /** What a request of another kind leaves alone. */
  lemma AfterFrame(st: Store, req: Request, ch: Choice)
    ensures !req.UpdatePool? && !req.UpdatePoolStatus? ==> After(st, req, ch).pools == st.pools
    ensures !req.UpdateDeployer? && !req.UpdateDeployerStatus? ==> After(st, req, ch).deployers == st.deployers
    ensures !req.DeleteJob? && !req.CreateJob? ==> After(st, req, ch).jobs == st.jobs
    ensures !req.UpdatePool? && !req.UpdatePoolStatus? && !req.UpdateDeployer? && !req.UpdateDeployerStatus? ==>
              !Lands(st, req, ch)
  {
  }

  function DeployerVerdict(st: Store, d: Key, req: Request, ch: Choice): Response {
    Verdict(DeployerVersions(st, d), DeployerVersions(After(st, req, ch), d), Lands(st, req, ch))
  }

  function PoolVerdict(st: Store, p: string, req: Request, ch: Choice): Response {
    Verdict(PoolVersions(st, p), PoolVersions(After(st, req, ch), p), Lands(st, req, ch))
  }

  /** What the client is told. */
  function Answer(st: Store, req: Request, ch: Choice): Response {
    if !ch.fate.Served? then Refusal else
    match req
    case GetDeployer(d) =>
      var r := Read(DeployerVersions(st, d), ch.index);
      if r.Some? then GotDeployer(r.value.0, r.value.1) else Refusal
    case GetPool(p) =>
      var r := Read(PoolVersions(st, p), ch.index);
      if r.Some? then GotPool(r.value.0, r.value.1) else Refusal
    case UpdateDeployer(d, _, _) => DeployerVerdict(st, d, req, ch)
    case UpdateDeployerStatus(d, _, _, _) => DeployerVerdict(st, d, req, ch)
    case UpdatePool(p, _, _) => PoolVerdict(st, p, req, ch)
    case UpdatePoolStatus(p, _, _, _) => PoolVerdict(st, p, req, ch)
    case GetJob(_) => Exists(ch.seen)
    case LookupJob(j) => Exists(j in st.jobs)
    case DeleteJob(j) => if j in st.jobs then Ack else Refusal
    case CreateJob(j, _) => if j in st.jobs then Refusal else Ack
    case ListPods => Pods(ch.pods)
    case GetDeployment(_) => Exists(ch.seen)
    case DeleteDeployment(_) => Ack
    case GetSet(_) => Exists(ch.seen)
    case LookupStatefulSet(k) => Exists(k in st.sets)
    case DeleteSet(k) => if k in st.sets then Ack else Refusal
    case CreateSet(k) => if k in st.sets then Refusal else Ack
    case AskService(verb, _) => if verb.Getting? || verb.Seeking? then Exists(ch.seen) else Ack
  }

  function Verdict<T>(before: Versions<T>, after: Versions<T>, landed: bool): Response {
    if landed && after != [] then AckAt(|after| - 1)
    else if Latest(before).Some? then Conflict
    else Refusal
  }

  /** What a versioned write of a deployer comes to. */
  lemma DeployerWriteAnswer(st: Store, req: Request, ch: Choice)
    requires req.UpdateDeployer? || req.UpdateDeployerStatus?
    ensures var h, h' := DeployerVersions(st, req.d), DeployerVersions(After(st, req, ch), req.d);
            var r := Answer(st, req, ch);
            if Lands(st, req, ch) then
              && IsCurrent(h, req.ver) && h' == Put(h, RevisedDeployer(h[req.ver].value, req), ch.quiet)
              && (r.AckAt? ==> r.ver == |h'| - 1)
            else h' == h && !r.AckAt?
  {
  }
}
