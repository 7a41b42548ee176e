/** The whole system: the store, every reconcile in flight, and everyone else who acts on the objects.
    An action is one API call of one reconcile, or one act of the environment; a run is any sequence of
    actions from the empty cluster, so all interleavings, failures and stale reads are runs. */
module Cluster {
  import opened Objects
  import opened Quantities
  import opened Ledger
  import opened Api
  import opened DeployerThread
  import opened PoolThread

  /** Book-keeping of the model, per deployer name: reservations begged, reservations a final status
      write made known, releases that landed, releases that overlooked an entry, removals that stranded one. */
  datatype Tally = Tally(begged: nat, kept: nat, returned: nat, missed: nat, dropped: nat)

  const NO_TALLY := Tally(0, 0, 0, 0, 0)

  datatype State = State(
    store: Store,
    threads: map<Key, Thread>,
    keepers: map<string, Keeper>,
    ops: map<string, seq<PoolOp>>,        // the accepted writes of each pool, in order
    tally: map<Key, Tally>)

  const EMPTY := State(Store(map[], map[], map[], {}), map[], map[], map[], map[])

  datatype Action =
    | DeployerTurn(d: Key, ch: Choice)
    | DeployerCrash(d: Key)
    | PoolTurn(p: string, ch: Choice)
    | PoolCrash(p: string)
    | CreateDeployer(d: Key, spec: DeployerSpec)
    | EditDeployer(d: Key, spec: DeployerSpec, keepFinalizer: bool)
    | DeleteDeployer(d: Key)
    | CreatePool(p: string, capacity: Resource)
    | EditPool(p: string, capacity: Resource)
    | DeletePool(p: string)
    | LoseJob(j: Key)                     // garbage collection, a TTL, or a client
    | LoseSet(k: Key)

  function ThreadOf(s: State, d: Key): Thread {
    if d in s.threads then s.threads[d] else Idle
  }

  function KeeperOf(s: State, p: string): Keeper {
    if p in s.keepers then s.keepers[p] else Resting
  }

  function OpsOf(s: State, p: string): seq<PoolOp> {
    if p in s.ops then s.ops[p] else []
  }

  function TallyOf(s: State, d: Key): Tally {
    if d in s.tally then s.tally[d] else NO_TALLY
  }

  /* ---- the store, action by action ---- */

  function Stored(st: Store, d: Key, x: Option<Deployer>): Store {
    WriteDeployer(st, d, Put(DeployerVersions(st, d), x, false))
  }

  function PoolStored(st: Store, p: string, x: Option<Pool>): Store {
    WritePool(st, p, Put(PoolVersions(st, p), x, false))
  }

  function NewDeployer(spec: DeployerSpec): Deployer {
    Deployer(spec, BLANK, "", false, false)
  }

  function NewPool(capacity: Resource): Pool {
    Pool(capacity, [], None, false, false)
  }

  /** A client update replaces the spec; one built from scratch, as the workflow controller's is, also
      loses the finalizer. */
  function EditOf(x: Deployer, spec: DeployerSpec, keepFinalizer: bool): Option<Deployer> {
    Kept(x.(spec := spec, finalizer := x.finalizer && keepFinalizer))
  }

  function DeletionOf(x: Deployer): Option<Deployer> {
    Kept(x.(deleting := true))
  }

  function StoreAfter(s: State, a: Action): Store {
    match a
    case DeployerTurn(d, ch) => After(s.store, Call(d, ThreadOf(s, d)), ch)
    case PoolTurn(p, ch) => After(s.store, CallPool(p, KeeperOf(s, p)), ch)
    case DeployerCrash(_) => s.store
    case PoolCrash(_) => s.store
    case CreateDeployer(d, spec) =>
      if DeployerNow(s.store, d).Some? then s.store else Stored(s.store, d, Some(NewDeployer(spec)))
    case EditDeployer(d, spec, keep) =>
      var now := DeployerNow(s.store, d);
      if now.None? then s.store else Stored(s.store, d, EditOf(now.value, spec, keep))
    case DeleteDeployer(d) =>
      var now := DeployerNow(s.store, d);
      if now.None? then s.store else Stored(s.store, d, DeletionOf(now.value))
    case CreatePool(p, c) =>
      if PoolNow(s.store, p).Some? || p == "" then s.store else PoolStored(s.store, p, Some(NewPool(c)))
    case EditPool(p, c) =>
      var now := PoolNow(s.store, p);
      if now.None? then s.store else PoolStored(s.store, p, Some(now.value.(capacity := c)))
    case DeletePool(p) =>
      var now := PoolNow(s.store, p);
      if now.None? then s.store else PoolStored(s.store, p, KeptPool(now.value.(deleting := true)))
    case LoseJob(j) => s.store.(jobs := s.store.jobs - {j})
    case LoseSet(k) => s.store.(sets := s.store.sets - {k})
  }

  /* ---- the reconciles ---- */

  function ThreadsAfter(s: State, a: Action): map<Key, Thread> {
    match a
    case DeployerTurn(d, ch) =>
      var t := ThreadOf(s, d);
      s.threads[d := Resume(d, t, Answer(s.store, Call(d, t), ch))]
    case DeployerCrash(d) => s.threads[d := Idle]
    case _ => s.threads
  }

  function KeepersAfter(s: State, a: Action): map<string, Keeper> {
    match a
    case PoolTurn(p, ch) =>
      var k := KeeperOf(s, p);
      s.keepers[p := ResumePool(k, Answer(s.store, CallPool(p, k), ch))]
    case PoolCrash(p) => s.keepers[p := Resting]
    case _ => s.keepers
  }

  /* ---- the books ---- */

  /** The pool write an action makes, as the atomic operation it stands for. */
  function OpOf(s: State, a: Action): Option<(string, PoolOp)> {
    match a
    case DeployerTurn(d, ch) =>
      var t := ThreadOf(s, d);
      if !Lands(s.store, Call(d, t), ch) then None
      else if t.PutRelease? then Some((t.mem.held, Return(d)))
      else if t.PutBeg? then Some((t.mem.spec.resourcePool, Grant(d, Charge(t.mem.spec.containers))))
      else None
    case PoolTurn(p, ch) =>
      var k := KeeperOf(s, p);
      if !Lands(s.store, CallPool(p, k), ch) then None
      else if k.GuardPool? then Some((p, Guard))
      else if k.RemovePool? then Some((p, Remove))
      else Some((p, Sync))
    case CreatePool(p, c) => if PoolNow(s.store, p).Some? || p == "" then None else Some((p, Create(c)))
    case EditPool(p, c) => if PoolNow(s.store, p).None? then None else Some((p, Resize(c)))
    case DeletePool(p) => if PoolNow(s.store, p).None? then None else Some((p, Doom))
    case _ => None
  }

  datatype Note = Begged | KeptIt | GaveBack | Missed | Dropped

  /** The release about to report success leaves an entry behind: the version it read was too old. */
  predicate Overlooks(s: State, d: Key, t: Thread, r: Response) {
    t.ReadHeld? && r.GotPool? && !Holds(r.pool.usage, d) && Holds(UsageNow(s.store, t.mem.held), d)
  }

  /** The deployer's removal, not preceded by finalization, leaves an entry in the pool it holds. */
  predicate Strands(s: State, d: Key, x: Deployer, left: Option<Deployer>) {
    left.None? && Holds(UsageNow(s.store, x.held), d)
  }

  function NoteOf(s: State, a: Action): Option<(Key, Note)> {
    match a
    case DeployerTurn(d, ch) =>
      var t := ThreadOf(s, d);
      if Lands(s.store, Call(d, t), ch) && t.PutBeg? then Some((d, Begged))
      else if Lands(s.store, Call(d, t), ch) && t.Commit? then Some((d, KeptIt))
      else if Lands(s.store, Call(d, t), ch) && t.PutRelease? then Some((d, GaveBack))
      else if Overlooks(s, d, t, Answer(s.store, Call(d, t), ch)) then Some((d, Missed))
      else None
    case EditDeployer(d, spec, keep) =>
      var now := DeployerNow(s.store, d);
      if now.Some? && Strands(s, d, now.value, EditOf(now.value, spec, keep)) then Some((d, Dropped)) else None
    case DeleteDeployer(d) =>
      var now := DeployerNow(s.store, d);
      if now.Some? && Strands(s, d, now.value, DeletionOf(now.value)) then Some((d, Dropped)) else None
    case _ => None
  }

  function Bump(n: Tally, note: Note): Tally {
    match note
    case Begged => n.(begged := n.begged + 1)
    case KeptIt => n.(kept := n.kept + 1)
    case GaveBack => n.(returned := n.returned + 1)
    case Missed => n.(missed := n.missed + 1)
    case Dropped => n.(dropped := n.dropped + 1)
  }

  function Logged(s: State, op: Option<(string, PoolOp)>): map<string, seq<PoolOp>> {
    if op.None? then s.ops else s.ops[op.value.0 := OpsOf(s, op.value.0) + [op.value.1]]
  }

  function Tallied(s: State, note: Option<(Key, Note)>): map<Key, Tally> {
    if note.None? then s.tally else s.tally[note.value.0 := Bump(TallyOf(s, note.value.0), note.value.1)]
  }

  function Apply(s: State, a: Action): State {
    State(StoreAfter(s, a), ThreadsAfter(s, a), KeepersAfter(s, a), Logged(s, OpOf(s, a)), Tallied(s, NoteOf(s, a)))
  }

  /** Where a run leads. */
  function Exec(acts: seq<Action>): State {
    if acts == [] then EMPTY else Apply(Exec(acts[..|acts| - 1]), acts[|acts| - 1])
  }
}
