/** Optimistic concurrency refines atomicity: whatever versions the reconciles read, the accepted writes
    of a pool act as atomic operations in write order. */
module Refinement {
  import opened Objects
  import opened Quantities
  import opened Ledger
  import opened Api
  import opened DeployerThread
  import opened PoolThread
  import opened Cluster

  predicate IsVersion<T(==)>(h: Versions<T>, ver: nat, x: T) {
    ver < |h| && h[ver] == Some(x)
  }

  /** A version without the pool follows only a version without reservations. */
  predicate RemovedEmpty(h: Versions<Pool>) {
    forall i | 0 <= i < |h| - 1 :: h[i].Some? && h[i + 1].None? ==> h[i].value.usage == []
  }

  /** The books of a pool: its current version is what its log of atomic operations leaves. */
  predicate InBooks(s: State, p: string) {
    && LegalRun(OpsOf(s, p)) && Replay(OpsOf(s, p)) == PoolNow(s.store, p)
    && RemovedEmpty(PoolVersions(s.store, p))
  }

  /** A pool write in flight was computed from a version that really existed. */
  predicate WriteSound(s: State, d: Key) {
    match ThreadOf(s, d)
    case PutRelease(mem, _, _, _, snap, pver) =>
      IsVersion(PoolVersions(s.store, mem.held), pver, snap) && Holds(snap.usage, d)
    case PutBeg(mem, _, _, snap, pver) =>
      && IsVersion(PoolVersions(s.store, mem.spec.resourcePool), pver, snap)
      && snap.free.Some? && Affords(snap.free.value, Charge(mem.spec.containers))
    case _ => true
  }

  predicate KeeperSound(s: State, p: string) {
    var h := PoolVersions(s.store, p);
    match KeeperOf(s, p)
    case Resting => true
    case GuardPool(mem, ver) =>
      ver < |h| && h[ver].Some? && !mem.deleting && mem == h[ver].value.(finalizer := true)
    case RemovePool(mem, ver) => IsVersion(h, ver, mem) && mem.deleting && mem.usage == []
    case StoreFree(mem, ver, free) =>
      && IsVersion(h, ver, mem) && !mem.deleting && mem.finalizer
      && free == Remaining(mem.capacity, mem.usage) && Affords(free, Resource(0, 0))
  }

  ghost predicate Sound(s: State) {
    && (forall p :: InBooks(s, p))
    && (forall d :: WriteSound(s, d))
    && (forall p :: KeeperSound(s, p))
  }

  /** Versions are only ever added. */
  ghost predicate Grows(st: Store, st': Store) {
    && (forall p :: PoolVersions(st, p) <= PoolVersions(st', p))
    && (forall d :: DeployerVersions(st, d) <= DeployerVersions(st', d))
  }

  lemma AfterGrows(st: Store, req: Request, ch: Choice)
    ensures Grows(st, After(st, req, ch))
  {
  }

  lemma StepGrows(s: State, a: Action)
    ensures Grows(s.store, Apply(s, a).store)
  {
    match a {
      case DeployerTurn(d, ch) => AfterGrows(s.store, Call(d, ThreadOf(s, d)), ch);
      case PoolTurn(p, ch) => AfterGrows(s.store, CallPool(p, KeeperOf(s, p)), ch);
      case _ => EnvironmentGrows(s, a);
    }
  }

  lemma EnvironmentGrows(s: State, a: Action)
    requires !a.DeployerTurn? && !a.PoolTurn?
    ensures Grows(s.store, StoreAfter(s, a))
  {
  }

  lemma WriteSoundStays(s: State, s': State, d: Key)
    requires WriteSound(s, d) && Grows(s.store, s'.store) && ThreadOf(s, d) == ThreadOf(s', d)
    ensures WriteSound(s', d)
  {
    match ThreadOf(s, d)
    case PutRelease(mem, _, _, _, _, _) => assert PoolVersions(s.store, mem.held) <= PoolVersions(s'.store, mem.held);
    case PutBeg(mem, _, _, _, _) =>
      assert PoolVersions(s.store, mem.spec.resourcePool) <= PoolVersions(s'.store, mem.spec.resourcePool);
    case _ =>
  }

  lemma KeeperSoundStays(s: State, s': State, p: string)
    requires KeeperSound(s, p) && Grows(s.store, s'.store) && KeeperOf(s, p) == KeeperOf(s', p)
    ensures KeeperSound(s', p)
  {
    assert PoolVersions(s.store, p) <= PoolVersions(s'.store, p);
  }

  /** What a step does to the pools: nothing, or one legal atomic operation on one of them. */
  predicate PoolStep(s: State, st': Store, op: Option<(string, PoolOp)>) {
    match op
    case None => st'.pools == s.store.pools
    case Some((p, o)) =>
      && st'.pools == s.store.pools[p := PoolVersions(st', p)]
      && Legal(PoolNow(s.store, p), o)
      && PoolNow(st', p) == Effect(PoolNow(s.store, p), o)
      && (PoolVersions(st', p) == PoolVersions(s.store, p)
          || PoolVersions(st', p) == PoolVersions(s.store, p) + [PoolNow(st', p)])
  }

  /** A deployer's write to a pool, if accepted, is the atomic operation it stands for. */
  lemma DeployerPoolStep(s: State, d: Key, ch: Choice)
    requires WriteSound(s, d)
    ensures var a := DeployerTurn(d, ch); PoolStep(s, StoreAfter(s, a), OpOf(s, a))
  {
    var t := ThreadOf(s, d);
    match t {
      case PutRelease(_, _, _, _, _, _) => ReleasePoolStep(s, d, ch);
      case PutBeg(_, _, _, _, _) => BegPoolStep(s, d, ch);
      case _ => LeavesPools(s.store, d, t, ch);
    }
  }

  lemma ReleasePoolStep(s: State, d: Key, ch: Choice)
    requires WriteSound(s, d) && ThreadOf(s, d).PutRelease?
    ensures var a := DeployerTurn(d, ch); PoolStep(s, StoreAfter(s, a), OpOf(s, a))
  {
  }

  lemma BegPoolStep(s: State, d: Key, ch: Choice)
    requires WriteSound(s, d) && ThreadOf(s, d).PutBeg?
    ensures var a := DeployerTurn(d, ch); PoolStep(s, StoreAfter(s, a), OpOf(s, a))
  {
  }

  lemma LeavesPools(st: Store, d: Key, t: Thread, ch: Choice)
    requires !t.PutRelease? && !t.PutBeg?
    ensures After(st, Call(d, t), ch).pools == st.pools
  {
    CallKinds(d, t);
    AfterFrame(st, Call(d, t), ch);
  }

  lemma OtherDeployerUntouched(st: Store, d: Key, t: Thread, ch: Choice, e: Key)
    requires d != e
    ensures DeployerVersions(After(st, Call(d, t), ch), e) == DeployerVersions(st, e)
  {
    CallKinds(d, t);
    AfterFrame(st, Call(d, t), ch);
  }

  /** A pool reconcile touches nothing but its pool. */
  lemma PoolTurnFrame(st: Store, p: string, k: Keeper, ch: Choice)
    ensures After(st, CallPool(p, k), ch).jobs == st.jobs && After(st, CallPool(p, k), ch).deployers == st.deployers
  {
    AfterFrame(st, CallPool(p, k), ch);
  }

  lemma KeeperPoolStep(s: State, p: string, ch: Choice)
    requires KeeperSound(s, p)
    ensures var a := PoolTurn(p, ch); PoolStep(s, StoreAfter(s, a), OpOf(s, a))
  {
  }

  lemma EnvironmentPoolStep(s: State, a: Action)
    requires !a.DeployerTurn? && !a.PoolTurn? && forall p :: InBooks(s, p)
    ensures PoolStep(s, StoreAfter(s, a), OpOf(s, a))
  {
    if a.DeletePool? && PoolNow(s.store, a.p).Some? {
      assert InBooks(s, a.p);
      UsageIsGuarded(OpsOf(s, a.p));
    }
  }

  lemma StepPools(s: State, a: Action)
    requires Sound(s)
    ensures PoolStep(s, Apply(s, a).store, OpOf(s, a))
  {
    match a {
      case DeployerTurn(d, ch) => assert WriteSound(s, d); DeployerPoolStep(s, d, ch);
      case PoolTurn(p, ch) => assert KeeperSound(s, p); KeeperPoolStep(s, p, ch);
      case _ => EnvironmentPoolStep(s, a);
    }
  }

  lemma StepInBooks(s: State, a: Action)
    requires Sound(s)
    ensures forall p :: InBooks(Apply(s, a), p)
  {
    StepPools(s, a);
    forall p ensures InBooks(Apply(s, a), p) {
      assert InBooks(s, p);
      PoolStepInBooks(s, a, p);
    }
  }

  lemma PoolStepInBooks(s: State, a: Action, p: string)
    requires InBooks(s, p) && PoolStep(s, Apply(s, a).store, OpOf(s, a))
    ensures InBooks(Apply(s, a), p)
  {
    var op, s' := OpOf(s, a), Apply(s, a);
    if op.Some? && op.value.0 == p {
      var ops, h, h' := OpsOf(s, p), PoolVersions(s.store, p), PoolVersions(s'.store, p);
      RunSnoc(ops, op.value.1);
      assert OpsOf(s', p) == ops + [op.value.1];
      RemovedSnoc(h, Effect(Latest(h), op.value.1));
    } else {
      assert OpsOf(s', p) == OpsOf(s, p) && PoolVersions(s'.store, p) == PoolVersions(s.store, p);
    }
  }

  lemma RemovedSnoc(h: Versions<Pool>, x: Option<Pool>)
    requires RemovedEmpty(h) && (Latest(h).Some? && x.None? ==> Latest(h).value.usage == [])
    ensures RemovedEmpty(h + [x])
  {
    forall i | 0 <= i < |h| && (h + [x])[i].Some? && (h + [x])[i + 1].None?
      ensures (h + [x])[i].value.usage == []
    {
      if i < |h| - 1 { assert h[i].Some? && h[i + 1].None?; }
    }
  }

  /** Only a pool read leads to a pool write. */
  lemma PutsFollowReads(d: Key, t: Thread, r: Response)
    ensures var t' := Resume(d, t, r);
            && (t'.PutRelease? ==> t.ReadHeld? && r.GotPool? && Holds(r.pool.usage, d)
                                   && t'.mem == t.mem && t'.snap == r.pool && t'.pver == r.ver)
            && (t'.PutBeg? ==> t.ReadWanted? && r.GotPool? && r.pool.free.Some?
                               && Affords(r.pool.free.value, Charge(t.mem.spec.containers))
                               && t'.mem == t.mem && t'.snap == r.pool && t'.pver == r.ver)
  {
  }

  lemma ReadIsVersion(st: Store, p: string, ch: Choice)
    ensures var r := Answer(st, GetPool(p), ch);
            r.GotPool? ==> IsVersion(PoolVersions(st, p), r.ver, r.pool)
    ensures After(st, GetPool(p), ch) == st
  {
  }

  /** What a deployer reconcile is about to write was read. */
  lemma DeployerTurnSound(s: State, d: Key, ch: Choice)
    ensures WriteSound(Apply(s, DeployerTurn(d, ch)), d)
  {
    var t := ThreadOf(s, d);
    var r := Answer(s.store, Call(d, t), ch);
    PutsFollowReads(d, t, r);
    var t' := Resume(d, t, r);
    assert ThreadOf(Apply(s, DeployerTurn(d, ch)), d) == t';
    if t'.PutRelease? {
      ReadIsVersion(s.store, t.mem.held, ch);
    } else if t'.PutBeg? {
      ReadIsVersion(s.store, t.mem.spec.resourcePool, ch);
    }
  }

  lemma PoolTurnSound(s: State, p: string, ch: Choice)
    requires KeeperSound(s, p)
    ensures KeeperSound(Apply(s, PoolTurn(p, ch)), p)
  {
  }

  /** An action moves no reconcile but its own. */
  lemma OthersStay(s: State, a: Action)
    ensures forall d | ThreadOf(Apply(s, a), d) != ThreadOf(s, d) ::
              (a.DeployerTurn? || a.DeployerCrash?) && a.d == d
    ensures forall p | KeeperOf(Apply(s, a), p) != KeeperOf(s, p) ::
              (a.PoolTurn? || a.PoolCrash?) && a.p == p
  {
  }

  lemma StepSound(s: State, a: Action)
    requires Sound(s)
    ensures Sound(Apply(s, a))
  {
    var s' := Apply(s, a);
    StepGrows(s, a);
    StepInBooks(s, a);
    OthersStay(s, a);
    forall d ensures WriteSound(s', d) {
      assert WriteSound(s, d);
      if ThreadOf(s', d) == ThreadOf(s, d) {
        WriteSoundStays(s, s', d);
      } else if a.DeployerTurn? {
        DeployerTurnSound(s, d, a.ch);
      }
    }
    forall p ensures KeeperSound(s', p) {
      assert KeeperSound(s, p);
      if KeeperOf(s', p) == KeeperOf(s, p) {
        KeeperSoundStays(s, s', p);
      } else if a.PoolTurn? {
        PoolTurnSound(s, p, a.ch);
      }
    }
  }

  lemma {:induction false} RunSound(acts: seq<Action>)
    ensures Sound(Exec(acts))
    decreases |acts|
  {
    if acts != [] {
      RunSound(acts[..|acts| - 1]);
      StepSound(Exec(acts[..|acts| - 1]), acts[|acts| - 1]);
    }
  }

  /** Optimistic concurrency refines atomicity: in every run, with any stale reads, refusals and lost
      answers, a pool is what its accepted writes leave as atomic operations in write order, and each
      of them was legal on the version it met. */
  lemma {:induction false} RefinesAtomic(acts: seq<Action>, p: string)
    ensures LegalRun(OpsOf(Exec(acts), p))
    ensures Replay(OpsOf(Exec(acts), p)) == PoolNow(Exec(acts).store, p)
  {
    RunSound(acts);
    assert InBooks(Exec(acts), p);
  }

  /** A pool is never removed while it holds reservations, whatever begs land on it meanwhile. */
  lemma {:induction false} PoolRemovedEmpty(acts: seq<Action>, p: string, i: nat)
    requires var h := PoolVersions(Exec(acts).store, p); i + 1 < |h| && h[i].Some? && h[i + 1].None?
    ensures PoolVersions(Exec(acts).store, p)[i].value.usage == []
  {
    RunSound(acts);
    assert InBooks(Exec(acts), p);
  }
}
