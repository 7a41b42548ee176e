/** What a pool's reconcile comes to when its calls are served and it reads the latest version: stated on
    the stored pool alone. */
module PoolServed {
  import opened Objects
  import opened Quantities
  import opened Api
  import opened PoolThread
  import opened Cluster

  /** A served call; a read returns the latest version. */
  predicate Serves(ch: Choice, s: State, p: string) {
    ch.fate.Served? && ch.index + 1 >= |PoolVersions(s.store, p)|
  }

  /** What int32 arithmetic makes of a number: 2^32 is taken off, or added, until it fits. */
  function Int32Of(x: int): int32
    decreases if x < 0 then -x else x + 1
  {
    if x > 0x7fff_ffff then Int32Of(x - 0x1_0000_0000)
    else if x < -0x8000_0000 then Int32Of(x + 0x1_0000_0000)
    else x
  }

  lemma {:induction false} Int32OfIsWrap(x: int)
    ensures Int32Of(x) == Wrap32(x)
    decreases if x < 0 then -x else x + 1
  {
    if x > 0x7fff_ffff {
      Int32OfIsWrap(x - 0x1_0000_0000);
      WrapShift(x, -1);
    } else if x < -0x8000_0000 {
      Int32OfIsWrap(x + 0x1_0000_0000);
      WrapShift(x, 1);
    }
  }

  /** What is left of the pool's capacity: the int32 remainders of capacity less the summed amounts. */
  predicate Remains(x: Pool, left: Resource) {
    && left.cpu == Int32Of(x.capacity.cpu - Sum(x.usage, Cpu))
    && left.memory == Int32Of(x.capacity.memory - Sum(x.usage, Memory))
  }

  lemma RemainsIs(x: Pool, left: Resource)
    ensures Remains(x, left) <==> left == Remaining(x.capacity, x.usage)
  {
    RemainingAt(x.capacity, x.usage, Cpu);
    RemainingAt(x.capacity, x.usage, Memory);
    Int32OfIsWrap(x.capacity.cpu - Sum(x.usage, Cpu));
    Int32OfIsWrap(x.capacity.memory - Sum(x.usage, Memory));
  }

  /** The store with another version of `p`, and nothing else touched. */
  predicate OnlyPool(s: State, s': State, p: string, x: Pool) {
    && PoolNow(s'.store, p) == Some(x)
    && s'.store == s.store.(pools := s.store.pools[p := PoolVersions(s'.store, p)])
  }

  lemma GetStep(s: State, p: string, ch: Choice)
    requires KeeperOf(s, p).Resting? && PoolNow(s.store, p).Some? && Serves(ch, s, p)
    ensures var s' := Apply(s, PoolTurn(p, ch));
            && s'.store == s.store
            && KeeperOf(s', p) == BeginPool(PoolNow(s.store, p).value, |PoolVersions(s.store, p)| - 1)
  {
  }

  /** A served write of the latest version. */
  lemma WriteStep(s: State, p: string, ch: Choice)
    requires !KeeperOf(s, p).Resting? && IsCurrent(PoolVersions(s.store, p), KeeperOf(s, p).ver) && ch.fate.Served?
    ensures var s', req := Apply(s, PoolTurn(p, ch)), CallPool(p, KeeperOf(s, p));
            && s'.store == WritePool(s.store, p,
                                     Put(PoolVersions(s.store, p),
                                         RevisedPool(PoolNow(s.store, p).value, req), ch.quiet))
            && KeeperOf(s', p) == ResumePool(KeeperOf(s, p), AckAt(|PoolVersions(s'.store, p)| - 1))
  {
  }

  /** Storing Free, from a keeper that has read, or written, the latest version. */
  lemma StoreStep(s: State, p: string, ch: Choice, left: Resource)
    requires PoolNow(s.store, p).Some? && ch.fate.Served?
    requires left == Remaining(PoolNow(s.store, p).value.capacity, PoolNow(s.store, p).value.usage)
    requires KeeperOf(s, p) == Plan(PoolNow(s.store, p).value, |PoolVersions(s.store, p)| - 1)
    requires left.cpu >= 0 && left.memory >= 0
    ensures var s' := Apply(s, PoolTurn(p, ch));
            OnlyPool(s, s', p, PoolNow(s.store, p).value.(free := Some(left))) && KeeperOf(s', p).Resting?
  {
    WriteStep(s, p, ch);
  }

  lemma NegativeRests(x: Pool, ver: nat)
    requires var left := Remaining(x.capacity, x.usage); left.cpu < 0 || left.memory < 0
    ensures Plan(x, ver) == Resting
  {
  }

  /** Two served turns store Free, usage and capacity unchanged, if neither remainder is negative; otherwise
      nothing is stored. */
  lemma ServedSync(s: State, p: string, x: Pool, left: Resource, first: Choice, second: Choice)
    requires KeeperOf(s, p).Resting? && PoolNow(s.store, p) == Some(x) && !x.deleting && x.finalizer
    requires Serves(first, s, p) && Serves(second, s, p) && Remains(x, left)
    ensures var s' := Apply(Apply(s, PoolTurn(p, first)), PoolTurn(p, second));
            if left.cpu >= 0 && left.memory >= 0 then OnlyPool(s, s', p, x.(free := Some(left)))
            else s'.store == s.store
  {
    var s1 := Apply(s, PoolTurn(p, first));
    RemainsIs(x, left);
    GetStep(s, p, first);
    if left.cpu >= 0 && left.memory >= 0 {
      StoreStep(s1, p, second, left);
    } else {
      NegativeRests(x, |PoolVersions(s.store, p)| - 1);
      GetStep(s1, p, second);
    }
  }

  /** And a pool without its finalizer gets it first. */
  lemma ServedGuardAndSync(s: State, p: string, x: Pool, left: Resource, first: Choice, second: Choice, third: Choice)
    requires KeeperOf(s, p).Resting? && PoolNow(s.store, p) == Some(x) && !x.deleting && !x.finalizer
    requires Serves(first, s, p) && second.fate.Served? && third.fate.Served?
    requires third.index > |PoolVersions(s.store, p)| && Remains(x, left)
    ensures var s' := Apply(Apply(Apply(s, PoolTurn(p, first)), PoolTurn(p, second)), PoolTurn(p, third));
            OnlyPool(s, s', p, if left.cpu >= 0 && left.memory >= 0
                               then x.(finalizer := true, free := Some(left)) else x.(finalizer := true))
  {
    var s1 := Apply(s, PoolTurn(p, first));
    var s2 := Apply(s1, PoolTurn(p, second));
    RemainsIs(x.(finalizer := true), left);
    GetStep(s, p, first);
    WriteStep(s1, p, second);
    assert PoolNow(s2.store, p) == Some(x.(finalizer := true));
    if left.cpu >= 0 && left.memory >= 0 {
      StoreStep(s2, p, third, left);
    } else {
      NegativeRests(x.(finalizer := true), |PoolVersions(s2.store, p)| - 1);
      GetStep(s2, p, third);
    }
  }

  /** What containers ask for: the int32 sums of their limits. */
  predicate Needs(containers: seq<ContainerSpec>, need: Resource) {
    need.cpu == Int32Of(Demand(containers, Cpu)) && need.memory == Int32Of(Demand(containers, Memory))
  }

  lemma NeedsIs(containers: seq<ContainerSpec>, need: Resource)
    requires Needs(containers, need)
    ensures need == Charge(containers)
  {
    Int32OfIsWrap(Demand(containers, Cpu));
    Int32OfIsWrap(Demand(containers, Memory));
  }

  /** The next beg goes by the new Free: it goes on to write exactly if its amounts are within it. */
  lemma BegSeesSync(s: State, d: Key, p: string, free: Resource, need: Resource, ch: Choice)
    requires PoolNow(s.store, p).Some? && PoolNow(s.store, p).value.free == Some(free) && Serves(ch, s, p)
    requires ThreadOf(s, d).ReadWanted? && ThreadOf(s, d).mem.spec.resourcePool == p
    requires need == Charge(ThreadOf(s, d).mem.spec.containers)
    ensures var t' := ThreadOf(Apply(s, DeployerTurn(d, ch)), d);
            if need.cpu <= free.cpu && need.memory <= free.memory then
              t'.PutBeg? && t'.snap == PoolNow(s.store, p).value && t'.pver == |PoolVersions(s.store, p)| - 1
            else t'.Idle?
  {
  }

  /** End to end: a reconcile of the pool, and then a beg on it. */
  lemma SyncThenBeg(s: State, d: Key, p: string, x: Pool, left: Resource, need: Resource,
                    first: Choice, second: Choice, third: Choice)
    requires KeeperOf(s, p).Resting? && PoolNow(s.store, p) == Some(x) && !x.deleting && x.finalizer
    requires Serves(first, s, p) && Serves(second, s, p) && Remains(x, left) && left.cpu >= 0 && left.memory >= 0
    requires ThreadOf(s, d).ReadWanted? && ThreadOf(s, d).mem.spec.resourcePool == p
    requires third.fate.Served? && third.index > |PoolVersions(s.store, p)|
    requires Needs(ThreadOf(s, d).mem.spec.containers, need)
    ensures var s' := Apply(Apply(s, PoolTurn(p, first)), PoolTurn(p, second));
            ThreadOf(Apply(s', DeployerTurn(d, third)), d).PutBeg?
            <==> need.cpu <= left.cpu && need.memory <= left.memory
  {
    var s' := Apply(Apply(s, PoolTurn(p, first)), PoolTurn(p, second));
    NeedsIs(ThreadOf(s, d).mem.spec.containers, need);
    ServedSync(s, p, x, left, first, second);
    SyncedVersions(s, p, x, first, second);
    BegSeesSync(s', d, p, left, need, third);
  }

  /** Two turns add one version at most. */
  lemma SyncedVersions(s: State, p: string, x: Pool, first: Choice, second: Choice)
    requires KeeperOf(s, p).Resting?
    ensures var s' := Apply(Apply(s, PoolTurn(p, first)), PoolTurn(p, second));
            |PoolVersions(s'.store, p)| <= |PoolVersions(s.store, p)| + 1
  {
    var s1 := Apply(s, PoolTurn(p, first));
    assert s1.store == s.store;
  }

  /** The finalization gate: two served turns remove a pool marked for deletion exactly if it holds no
      reservation, and otherwise store nothing. */
  lemma ServedRemoval(s: State, p: string, x: Pool, first: Choice, second: Choice)
    requires KeeperOf(s, p).Resting? && PoolNow(s.store, p) == Some(x) && x.deleting && x.finalizer
    requires Serves(first, s, p) && Serves(second, s, p)
    ensures var s' := Apply(Apply(s, PoolTurn(p, first)), PoolTurn(p, second));
            && (PoolNow(s'.store, p).None? <==> x.usage == [])
            && (x.usage != [] ==> s'.store == s.store)
  {
    var s1 := Apply(s, PoolTurn(p, first));
    GetStep(s, p, first);
    if x.usage == [] { WriteStep(s1, p, second); } else { GetStep(s1, p, second); }
  }
}
