/** How many reservations a deployer can leave behind. */
module Leakage {
  import opened Objects
  import opened Quantities
  import opened Ledger
  import opened Api
  import opened DeployerThread
  import opened Cluster
  import opened Refinement
  import opened Totals

  /** The entries of `d` in one pool. */
  function Mine(st: Store, p: string, d: Key): seq<UsageEntry> {
    EntriesIn(PoolNow(st, p), d)
  }

  /** The number of its entries in all pools. */
  ghost function Entries(st: Store, d: Key): int {
    Total(st.pools.Keys, p => |Mine(st, p, d)|)
  }

  /** Reservations begged but not made known by a final status write, releases that overlooked an
      entry, and removals that stranded one. */
  function Slips(s: State, d: Key): int {
    var n := TallyOf(s, d);
    n.begged - n.kept + n.missed + n.dropped
  }

  /** Entries are accounted for by slips, up to one that the stored status names. */
  ghost predicate Accounted(s: State, d: Key) {
    || Entries(s.store, d) <= Slips(s, d)
    || (&& Entries(s.store, d) <= Slips(s, d) + 1
        && DeployerNow(s.store, d).Some?
        && Mine(s.store, DeployerNow(s.store, d).value.held, d) != [])
  }

  /** The reservation of the past round has been dealt with. */
  predicate Settled(t: Thread) {
    t.ReadWanted? || t.PutBeg? || t.Commit? || t.DropFinalizer?
  }

  /** What a reconcile in flight may rely on, as long as its version is current. */
  ghost predicate Carries(s: State, d: Key, t: Thread) {
    !t.Idle? ==>
      && t.ver < |DeployerVersions(s.store, d)|
      && (IsCurrent(DeployerVersions(s.store, d), t.ver) ==>
            && (|| Entries(s.store, d) <= Slips(s, d)
                || (!Settled(t) && t.mem.held == DeployerNow(s.store, d).value.held))
            && (t.Commit? ==> Mine(s.store, t.mem.held, d) != []))
  }

  ghost predicate Leak(s: State, d: Key) {
    && PoolNow(s.store, "").None?
    && Accounted(s, d)
    && Carries(s, d, ThreadOf(s, d))
    && TallyOf(s, d).kept + (if ThreadOf(s, d).Commit? then 1 else 0) <= TallyOf(s, d).begged
  }

  /* ---- how a step moves the entries ---- */

  lemma MineStep(s: State, a: Action, p: string, d: Key)
    requires Sound(s)
    ensures Mine(Apply(s, a).store, p, d) ==
            if OpOf(s, a).Some? && OpOf(s, a).value.0 == p then QueueStep(Mine(s.store, p, d), OpOf(s, a).value.1, d)
            else Mine(s.store, p, d)
  {
    StepPools(s, a);
    if OpOf(s, a).Some? && OpOf(s, a).value.0 == p {
      EffectOnEntries(PoolNow(s.store, p), OpOf(s, a).value.1, d);
    }
  }

  /** No pool has the empty name. */
  lemma NoNamelessPool(s: State, a: Action)
    requires Sound(s) && PoolNow(s.store, "").None?
    ensures PoolNow(Apply(s, a).store, "").None?
  {
    StepPools(s, a);
  }

  /** An action of anyone else leaves `d`'s entries as they are, in every pool. */
  lemma OthersKeepMine(s: State, a: Action, p: string, d: Key)
    requires Sound(s) && !(a.DeployerTurn? && a.d == d)
    ensures Mine(Apply(s, a).store, p, d) == Mine(s.store, p, d)
  {
    MineStep(s, a, p, d);
  }

  lemma EntriesStep(s: State, a: Action, d: Key)
    requires Sound(s)
    ensures var s' := Apply(s, a);
            Entries(s'.store, d) == Entries(s.store, d) +
              match OpOf(s, a)
              case None => 0
              case Some((p, _)) => |Mine(s'.store, p, d)| - |Mine(s.store, p, d)|
  {
    var s', op := Apply(s, a), OpOf(s, a);
    StepPools(s, a);
    var f, g := (p: string) => |Mine(s.store, p, d)| as int, (p: string) => |Mine(s'.store, p, d)| as int;
    TotalSame(s.store.pools.Keys, f, p => |Mine(s.store, p, d)|);
    TotalSame(s'.store.pools.Keys, g, p => |Mine(s'.store, p, d)|);
    if op.Some? {
      TotalUpdate(s.store.pools.Keys, op.value.0, f, g);
      assert s'.store.pools.Keys == s.store.pools.Keys + {op.value.0};
    } else {
      TotalSame(s.store.pools.Keys, f, g);
    }
  }

  /* ---- steps of others ---- */

  lemma OthersKeepLeak(s: State, a: Action, d: Key)
    requires Sound(s) && Leak(s, d)
    requires !(a.DeployerTurn? && a.d == d) && !(a.DeployerCrash? && a.d == d)
    requires !((a.CreateDeployer? || a.EditDeployer? || a.DeleteDeployer?) && a.d == d)
    ensures Leak(Apply(s, a), d)
  {
    var s' := Apply(s, a);
    OthersKeepEntries(s, a, d);
    OthersKeepDeployer(s, a, d);
    NoNamelessPool(s, a);
    if DeployerNow(s.store, d).Some? { OthersKeepMine(s, a, DeployerNow(s.store, d).value.held, d); }
    if ThreadOf(s, d).Commit? { OthersKeepMine(s, a, ThreadOf(s, d).mem.held, d); }
  }

  lemma OthersKeepEntries(s: State, a: Action, d: Key)
    requires Sound(s) && !(a.DeployerTurn? && a.d == d)
    ensures Entries(Apply(s, a).store, d) == Entries(s.store, d)
  {
    EntriesStep(s, a, d);
    if OpOf(s, a).Some? { OthersKeepMine(s, a, OpOf(s, a).value.0, d); }
  }

  /** What goes into the books under a deployer's name is its own doing, or a client's to it. */
  lemma OthersNote(s: State, a: Action, d: Key)
    requires !(a.DeployerTurn? && a.d == d) && !((a.EditDeployer? || a.DeleteDeployer?) && a.d == d)
    ensures NoteOf(s, a).Some? ==> NoteOf(s, a).value.0 != d
  {
  }

  lemma OthersKeepDeployer(s: State, a: Action, d: Key)
    requires !(a.DeployerTurn? && a.d == d) && !(a.DeployerCrash? && a.d == d)
    requires !((a.CreateDeployer? || a.EditDeployer? || a.DeleteDeployer?) && a.d == d)
    ensures var s' := Apply(s, a);
            && DeployerVersions(s'.store, d) == DeployerVersions(s.store, d)
            && ThreadOf(s', d) == ThreadOf(s, d) && TallyOf(s', d) == TallyOf(s, d)
  {
    OthersNote(s, a, d);
    if a.DeployerTurn? { OtherDeployerUntouched(s.store, a.d, ThreadOf(s, a.d), a.ch, d); }
    else if a.PoolTurn? { PoolTurnFrame(s.store, a.p, KeeperOf(s, a.p), a.ch); }
  }

  /** A client's change leaves the entries and the reconcile in flight, which it makes stale. */
  lemma ClientFrame(s: State, a: Action, d: Key)
    requires Sound(s) && (a.CreateDeployer? || a.EditDeployer? || a.DeleteDeployer?) && a.d == d
    ensures var s' := Apply(s, a);
            && Entries(s'.store, d) == Entries(s.store, d) && (forall p :: Mine(s'.store, p, d) == Mine(s.store, p, d))
            && ThreadOf(s', d) == ThreadOf(s, d)
            && TallyOf(s', d).begged == TallyOf(s, d).begged && TallyOf(s', d).kept == TallyOf(s, d).kept
    ensures var h, h' := DeployerVersions(s.store, d), DeployerVersions(Apply(s, a).store, d);
            h' == h || |h'| == |h| + 1
  {
    OthersKeepEntries(s, a, d);
    forall p ensures Mine(Apply(s, a).store, p, d) == Mine(s.store, p, d) {
      OthersKeepMine(s, a, p, d);
    }
  }

  /** The stored deployer keeps its pool, or is gone, and then what it held is counted. */
  lemma ClientHeld(s: State, a: Action, d: Key)
    requires (a.EditDeployer? || a.DeleteDeployer?) && a.d == d && DeployerNow(s.store, d).Some?
    ensures var s', x := Apply(s, a), DeployerNow(s.store, d).value;
            var now' := DeployerNow(s'.store, d);
            if now'.Some? then now'.value.held == x.held && Slips(s', d) == Slips(s, d)
            else Slips(s', d) == Slips(s, d) + if Mine(s.store, x.held, d) != [] then 1 else 0
  {
    HoldsIffEntries(UsageNow(s.store, DeployerNow(s.store, d).value.held), d);
  }

  lemma ClientKeepsLeak(s: State, a: Action, d: Key)
    requires Sound(s) && Leak(s, d)
    requires (a.CreateDeployer? || a.EditDeployer? || a.DeleteDeployer?) && a.d == d
    ensures Leak(Apply(s, a), d)
  {
    ClientFrame(s, a, d);
    NoNamelessPool(s, a);
    if DeployerNow(s.store, d).Some? && !a.CreateDeployer? { ClientHeld(s, a, d); }
  }

  /* ---- the deployer's own steps ---- */

  /** Control flow between two requests keeps what a reconcile relies on. */
  lemma EnterCarries(s: State, d: Key, mem: Deployer, ver: nat)
    requires Accounted(s, d) && PoolNow(s.store, "").None?
    requires ver < |DeployerVersions(s.store, d)|
    requires IsCurrent(DeployerVersions(s.store, d), ver) ==>
               mem.held == DeployerNow(s.store, d).value.held || Entries(s.store, d) <= Slips(s, d)
    ensures forall goal :: Carries(s, d, EnterRelease(mem, ver, goal))
    ensures Carries(s, d, Route(mem, ver)) && Carries(s, d, Begin(mem, ver))
    ensures !Route(mem, ver).Commit? && !Begin(mem, ver).Commit? && forall goal :: !EnterRelease(mem, ver, goal).Commit?
  {
  }

  lemma AfterReleaseCarries(s: State, d: Key, mem: Deployer, ver: nat, goal: Goal)
    requires ver < |DeployerVersions(s.store, d)|
    requires IsCurrent(DeployerVersions(s.store, d), ver) ==> Entries(s.store, d) <= Slips(s, d)
    ensures Carries(s, d, AfterRelease(mem, ver, goal)) && !AfterRelease(mem, ver, goal).Commit?
  {
  }

  /** Requests that touch neither this deployer nor any pool. */
  predicate Aside(t: Thread) {
    || t.Idle? || t.FindOldJob? || t.DropOldJob? || t.FindDeployment? || t.DropDeployment?
    || t.ReadWanted? || t.FindJob? || t.Lookup? || t.MakeJob? || t.WatchJob?
    || t.FindSet? || t.LookupSet? || t.DropSet? || t.MakeSet? || t.WatchSet?
    || t.FindService? || t.UpdateService? || t.LookupService? || t.DropService? || t.MakeService?
  }

  lemma AsideStep(s: State, d: Key, ch: Choice)
    requires Sound(s) && Leak(s, d) && Aside(ThreadOf(s, d))
    ensures Leak(Apply(s, DeployerTurn(d, ch)), d)
  {
    var a, t := DeployerTurn(d, ch), ThreadOf(s, d);
    var s', r := Apply(s, a), Answer(s.store, Call(d, t), ch);
    AsideFrame(s, d, ch);
    if !t.Idle? {
      AsideResume(s', d, t, r);
    } else if r.GotDeployer? {
      EnterCarries(s', d, r.deployer, r.ver);
    }
  }

  /** Where such a request can lead. */
  lemma AsideNext(d: Key, t: Thread, r: Response)
    requires Aside(t) && !t.Idle?
    ensures var t' := Resume(d, t, r);
            || t'.Idle?
            || t' == EnterRelease(t.mem, t.ver, NextRound)
            || (t'.ver == t.ver && t'.mem.held == t.mem.held && !t'.Commit? && (Settled(t') ==> Settled(t)))
  {
  }

  lemma AsideResume(s: State, d: Key, t: Thread, r: Response)
    requires Aside(t) && !t.Idle? && Accounted(s, d) && PoolNow(s.store, "").None? && Carries(s, d, t)
    ensures Carries(s, d, Resume(d, t, r)) && !Resume(d, t, r).Commit?
  {
    AsideNext(d, t, r);
    var t' := Resume(d, t, r);
    if t' == EnterRelease(t.mem, t.ver, NextRound) {
      EnterCarries(s, d, t.mem, t.ver);
    }
  }

  lemma AsideAfter(st: Store, d: Key, t: Thread, ch: Choice)
    requires Aside(t)
    ensures After(st, Call(d, t), ch).pools == st.pools && After(st, Call(d, t), ch).deployers == st.deployers
    ensures !Lands(st, Call(d, t), ch)
  {
    CallKinds(d, t);
    AfterFrame(st, Call(d, t), ch);
  }

  lemma AsideFrame(s: State, d: Key, ch: Choice)
    requires Sound(s) && Aside(ThreadOf(s, d))
    ensures var s' := Apply(s, DeployerTurn(d, ch));
            && s'.store.pools == s.store.pools && s'.store.deployers == s.store.deployers
            && TallyOf(s', d) == TallyOf(s, d) && Entries(s'.store, d) == Entries(s.store, d)
  {
    AsideAfter(s.store, d, ThreadOf(s, d), ch);
    EntriesStep(s, DeployerTurn(d, ch), d);
  }

  predicate WritesStatus(t: Thread) {
    t.Park? || t.AnnounceJob? || t.AnnounceSet? || t.Publish? || t.Commit?
  }

  lemma DeployerWriteFrame(s: State, d: Key, ch: Choice)
    requires Sound(s)
    requires var t := ThreadOf(s, d); WritesStatus(t) || t.AddFinalizer? || t.DropFinalizer?
    ensures var s' := Apply(s, DeployerTurn(d, ch));
            && s'.store.pools == s.store.pools && Entries(s'.store, d) == Entries(s.store, d)
            && (!ThreadOf(s, d).Commit? ==> TallyOf(s', d) == TallyOf(s, d))
  {
    var t := ThreadOf(s, d);
    LeavesPools(s.store, d, t, ch);
    assert OpOf(s, DeployerTurn(d, ch)).None?;
    EntriesStep(s, DeployerTurn(d, ch), d);
  }

  /** Where a status write leads, and what it stores. */
  lemma StatusNext(d: Key, t: Thread, r: Response)
    requires WritesStatus(t)
    ensures var t' := Resume(d, t, r);
            t'.Idle? || (Aside(t') && !t'.ReadWanted? && t'.mem == t.mem && t'.ver == if r.AckAt? then r.ver else t.ver)
  {
  }

  lemma StatusWritten(st: Store, d: Key, t: Thread, ch: Choice)
    requires WritesStatus(t)
    ensures var h, h' := DeployerVersions(st, d), DeployerVersions(After(st, Call(d, t), ch), d);
            var r := Answer(st, Call(d, t), ch);
            if Lands(st, Call(d, t), ch) then
              && h' != [] && Latest(h').Some? && Latest(h').value.held == t.mem.held && h <= h'
              && IsCurrent(h, t.ver) && (r.AckAt? ==> r.ver == |h'| - 1)
            else h' == h && !r.AckAt?
  {
  }

  lemma StatusAccounted(s: State, d: Key, ch: Choice)
    requires Sound(s) && Leak(s, d) && WritesStatus(ThreadOf(s, d))
    ensures Accounted(Apply(s, DeployerTurn(d, ch)), d)
  {
    var t, s' := ThreadOf(s, d), Apply(s, DeployerTurn(d, ch));
    DeployerWriteFrame(s, d, ch);
    StatusWritten(s.store, d, t, ch);
    assert Mine(s'.store, t.mem.held, d) == Mine(s.store, t.mem.held, d);
  }

  lemma StatusStep(s: State, d: Key, ch: Choice)
    requires Sound(s) && Leak(s, d) && WritesStatus(ThreadOf(s, d))
    ensures Leak(Apply(s, DeployerTurn(d, ch)), d)
  {
    var t := ThreadOf(s, d);
    DeployerWriteFrame(s, d, ch);
    StatusAccounted(s, d, ch);
    StatusWritten(s.store, d, t, ch);
    StatusNext(d, t, Answer(s.store, Call(d, t), ch));
  }

  /** An update of the finalizer keeps the pool, or takes the deployer away. */
  lemma FinalizerWritten(st: Store, d: Key, t: Thread, ch: Choice)
    requires t.AddFinalizer? || t.DropFinalizer?
    ensures var now, now' := DeployerNow(st, d), Latest(DeployerVersions(After(st, Call(d, t), ch), d));
            if now'.Some? then now.Some? && now'.value.held == now.value.held
            else now.None? || (t.DropFinalizer? && IsCurrent(DeployerVersions(st, d), t.ver))
  {
    DeployerWriteAnswer(st, Call(d, t), ch);
  }

  lemma FinalizerAccounted(s: State, d: Key, ch: Choice)
    requires Sound(s) && Leak(s, d) && (ThreadOf(s, d).AddFinalizer? || ThreadOf(s, d).DropFinalizer?)
    ensures Accounted(Apply(s, DeployerTurn(d, ch)), d)
  {
    var s', t, now := Apply(s, DeployerTurn(d, ch)), ThreadOf(s, d), DeployerNow(s.store, d);
    DeployerWriteFrame(s, d, ch);
    FinalizerWritten(s.store, d, t, ch);
    if now.Some? { assert Mine(s'.store, now.value.held, d) == Mine(s.store, now.value.held, d); }
  }

  lemma FinalizerStep(s: State, d: Key, ch: Choice)
    requires Sound(s) && Leak(s, d) && (ThreadOf(s, d).AddFinalizer? || ThreadOf(s, d).DropFinalizer?)
    ensures Leak(Apply(s, DeployerTurn(d, ch)), d)
  {
    var t, s' := ThreadOf(s, d), Apply(s, DeployerTurn(d, ch));
    var r := Answer(s.store, Call(d, t), ch);
    DeployerWriteFrame(s, d, ch);
    FinalizerAccounted(s, d, ch);
    FinalizerNext(d, t, r);
    if t.AddFinalizer? && r.AckAt? {
      EnterCarries(s', d, Updated(t.mem), r.ver);
    }
  }

  lemma FinalizerNext(d: Key, t: Thread, r: Response)
    requires t.AddFinalizer? || t.DropFinalizer?
    ensures Resume(d, t, r) == if t.AddFinalizer? && r.AckAt? then Route(Updated(t.mem), r.ver) else Idle
  {
  }

  /** A release that finds nothing found it because there was nothing, or is counted as a slip. */
  lemma ReadHeldStep(s: State, d: Key, ch: Choice)
    requires Sound(s) && Leak(s, d) && ThreadOf(s, d).ReadHeld?
    ensures Leak(Apply(s, DeployerTurn(d, ch)), d)
  {
    var t, s' := ThreadOf(s, d), Apply(s, DeployerTurn(d, ch));
    var r := Answer(s.store, Call(d, t), ch);
    EntriesStep(s, DeployerTurn(d, ch), d);
    HoldsIffEntries(UsageNow(s.store, t.mem.held), d);
    assert s'.store == s.store;
    if r.GotPool? && !Holds(r.pool.usage, d) {
      AfterReleaseCarries(s', d, t.mem, t.ver, t.goal);
    }
  }

  lemma PutReleaseStep(s: State, d: Key, ch: Choice)
    requires Sound(s) && Leak(s, d) && ThreadOf(s, d).PutRelease?
    ensures Leak(Apply(s, DeployerTurn(d, ch)), d)
  {
    var a, t := DeployerTurn(d, ch), ThreadOf(s, d);
    var s' := Apply(s, a);
    NoNamelessPool(s, a);
    if Lands(s.store, Call(d, t), ch) {
      ReleaseLanded(s, d, ch);
      AfterReleaseCarries(s', d, t.mem, t.ver, t.goal);
    } else {
      EntriesStep(s, a, d);
      PoolRefused(s.store, d, t, ch);
    }
  }

  lemma ReleaseLanded(s: State, d: Key, ch: Choice)
    requires Sound(s) && ThreadOf(s, d).PutRelease? && Lands(s.store, Call(d, ThreadOf(s, d)), ch)
    ensures var s' := Apply(s, DeployerTurn(d, ch));
            && Entries(s'.store, d) == Entries(s.store, d) - 1
            && s'.store.deployers == s.store.deployers
            && TallyOf(s', d) == TallyOf(s, d).(returned := TallyOf(s, d).returned + 1)
  {
    var a, t := DeployerTurn(d, ch), ThreadOf(s, d);
    var p := t.mem.held;
    assert Mine(s.store, p, d) != [] by {
      assert WriteSound(s, d);
      assert PoolNow(s.store, p) == Some(t.snap);
      HoldsIffEntries(t.snap.usage, d);
    }
    assert OpOf(s, a) == Some((p, Return(d)));
    EntriesStep(s, a, d);
    MineStep(s, a, p, d);
  }

  lemma BegLanded(s: State, d: Key, ch: Choice, p: string)
    requires Sound(s) && ThreadOf(s, d).PutBeg? && Lands(s.store, Call(d, ThreadOf(s, d)), ch)
    ensures var s', t := Apply(s, DeployerTurn(d, ch)), ThreadOf(s, d);
            && Entries(s'.store, d) == Entries(s.store, d) + 1
            && s'.store.deployers == s.store.deployers
            && TallyOf(s', d) == TallyOf(s, d).(begged := TallyOf(s, d).begged + 1)
            && Mine(s.store, p, d) <= Mine(s'.store, p, d)
            && Mine(s'.store, t.mem.spec.resourcePool, d) ==
                 Mine(s.store, t.mem.spec.resourcePool, d) + [UsageEntry(d, Charge(t.mem.spec.containers))]
  {
    var a, t := DeployerTurn(d, ch), ThreadOf(s, d);
    EntriesStep(s, a, d);
    MineStep(s, a, t.mem.spec.resourcePool, d);
    MineStep(s, a, p, d);
  }

  /** Where a beg's write leads. */
  lemma PutBegNext(d: Key, t: Thread, r: Response)
    requires t.PutBeg?
    ensures Resume(d, t, r) ==
            if r.AckAt? then Commit(t.mem.(held := t.mem.spec.resourcePool), t.ver)
            else if r.Conflict? && t.tries > 1 then ReadWanted(t.mem, t.ver, t.tries - 1)
            else Idle
  {
  }

  /** A refused pool write changes nothing. */
  lemma PoolRefused(st: Store, d: Key, t: Thread, ch: Choice)
    requires (t.PutBeg? || t.PutRelease?) && !Lands(st, Call(d, t), ch)
    ensures After(st, Call(d, t), ch) == st && !Answer(st, Call(d, t), ch).AckAt?
  {
  }

  lemma PutBegStep(s: State, d: Key, ch: Choice)
    requires Sound(s) && Leak(s, d) && ThreadOf(s, d).PutBeg?
    ensures Leak(Apply(s, DeployerTurn(d, ch)), d)
  {
    var t := ThreadOf(s, d);
    PutBegNext(d, t, Answer(s.store, Call(d, t), ch));
    if Lands(s.store, Call(d, t), ch) { BegKeepsLeak(s, d, ch); } else { BegRefused(s, d, ch); }
  }

  lemma BegKeepsLeak(s: State, d: Key, ch: Choice)
    requires Sound(s) && Leak(s, d) && ThreadOf(s, d).PutBeg? && Lands(s.store, Call(d, ThreadOf(s, d)), ch)
    ensures Leak(Apply(s, DeployerTurn(d, ch)), d)
  {
    var t := ThreadOf(s, d);
    PutBegNext(d, t, Answer(s.store, Call(d, t), ch));
    NoNamelessPool(s, DeployerTurn(d, ch));
    BegLanded(s, d, ch, if DeployerNow(s.store, d).Some? then DeployerNow(s.store, d).value.held else "");
  }

  lemma BegRefused(s: State, d: Key, ch: Choice)
    requires Sound(s) && Leak(s, d) && ThreadOf(s, d).PutBeg? && !Lands(s.store, Call(d, ThreadOf(s, d)), ch)
    ensures Leak(Apply(s, DeployerTurn(d, ch)), d)
  {
    var t := ThreadOf(s, d);
    PutBegNext(d, t, Answer(s.store, Call(d, t), ch));
    PoolRefused(s.store, d, t, ch);
    EntriesStep(s, DeployerTurn(d, ch), d);
  }

  lemma StepLeak(s: State, a: Action, d: Key)
    requires Sound(s) && Leak(s, d)
    ensures Leak(Apply(s, a), d)
  {
    if a.DeployerTurn? && a.d == d {
      var t := ThreadOf(s, d);
      if Aside(t) { AsideStep(s, d, a.ch); }
      else if WritesStatus(t) { StatusStep(s, d, a.ch); }
      else if t.ReadHeld? { ReadHeldStep(s, d, a.ch); }
      else if t.PutRelease? { PutReleaseStep(s, d, a.ch); }
      else if t.PutBeg? { PutBegStep(s, d, a.ch); }
      else { FinalizerStep(s, d, a.ch); }
    } else if a.DeployerCrash? && a.d == d {
      OthersKeepEntries(s, a, d);
    } else if (a.CreateDeployer? || a.EditDeployer? || a.DeleteDeployer?) && a.d == d {
      ClientKeepsLeak(s, a, d);
    } else {
      OthersKeepLeak(s, a, d);
    }
  }

  lemma {:induction false} RunLeak(acts: seq<Action>, d: Key)
    ensures Leak(Exec(acts), d)
    decreases |acts|
  {
    if acts != [] {
      RunLeak(acts[..|acts| - 1], d);
      RunSound(acts[..|acts| - 1]);
      StepLeak(Exec(acts[..|acts| - 1]), acts[|acts| - 1], d);
    }
  }

  /** Only landing begs and releases of a deployer change the number of its entries. */
  lemma StepEquation(s: State, a: Action, d: Key)
    requires Sound(s) && Entries(s.store, d) == TallyOf(s, d).begged - TallyOf(s, d).returned
    ensures Entries(Apply(s, a).store, d) == TallyOf(Apply(s, a), d).begged - TallyOf(Apply(s, a), d).returned
  {
    if !(a.DeployerTurn? && a.d == d) {
      OthersKeepEntries(s, a, d);
    } else {
      TurnEquation(s, d, a.ch);
    }
  }

  lemma TurnEquation(s: State, d: Key, ch: Choice)
    requires Sound(s)
    ensures var s' := Apply(s, DeployerTurn(d, ch));
            Entries(s'.store, d) - Entries(s.store, d) ==
            TallyOf(s', d).begged - TallyOf(s, d).begged - (TallyOf(s', d).returned - TallyOf(s, d).returned)
  {
    var t := ThreadOf(s, d);
    if !Lands(s.store, Call(d, t), ch) || !(t.PutBeg? || t.PutRelease?) { EntriesStep(s, DeployerTurn(d, ch), d); }
    else if t.PutBeg? { BegLanded(s, d, ch, ""); }
    else { ReleaseLanded(s, d, ch); }
  }

  /** Exactly how many: in every run a deployer's entries in all pools number its landed begs less its landed
      releases. */
  lemma {:induction false} EntriesEquation(acts: seq<Action>, d: Key)
    ensures Entries(Exec(acts).store, d) == TallyOf(Exec(acts), d).begged - TallyOf(Exec(acts), d).returned
    decreases |acts|
  {
    if acts == [] {
      assert Exec(acts).store.pools.Keys == {};
    } else {
      EntriesEquation(acts[..|acts| - 1], d);
      RunSound(acts[..|acts| - 1]);
      StepEquation(Exec(acts[..|acts| - 1]), acts[|acts| - 1], d);
    }
  }

  /** So leakage is down to lost final writes if and only if all but one of the reservations made known have
      been released. */
  lemma {:induction false} LostWritesOnlyIff(acts: seq<Action>, d: Key)
    ensures var s := Exec(acts); var n := TallyOf(s, d);
            Entries(s.store, d) <= 1 + (n.begged - n.kept) <==> n.kept <= 1 + n.returned
  {
    EntriesEquation(acts, d);
  }

  /** Bounded leakage: in every run, with any stale reads, failures and lost answers, a deployer's
      entries in all pools number at most one more than its slips. */
  lemma {:induction false} BoundedLeakage(acts: seq<Action>, d: Key)
    ensures Entries(Exec(acts).store, d) <= 1 + Slips(Exec(acts), d)
    ensures Slips(Exec(acts), d) >= 0
  {
    RunLeak(acts, d);
  }

  /** Clean finalization: once a deployer is gone, its entries number at most its slips; none remain in
      any pool if there were no slips. */
  lemma {:induction false} CleanFinalization(acts: seq<Action>, d: Key, p: string)
    requires DeployerNow(Exec(acts).store, d).None?
    ensures Entries(Exec(acts).store, d) <= Slips(Exec(acts), d)
    ensures Slips(Exec(acts), d) == 0 ==> Mine(Exec(acts).store, p, d) == []
  {
    RunLeak(acts, d);
    var st := Exec(acts).store;
    TotalNonNegative(st.pools.Keys, q => |Mine(st, q, d)|);
  }
}
