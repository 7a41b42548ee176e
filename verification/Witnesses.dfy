/** Short runs from the empty cluster. One shows that the hypotheses of the end-to-end theorem can be met
    with a job running; each of the others gives up one hypothesis, named by its lapse, and breaks a
    guarantee. */
module Witnesses {
  import opened Objects
  import opened Names
  import opened Pods
  import opened Ledger
  import opened Capacity
  import opened Api
  import opened DeployerThread
  import opened PoolThread
  import opened Cluster
  import opened Leakage
  import opened Totals
  import opened Reservations
  import opened EndToEnd
  import opened Scripts
  import opened Scenes

  const D := Key("ns", "trainer")
  const P := "pool"
  const WHOLE := Resource(4, 4)

  function Amount(size: int32): Resource {
    Resource(size, size)
  }

  function Wanting(size: int32, round: int): DeployerSpec {
    DeployerSpec(JOB, Need(Amount(size)), round, P)
  }

  function Entry(size: int32): UsageEntry {
    UsageEntry(D, Amount(size))
  }

  function Holding(usage: seq<UsageEntry>): Pool {
    PoolOf(WHOLE, usage, Some(WHOLE))
  }

  /** The round is stored with its reservation. */
  function Tenant(size: int32, round: int, wanted: DeployerSpec, history: seq<HistoryRecord>): Deployer {
    Deployer(wanted, CommonStatus(Pending, history, round), P, true, false)
  }

  const STAGED := [PoolOp.Create(WHOLE), Guard, Sync]

  /** D has run through a beg for round 1: it holds the pool, which holds its entry. */
  predicate Reserved(v: View, size: int32) {
    && v.d == D && v.p == P && v.t.Idle? && v.jobs == map[] && v.tally == Tally(1, 1, 0, 0, 0)
    && |v.h| == 3 && v.h[2] == Some(Tenant(size, 1, Wanting(size, 1), []))
    && |v.g| == 4 && v.g[2] == Some(Holding([])) && v.g[3] == Some(Holding([Entry(size)]))
    && v.ops == STAGED + [Grant(D, Amount(size))]
  }

  lemma StagedNet(dim: Dim)
    ensures NetSince(STAGED, dim) == 0
  {
  }

  /** The stage: a pool of its whole capacity, synced once, and nobody else. */
  ghost predicate Stage(s: State) {
    && Quiet(s)
    && PoolIs(s, P, [Some(NewPool(WHOLE)), Some(PoolOf(WHOLE, [], None)), Some(Holding([]))], Resting, STAGED)
  }

  lemma SetStage(lapse: Lapse) returns (s: State, r: State -> bool)
    ensures r == (s => Reachable(s, lapse)) && r(s) && Closed(r, D, lapse) && Stage(s)
  {
    r := ReachableClosed(D, lapse);
    s := PoolReady(P, WHOLE, lapse);
  }

  lemma Reserve(s: State, size: int32, lapse: Lapse, r: State -> bool) returns (s': State)
    requires 0 <= size <= 4 && r(s) && Closed(r, D, lapse) && Stage(s)
    ensures r(s') && Reserved(Look(s', D, P), size)
  {
    NeedIsPayable(Amount(size));
    var s1 := Arrive(s, D, P, Wanting(size, 1), lapse, r);
    s' := FirstBeg(s1, size, lapse, r);
  }

  lemma FirstBeg(s: State, size: int32, lapse: Lapse, r: State -> bool) returns (s': State)
    requires 0 <= size <= 4 && r(s) && Closed(r, D, lapse)
    requires var v, x := Look(s, D, P), NewDeployer(Wanting(size, 1)).(finalizer := true);
             && v.h == [Some(NewDeployer(Wanting(size, 1))), Some(x)]
             && v.t == ReadWanted(Advanced(x), 1, MAX_TRIES)
             && v.g == [Some(NewPool(WHOLE)), Some(PoolOf(WHOLE, [], None)), Some(Holding([]))]
             && v.jobs == map[] && v.tally == NO_TALLY && v.ops == STAGED
    ensures r(s') && Reserved(Look(s', D, P), size)
  {
    NeedIsCharged(Amount(size));
    StagedNet(Cpu);
    StagedNet(Memory);
    s' := Beg(s, D, P, NewDeployer(Wanting(size, 1)).(finalizer := true), lapse, r);
    assert [] + [Entry(size)] == [Entry(size)];
  }

  /* ---- the hypotheses can be met ---- */

  /** D's job for round 1 runs on its reservation. */
  predicate Running(v: View, size: int32) {
    var y := Tenant(size, 1, Wanting(size, 1), []);
    && v.d == D && v.p == P && v.t.Idle? && |v.h| == 5 && v.h[4] == Some(y)
    && v.jobs == map[SubKey(D, 1) := NewJob(D, y)]
    && |v.g| == 4 && v.g[3] == Some(Holding([Entry(size)]))
    && v.ops == STAGED + [Grant(D, Amount(size))] && v.tally == Tally(1, 1, 0, 0, 0)
  }

  lemma Run(s: State, size: int32, lapse: Lapse, r: State -> bool) returns (s': State)
    requires 0 <= size <= 4 && r(s) && Closed(r, D, lapse) && Stage(s)
    ensures r(s') && Running(Look(s', D, P), size)
  {
    var s1 := Reserve(s, size, lapse, r);
    s' := Launch(s1, D, P, Tenant(size, 1, Wanting(size, 1), []), lapse, r);
  }

  lemma RunningDraws(s: State)
    requires Running(Look(s, D, P), 1)
    ensures SubKey(D, 1) in s.store.jobs && Drawing(s.store, P) == {SubKey(D, 1)} && Load(s.store, P, Cpu) == 1
  {
    var f := j => if j in s.store.jobs then PodLimit(s.store.jobs[j].pod, Cpu) else 0;
    NeedIsDemanded(Amount(1));
    PodLimitIsDemand(Need(Amount(1)), Cpu);
    TotalRemove({SubKey(D, 1)}, SubKey(D, 1), f);
    TotalSame({SubKey(D, 1)}, f, j => if j in s.store.jobs then PodLimit(s.store.jobs[j].pod, Cpu) else 0);
    assert {SubKey(D, 1)} - {SubKey(D, 1)} == {};
  }

  /** The hypotheses of the end-to-end theorem can be met, with a job drawing on the pool. */
  lemma DisciplineAllowsJobs()
    ensures exists acts: seq<Action> :: DisciplinedRun(acts) && Load(Exec(acts).store, P, Cpu) > 0
  {
    var s0, r := SetStage(Nothing);
    var s := Run(s0, 1, Nothing, r);
    RunningDraws(s);
    var acts: seq<Action> :| Exec(acts) == s && LapsingRun(acts, Nothing);
    NothingLapses(acts);
  }

  /** Lowering the capacity leaves running jobs above it. */
  lemma LessCapacityOverfills()
    ensures exists acts: seq<Action> ::
              && LapsingRun(acts, LessCapacity) && PoolNow(Exec(acts).store, P).Some?
              && Load(Exec(acts).store, P, Cpu) > PoolNow(Exec(acts).store, P).value.capacity.cpu
  {
    var s0, r := SetStage(LessCapacity);
    var s := Run(s0, 1, LessCapacity, r);
    var s' := Shrink(s);
    ShrunkOverfull(s, s');
  }

  lemma Shrink(s: State) returns (s': State)
    requires Reachable(s, LessCapacity)
    ensures s' == Apply(s, EditPool(P, Amount(0))) && Reachable(s', LessCapacity)
  {
    var a := EditPool(P, Amount(0));
    assert Lapses(s, a, LessCapacity);
    Extend(s, a, LessCapacity);
    s' := Apply(s, a);
  }

  lemma ShrunkOverfull(s: State, s': State)
    requires Running(Look(s, D, P), 1) && s' == Apply(s, EditPool(P, Amount(0))) && Reachable(s', LessCapacity)
    ensures exists acts: seq<Action> ::
              && LapsingRun(acts, LessCapacity) && PoolNow(Exec(acts).store, P).Some?
              && Load(Exec(acts).store, P, Cpu) > PoolNow(Exec(acts).store, P).value.capacity.cpu
  {
    RunningDraws(s);
    Shrunk(s);
    var acts: seq<Action> :| Exec(acts) == s' && LapsingRun(acts, LessCapacity);
  }

  lemma Shrunk(s: State)
    requires Running(Look(s, D, P), 1)
    ensures var s' := Apply(s, EditPool(P, Amount(0)));
            && PoolNow(s'.store, P).Some? && PoolNow(s'.store, P).value.capacity == Amount(0)
            && Load(s'.store, P, Cpu) == Load(s.store, P, Cpu)
  {
    var s' := Apply(s, EditPool(P, Amount(0)));
    assert PoolNow(s.store, P) == Latest(Look(s, D, P).g);
    assert s'.store.deployers == s.store.deployers && s'.store.jobs == s.store.jobs;
    assert Drawing(s'.store, P) == Drawing(s.store, P);
    TotalSame(Drawing(s.store, P), j => if j in s.store.jobs then PodLimit(s.store.jobs[j].pod, Cpu) else 0,
              j => if j in s'.store.jobs then PodLimit(s'.store.jobs[j].pod, Cpu) else 0);
  }

  /* ---- leakage: what the count of slips is for ---- */

  /** The job-less deployer of round 1 is asked for round 2, and its next reconcile reads the pool. */
  lemma Reopen(s: State, spec: DeployerSpec, lapse: Lapse, r: State -> bool) returns (s': State)
    requires r(s) && Closed(r, D, lapse) && Reserved(Look(s, D, P), 1)
    requires spec.round == 2 && spec.kind == JOB && spec.resourcePool == P && Payable(spec.containers)
    ensures r(s')
    ensures var v, x := Look(s, D, P), Tenant(1, 1, spec, []);
            Look(s', D, P) == v.(h := v.h + [Some(x)], t := ReadHeld(x, 3, MAX_TRIES, NextRound))
  {
    var s1 := Edit(s, D, P, spec, lapse, r);
    s' := Turnover(s1, D, P, Tenant(1, 1, spec, []), lapse, r);
  }

  /** A release that reads version `i` of the pool, from before D had an entry. */
  lemma OverlookStep(s: State, i: nat)
    requires var v := Look(s, D, P);
             && v.t.ReadHeld? && v.t.mem.held == P && i < |v.g| && v.g[i].Some? && Latest(v.g).Some?
             && !Holds(v.g[i].value.usage, D) && Holds(Latest(v.g).value.usage, D)
    ensures var v := Look(s, D, P);
            Look(Apply(s, DeployerTurn(D, SERVED.(index := i))), D, P) ==
            v.(t := AfterRelease(v.t.mem, v.t.ver, v.t.goal), tally := Bump(v.tally, Missed))
  {
    assert PoolNow(s.store, P) == Latest(Look(s, D, P).g);
  }

  lemma Overlook(s: State, i: nat, lapse: Lapse, r: State -> bool) returns (s': State)
    requires r(s) && Closed(r, D, lapse)
    requires var v := Look(s, D, P);
             && v.t.ReadHeld? && v.t.mem.held == P && i < |v.g| && v.g[i].Some? && Latest(v.g).Some?
             && !Holds(v.g[i].value.usage, D) && Holds(Latest(v.g).value.usage, D)
    ensures r(s')
    ensures var v := Look(s, D, P);
            Look(s', D, P) == v.(t := AfterRelease(v.t.mem, v.t.ver, v.t.goal), tally := Bump(v.tally, Missed))
  {
    OverlookStep(s, i);
    s' := Apply(s, DeployerTurn(D, SERVED.(index := i)));
  }

  lemma EntriesListed(e: UsageEntry)
    requires e.owner == D
    ensures EntriesOf([], D) == [] && EntriesOf([e], D) == [e] && EntriesOf([e, e], D) == [e, e]
  {
    assert [e][..0] == [] && [e, e][..1] == [e];
    assert [] + [e] == [e] && [e] + [e] == [e, e];
  }

  /** A release that reads an outdated pool overlooks an entry, in a run that is disciplined throughout and
      loses no status write: one more than `1 + begged - kept` is left. */
  lemma StaleReleaseLeaks()
    ensures exists acts: seq<Action> ::
              var s := Exec(acts);
              DisciplinedRun(acts) && TallyOf(s, D) == Tally(2, 2, 0, 1, 0) && |Mine(s.store, P, D)| == 2
  {
    var s0, r := SetStage(Nothing);
    var s := Forget(s0, Nothing, r);
    TwoEntries(s);
    var acts: seq<Action> :| Exec(acts) == s && LapsingRun(acts, Nothing);
    NothingLapses(acts);
  }

  lemma Forget(s: State, lapse: Lapse, r: State -> bool) returns (s': State)
    requires r(s) && Closed(r, D, lapse) && Stage(s)
    ensures r(s')
    ensures var v := Look(s', D, P);
            Latest(v.g) == Some(Holding([Entry(1), Entry(1)])) && v.tally == Tally(2, 2, 0, 1, 0)
  {
    NeedIsPayable(Amount(1));
    var s1 := Reserve(s, 1, lapse, r);
    var s2 := Reopen(s1, Wanting(1, 2), lapse, r);
    s' := Relive(s2, lapse, r);
  }

  lemma Relive(s: State, lapse: Lapse, r: State -> bool) returns (s': State)
    requires r(s) && Closed(r, D, lapse)
    requires var v, x := Look(s, D, P), Tenant(1, 1, Wanting(1, 2), []);
             && |v.h| == 4 && v.h[3] == Some(x) && v.t == ReadHeld(x, 3, MAX_TRIES, NextRound)
             && |v.g| == 4 && v.g[2] == Some(Holding([])) && v.g[3] == Some(Holding([Entry(1)]))
             && v.ops == STAGED + [Grant(D, Amount(1))] && v.tally == Tally(1, 1, 0, 0, 0)
    ensures r(s')
    ensures var v := Look(s', D, P);
            Latest(v.g) == Some(Holding([Entry(1), Entry(1)])) && v.tally == Tally(2, 2, 0, 1, 0)
  {
    EntryHeld();
    var s1 := Overlook(s, 2, lapse, r);
    s' := BegTwice(s1, lapse, r);
  }

  lemma GrantedNet(dim: Dim)
    ensures NetSince(STAGED + [Grant(D, Amount(1))], dim) == 1
  {
    StagedNet(dim);
    assert (STAGED + [Grant(D, Amount(1))])[..3] == STAGED;
  }

  lemma BegTwice(s: State, lapse: Lapse, r: State -> bool) returns (s': State)
    requires r(s) && Closed(r, D, lapse)
    requires var v, x := Look(s, D, P), Tenant(1, 1, Wanting(1, 2), []);
             && |v.h| == 4 && v.h[3] == Some(x) && v.t == ReadWanted(Advanced(x), 3, MAX_TRIES)
             && |v.g| == 4 && v.g[3] == Some(Holding([Entry(1)])) && v.ops == STAGED + [Grant(D, Amount(1))]
             && v.tally == Tally(1, 1, 0, 1, 0)
    ensures r(s')
    ensures var v := Look(s', D, P);
            Latest(v.g) == Some(Holding([Entry(1), Entry(1)])) && v.tally == Tally(2, 2, 0, 1, 0)
  {
    NeedIsCharged(Amount(1));
    GrantedNet(Cpu);
    GrantedNet(Memory);
    s' := Beg(s, D, P, Tenant(1, 1, Wanting(1, 2), []), lapse, r);
    assert [Entry(1)] + [Entry(1)] == [Entry(1), Entry(1)];
  }

  lemma TwoEntries(s: State)
    requires Latest(Look(s, D, P).g) == Some(Holding([Entry(1), Entry(1)]))
    ensures |Mine(s.store, P, D)| == 2
  {
    EntriesListed(Entry(1));
    assert Mine(s.store, P, D) == EntriesOf([Entry(1), Entry(1)], D);
  }

  /** An update built from scratch strips the finalizer; deleting the deployer then leaves its entry in
      the pool for good, in a run that is disciplined throughout. */
  lemma StrippedFinalizerLeaks()
    ensures exists acts: seq<Action> ::
              var s := Exec(acts);
              && DisciplinedRun(acts)
              && DeployerNow(s.store, D).None? && TallyOf(s, D) == Tally(1, 1, 0, 0, 1)
              && |Mine(s.store, P, D)| == 1
  {
    var s0, r := SetStage(Nothing);
    var s := Strand(s0, r);
    var acts: seq<Action> :| Exec(acts) == s && LapsingRun(acts, Nothing);
    NothingLapses(acts);
  }

  lemma Strand(s: State, r: State -> bool) returns (s': State)
    requires r(s) && Closed(r, D, Nothing) && Stage(s)
    ensures r(s')
    ensures DeployerNow(s'.store, D).None? && TallyOf(s', D) == Tally(1, 1, 0, 0, 1) && |Mine(s'.store, P, D)| == 1
  {
    var s1 := Reserve(s, 1, Nothing, r);
    var s2 := Strip(s1, r);
    StrandStep(s2);
    s' := Apply(s2, DeleteDeployer(D));
  }

  lemma Strip(s: State, r: State -> bool) returns (s': State)
    requires r(s) && Closed(r, D, Nothing) && Reserved(Look(s, D, P), 1)
    ensures r(s')
    ensures var v := Look(s, D, P);
            Look(s', D, P) == v.(h := v.h + [Some(v.h[2].value.(finalizer := false))])
  {
    StripStep(s);
    s' := Apply(s, EditDeployer(D, Wanting(1, 1), false));
  }

  lemma StripStep(s: State)
    requires Reserved(Look(s, D, P), 1)
    ensures var v := Look(s, D, P);
            Look(Apply(s, EditDeployer(D, Wanting(1, 1), false)), D, P) ==
            v.(h := v.h + [Some(v.h[2].value.(finalizer := false))])
  {
  }

  lemma StrandStep(s: State)
    requires var v := Look(s, D, P);
             && |v.h| == 4 && v.h[3] == Some(Tenant(1, 1, Wanting(1, 1), []).(finalizer := false))
             && Latest(v.g) == Some(Holding([Entry(1)])) && v.tally == Tally(1, 1, 0, 0, 0)
    ensures var s' := Apply(s, DeleteDeployer(D));
            && DeployerNow(s'.store, D).None? && TallyOf(s', D) == Tally(1, 1, 0, 0, 1) && |Mine(s'.store, P, D)| == 1
  {
    var s', x := Apply(s, DeleteDeployer(D)), DeployerNow(s.store, D).value;
    assert PoolNow(s.store, P) == Latest(Look(s, D, P).g) && s'.store.pools == s.store.pools;
    EntryHeld();
    assert UsageNow(s.store, x.held) == [Entry(1)];
    assert DeletionOf(x) == None && Strands(s, D, x, None);
    assert NoteOf(s, DeleteDeployer(D)) == Some((D, Dropped));
    assert Mine(s'.store, P, D) == EntriesOf([Entry(1)], D);
  }

  lemma EntryHeld()
    ensures Holds([Entry(1)], D) && |EntriesOf([Entry(1)], D)| == 1
  {
    assert [Entry(1)][0].owner == D;
    EntriesListed(Entry(1));
  }

  /* ---- jobs without a reservation ---- */

  /** A job runs without its reservation. */
  ghost predicate Unfunded(s: State) {
    exists j | j in s.store.jobs :: !JobFunded(s.store, j)
  }

  /** D's only job has larger limits than any of D's entries in the pool it names. */
  lemma SmallEntriesUnfunded(s: State, x: Deployer)
    requires var v := Look(s, D, P);
             && v.h != [] && Latest(v.h) == Some(x) && !x.deleting && v.jobs == map[JobKey(D, x) := NewJob(D, x)]
             && x.spec.containers == Need(Amount(5))
             && Latest(v.g).Some? && x.held == P
             && (Latest(v.g).value.usage == [] || Latest(v.g).value.usage == [Entry(1)])
    ensures Unfunded(s)
  {
    var j := JobKey(D, x);
    NeedIsDemanded(Amount(5));
    PodLimitIsDemand(Need(Amount(5)), Cpu);
    EntriesListed(Entry(1));
    assert PoolNow(s.store, P) == Latest(Look(s, D, P).g);
    assert Mine(s.store, P, D) == EntriesOf(Latest(Look(s, D, P).g).value.usage, D);
    assert s.store.jobs[j] == NewJob(D, x) && !JobFunded(s.store, j);
  }

  /** D's only job belongs to a deployer that names no pool. */
  lemma NoPoolUnfunded(s: State, x: Deployer)
    requires var v := Look(s, D, P);
             && v.h != [] && Latest(v.h) == Some(x) && !x.deleting && v.jobs == map[JobKey(D, x) := NewJob(D, x)]
             && x.held == ""
    requires PoolNow(s.store, "").None?
    ensures Unfunded(s)
  {
    var j := JobKey(D, x);
    assert Mine(s.store, "", D) == [];
    assert s.store.jobs[j] == NewJob(D, x) && !JobFunded(s.store, j);
  }

  lemma NoNamelessEver(acts: seq<Action>)
    ensures PoolNow(Exec(acts).store, "").None?
  {
    RunLeak(acts, D);
  }

  /** Containers changed within a round: the job made next is larger than what was reserved for it. */
  lemma NewContainersUnfunded()
    ensures exists acts: seq<Action> :: LapsingRun(acts, NewContainers) && Unfunded(Exec(acts))
  {
    var s0, r := SetStage(NewContainers);
    var s := Outgrow(s0, r);
    var acts: seq<Action> :| Exec(acts) == s && LapsingRun(acts, NewContainers);
  }

  lemma Outgrow(s: State, r: State -> bool) returns (s': State)
    requires r(s) && Closed(r, D, NewContainers) && Stage(s)
    ensures r(s') && Unfunded(s')
  {
    NeedIsPayable(Amount(5));
    var s1 := Reserve(s, 1, NewContainers, r);
    var s2 := Edit(s1, D, P, Wanting(5, 1), NewContainers, r);
    s' := RunTooLarge(s2, NewContainers, r);
  }

  /** The job of the larger containers is made, with the small entry or none. */
  lemma RunTooLarge(s: State, lapse: Lapse, r: State -> bool) returns (s': State)
    requires r(s) && Closed(r, D, lapse)
    requires var v, x := Look(s, D, P), Tenant(1, 1, Wanting(5, 1), []);
             && v.h != [] && Latest(v.h) == Some(x) && v.t.Idle? && v.jobs == map[] && v.g != []
             && (Latest(v.g) == Some(Holding([Entry(1)])) || Latest(v.g) == Some(Holding([])))
    ensures r(s') && Unfunded(s')
  {
    var x := Tenant(1, 1, Wanting(5, 1), []);
    s' := Launch(s, D, P, x, lapse, r);
    SmallEntriesUnfunded(s', WithStatus(x, Pending));
  }

  /** A beg that fails for want of room has released the old entry; setting the round back then reaches
      the job without any. */
  lemma RoundBackUnfunded()
    ensures exists acts: seq<Action> :: LapsingRun(acts, RoundBack) && Unfunded(Exec(acts))
  {
    var s0, r := SetStage(RoundBack);
    var s := Return(s0, r);
    var acts: seq<Action> :| Exec(acts) == s && LapsingRun(acts, RoundBack);
  }

  lemma Return(s: State, r: State -> bool) returns (s': State)
    requires r(s) && Closed(r, D, RoundBack) && Stage(s)
    ensures r(s') && Unfunded(s')
  {
    var s1 := Reserve(s, 1, RoundBack, r);
    var s2 := Fail(s1, r);
    s' := SetBack(s2, r);
  }

  lemma Fail(s: State, r: State -> bool) returns (s': State)
    requires r(s) && Closed(r, D, RoundBack) && Reserved(Look(s, D, P), 1)
    ensures r(s')
    ensures var v := Look(s', D, P);
            && v.h != [] && Latest(v.h) == Some(Tenant(1, 1, Wanting(5, 2), [])) && v.t.Idle? && v.jobs == map[]
            && v.g != [] && Latest(v.g) == Some(Holding([]))
  {
    NeedIsPayable(Amount(5));
    var s1 := Reopen(s, Wanting(5, 2), RoundBack, r);
    s' := Refuse(s1, RoundBack, r);
  }

  lemma SetBack(s: State, r: State -> bool) returns (s': State)
    requires r(s) && Closed(r, D, RoundBack)
    requires var v := Look(s, D, P);
             && v.h != [] && Latest(v.h) == Some(Tenant(1, 1, Wanting(5, 2), [])) && v.t.Idle? && v.jobs == map[]
             && v.g != [] && Latest(v.g) == Some(Holding([]))
    ensures r(s') && Unfunded(s')
  {
    NeedIsPayable(Amount(5));
    var s1 := Edit(s, D, P, Wanting(5, 1), RoundBack, r);
    s' := RunTooLarge(s1, RoundBack, r);
  }

  /** The old entry is released, and the larger request does not fit. */
  lemma Refuse(s: State, lapse: Lapse, r: State -> bool) returns (s': State)
    requires r(s) && Closed(r, D, lapse)
    requires var v, x := Look(s, D, P), Tenant(1, 1, Wanting(5, 2), []);
             && |v.h| == 4 && v.h[3] == Some(x) && v.t == ReadHeld(x, 3, MAX_TRIES, NextRound)
             && |v.g| == 4 && v.g[3] == Some(Holding([Entry(1)])) && v.jobs == map[]
    ensures r(s')
    ensures var v, v' := Look(s, D, P), Look(s', D, P);
            v'.h == v.h && v'.t == Idle && v'.jobs == map[] && v'.g == v.g + [Some(Holding([]))]
  {
    var x := Tenant(1, 1, Wanting(5, 2), []);
    assert First([Entry(1)], D) == 0 && DropFirst([Entry(1)], D) == [];
    var s1 := Release(s, D, P, x, lapse, r);
    s' := TooMuch(s1, x, lapse, r);
  }

  lemma TooMuch(s: State, x: Deployer, lapse: Lapse, r: State -> bool) returns (s': State)
    requires r(s) && Closed(r, D, lapse) && Asking(Look(s, D, P), x) && x.spec == Wanting(5, 2)
    requires Latest(Look(s, D, P).g) == Some(Holding([]))
    ensures r(s') && Look(s', D, P) == Look(s, D, P).(t := Idle)
  {
    NeedIsCharged(Amount(5));
    s' := Go(s, D, P, lapse, r);
  }

  /** Round 0 asked for before any round has begun: it is the current one, and the job is made at once. */
  lemma ZeroRoundUnfunded()
    ensures exists acts: seq<Action> :: LapsingRun(acts, ZeroRound) && Unfunded(Exec(acts))
  {
    var s0, r := SetStage(ZeroRound);
    var x := Parked(0);
    var s := Skip(s0, x, r);
    var acts: seq<Action> :| Exec(acts) == s && LapsingRun(acts, ZeroRound);
    NoNamelessEver(acts);
    NoPoolUnfunded(s, WithStatus(x, Pending));
  }

  /** A new deployer parked because no round is asked for, once its round is set to `round`. */
  function Parked(round: int): Deployer {
    NewDeployer(Wanting(1, round)).(finalizer := true, status := BLANK.(status := Undo))
  }

  lemma Skip(s: State, x: Deployer, r: State -> bool) returns (s': State)
    requires r(s) && Closed(r, D, ZeroRound) && Stage(s) && x == Parked(0)
    ensures r(s')
    ensures var v := Look(s', D, P); v.h != [] && Latest(v.h) == Some(WithStatus(x, Pending))
    ensures s'.store.jobs == map[JobKey(D, x) := NewJob(D, WithStatus(x, Pending))]
  {
    NeedIsPayable(Amount(1));
    var s1 := Enter(s, D, P, Wanting(1, -1), ZeroRound, r);
    var s2 := Go(s1, D, P, ZeroRound, r);
    assert Look(s2, D, P).t == Idle && Latest(Look(s2, D, P).h) == Some(Parked(-1));
    var s3 := Edit(s2, D, P, Wanting(1, 0), ZeroRound, r);
    s' := Launch(s3, D, P, x, ZeroRound, r);
  }

  /** A beg that meets a nil Free panics, and what is recovered stores the round without its reservation. */
  lemma NilFreeUnfunded()
    ensures exists acts: seq<Action> :: LapsingRun(acts, NilFree) && Unfunded(Exec(acts))
  {
    var r := ReachableClosed(D, NilFree);
    var s0 := PoolBorn(P, WHOLE, NilFree);
    var s := Crash(s0, r);
    var acts: seq<Action> :| Exec(acts) == s && LapsingRun(acts, NilFree);
    NoNamelessEver(acts);
    NoPoolUnfunded(s, Unpaid(Pending));
  }

  /** Round 1 stored without a pool. */
  function Unpaid(status: Status): Deployer {
    Deployer(Wanting(1, 1), CommonStatus(status, [], 1), "", true, false)
  }

  lemma Crash(s: State, r: State -> bool) returns (s': State)
    requires r(s) && Closed(r, D, NilFree) && Quiet(s)
    requires PoolIs(s, P, [Some(NewPool(WHOLE))], Resting, [PoolOp.Create(WHOLE)])
    ensures r(s')
    ensures var v, y := Look(s', D, P), Unpaid(Pending);
            v.h != [] && Latest(v.h) == Some(y) && v.jobs == map[JobKey(D, y) := NewJob(D, y)]
  {
    NeedIsPayable(Amount(1));
    var s1 := Arrive(s, D, P, Wanting(1, 1), NilFree, r);
    var s2 := Panic(s1, NewDeployer(Wanting(1, 1)).(finalizer := true), NilFree, r);
    s' := Launch(s2, D, P, Unpaid(Failed), NilFree, r);
  }

  /** The beg panics and its recovery is stored. */
  lemma Panic(s: State, x: Deployer, lapse: Lapse, r: State -> bool) returns (s': State)
    requires r(s) && Closed(r, D, lapse) && lapse.NilFree? && Asking(Look(s, D, P), x)
    requires Latest(Look(s, D, P).g).value.free.None?
    ensures r(s')
    ensures var v := Look(s, D, P);
            Look(s', D, P) == v.(t := Idle, h := v.h + [Some(WithStatus(Advanced(x), Failed))])
  {
    var s1 := Go(s, D, P, lapse, r);
    assert ThreadOf(s1, D) == Publish(WithStatus(Advanced(x), Failed), |Look(s, D, P).h| - 1);
    s' := Go(s1, D, P, lapse, r);
  }

  /* ---- two live jobs of one deployer ---- */

  predicate TwoJobs(s: State, d: Key) {
    && DeployerNow(s.store, d).Some?
    && exists j, k | j in s.store.jobs && k in s.store.jobs ::
         j != k && s.store.jobs[j].owner == d && s.store.jobs[k].owner == d
  }

  lemma DistinctJobs(s: State, x: Job, y: Job)
    requires || s.store.jobs == map[SubKey(D, 1) := x][SubKey(D, 2) := y]
             || s.store.jobs == map[SubKey(D, 2) := y][SubKey(D, 1) := x]
    requires x.owner == D && y.owner == D && DeployerNow(s.store, D).Some?
    ensures TwoJobs(s, D)
  {
    SubKeyUnique(D, 1, D, 2);
    assert SubKey(D, 1) in s.store.jobs && SubKey(D, 2) in s.store.jobs;
  }

  const PAST := [HistoryRecord(1, Pending)]

  /** D, in round 1 with its entry, asked for round 2. */
  predicate Asked(v: View, n: nat) {
    && v.d == D && v.p == P && |v.h| == n + 1 && v.h[n] == Some(Tenant(1, 1, Wanting(1, 2), []))
    && |v.g| == 4 && v.g[3] == Some(Holding([Entry(1)])) && v.ops == STAGED + [Grant(D, Amount(1))]
  }

  /** A served reconcile stores round 2, whatever jobs it did not see. */
  lemma Proceed(s: State, n: nat, lapse: Lapse, r: State -> bool) returns (s': State)
    requires r(s) && Closed(r, D, lapse) && Asked(Look(s, D, P), n) && ThreadOf(s, D).Idle?
    requires lapse.MissedJob? || SubKey(D, 1) !in s.store.jobs
    ensures r(s')
    ensures var v, v' := Look(s, D, P), Look(s', D, P);
            && v'.h == v.h + [Some(Tenant(1, 2, Wanting(1, 2), PAST))] && v'.t.Idle? && v'.jobs == v.jobs
            && v'.g != [] && Latest(v'.g).Some?
  {
    var x := Tenant(1, 1, Wanting(1, 2), []);
    var s1 := Turnover(s, D, P, x, lapse, r);
    s' := GiveBack(s1, n, lapse, r);
  }

  lemma GiveBack(s: State, n: nat, lapse: Lapse, r: State -> bool) returns (s': State)
    requires r(s) && Closed(r, D, lapse) && Asked(Look(s, D, P), n)
    requires ThreadOf(s, D) == ReadHeld(Tenant(1, 1, Wanting(1, 2), []), n, MAX_TRIES, NextRound)
    ensures r(s')
    ensures var v, v' := Look(s, D, P), Look(s', D, P);
            && v'.h == v.h + [Some(Tenant(1, 2, Wanting(1, 2), PAST))] && v'.t.Idle? && v'.jobs == v.jobs
            && v'.g != [] && Latest(v'.g).Some?
  {
    var x := Tenant(1, 1, Wanting(1, 2), []);
    assert First([Entry(1)], D) == 0 && DropFirst([Entry(1)], D) == [];
    var s1 := Release(s, D, P, x, lapse, r);
    s' := BegSecond(s1, n, lapse, r);
  }

  lemma ReturnedNet(dim: Dim)
    ensures NetSince(STAGED + [Grant(D, Amount(1))] + [PoolOp.Return(D)], dim) <= 1
  {
    var ops := STAGED + [Grant(D, Amount(1))];
    GrantedNet(dim);
    assert (ops + [PoolOp.Return(D)])[..4] == ops;
    StagedQueue();
    assert ops[..3] == STAGED && [] + [Entry(1)] == [Entry(1)];
  }

  lemma StagedQueue()
    ensures Queue(STAGED, D) == []
  {
    assert STAGED[..2] == [PoolOp.Create(WHOLE), Guard] && STAGED[..2][..1] == [PoolOp.Create(WHOLE)];
    assert Queue([PoolOp.Create(WHOLE)], D) == [];
  }

  lemma BegSecond(s: State, n: nat, lapse: Lapse, r: State -> bool) returns (s': State)
    requires r(s) && Closed(r, D, lapse)
    requires var v, x := Look(s, D, P), Tenant(1, 1, Wanting(1, 2), []);
             && |v.h| == n + 1 && v.h[n] == Some(x) && v.t == ReadWanted(Advanced(x), n, MAX_TRIES)
             && v.g != [] && Latest(v.g) == Some(Holding([]))
             && v.ops == STAGED + [Grant(D, Amount(1))] + [PoolOp.Return(D)]
    ensures r(s')
    ensures var v, v' := Look(s, D, P), Look(s', D, P);
            && v'.h == v.h + [Some(Tenant(1, 2, Wanting(1, 2), PAST))] && v'.t.Idle? && v'.jobs == v.jobs
            && v'.g != [] && Latest(v'.g).Some?
  {
    NeedIsCharged(Amount(1));
    ReturnedNet(Cpu);
    ReturnedNet(Memory);
    s' := Beg(s, D, P, Tenant(1, 1, Wanting(1, 2), []), lapse, r);
    assert [] + [HistoryRecord(1, Pending)] == PAST;
  }

  /** A cleanup whose lookup misses the running job advances over it: with current deployer reads, two jobs
      of one deployer run. */
  lemma MissedJobRunsTwice()
    ensures exists acts: seq<Action> :: LapsingRun(acts, MissedJob) && TwoJobs(Exec(acts), D)
  {
    var s0, r := SetStage(MissedJob);
    var s := PassOver(s0, r);
    var acts: seq<Action> :| Exec(acts) == s && LapsingRun(acts, MissedJob);
  }

  lemma PassOver(s: State, r: State -> bool) returns (s': State)
    requires r(s) && Closed(r, D, MissedJob) && Stage(s)
    ensures r(s') && TwoJobs(s', D)
  {
    var s1 := Run(s, 1, MissedJob, r);
    s' := RunOver(s1, r);
  }

  lemma RunOver(s: State, r: State -> bool) returns (s': State)
    requires r(s) && Closed(r, D, MissedJob) && Running(Look(s, D, P), 1)
    ensures r(s') && TwoJobs(s', D)
  {
    var z := Tenant(1, 2, Wanting(1, 2), PAST);
    NeedIsPayable(Amount(1));
    var s2 := Edit(s, D, P, Wanting(1, 2), MissedJob, r);
    var s3 := Proceed(s2, 5, MissedJob, r);
    SubKeyUnique(D, 1, D, 2);
    s' := Launch(s3, D, P, z, MissedJob, r);
    DistinctJobs(s', NewJob(D, Tenant(1, 1, Wanting(1, 1), [])), NewJob(D, z));
  }

  /** An outdated read of the deployer takes the round back in memory, and its job is made again next to the
      new one; that the status write in between is refused goes unnoticed. */
  lemma OldDeployerRunsTwice()
    ensures exists acts: seq<Action> :: LapsingRun(acts, OldDeployer) && TwoJobs(Exec(acts), D)
  {
    var s0, r := SetStage(OldDeployer);
    var s := Relapse(s0, r);
    var acts: seq<Action> :| Exec(acts) == s && LapsingRun(acts, OldDeployer);
  }

  /** Round 2 and its job, from a deployer reserved for round 1. */
  lemma Second(s: State, r: State -> bool) returns (s': State)
    requires r(s) && Closed(r, D, OldDeployer) && Stage(s)
    ensures r(s')
    ensures var v, z := Look(s', D, P), Tenant(1, 2, Wanting(1, 2), PAST);
            && |v.h| == 7 && v.h[2] == Some(Tenant(1, 1, Wanting(1, 1), [])) && v.h[6] == Some(z) && v.t.Idle?
            && v.jobs == map[SubKey(D, 2) := NewJob(D, z)] && v.g != [] && Latest(v.g).Some?
  {
    var s1 := Advance(s, r);
    s' := Launch(s1, D, P, Tenant(1, 2, Wanting(1, 2), PAST), OldDeployer, r);
  }

  lemma Advance(s: State, r: State -> bool) returns (s': State)
    requires r(s) && Closed(r, D, OldDeployer) && Stage(s)
    ensures r(s')
    ensures var v := Look(s', D, P);
            && |v.h| == 5 && v.h[2] == Some(Tenant(1, 1, Wanting(1, 1), [])) && v.t.Idle? && v.jobs == map[]
            && v.h[4] == Some(Tenant(1, 2, Wanting(1, 2), PAST)) && v.g != [] && Latest(v.g).Some?
  {
    NeedIsPayable(Amount(1));
    var s1 := Reserve(s, 1, OldDeployer, r);
    var s2 := Edit(s1, D, P, Wanting(1, 2), OldDeployer, r);
    s' := Proceed(s2, 3, OldDeployer, r);
  }

  lemma Relapse(s: State, r: State -> bool) returns (s': State)
    requires r(s) && Closed(r, D, OldDeployer) && Stage(s)
    ensures r(s') && TwoJobs(s', D)
  {
    var s1 := Second(s, r);
    s' := Repeat(s1, r);
  }

  /** The reconcile that reads version 2 makes the job of round 1. */
  lemma Repeat(s: State, r: State -> bool) returns (s': State)
    requires r(s) && Closed(r, D, OldDeployer)
    requires var v, z := Look(s, D, P), Tenant(1, 2, Wanting(1, 2), PAST);
             && |v.h| == 7 && v.h[2] == Some(Tenant(1, 1, Wanting(1, 1), [])) && v.h[6] == Some(z) && v.t.Idle?
             && v.jobs == map[SubKey(D, 2) := NewJob(D, z)] && v.g != [] && Latest(v.g).Some?
    ensures r(s') && TwoJobs(s', D)
  {
    var x := Tenant(1, 1, Wanting(1, 1), []);
    OldRead(s);
    var s1 := Apply(s, DeployerTurn(D, SERVED.(index := 2)));
    assert r(s1);
    var s2 := Reannounce(s1, x, r);
    SubKeyUnique(D, 1, D, 2);
    s' := MakeAgain(s2, x, r);
  }

  /** Its announcement is refused, and nobody minds. */
  lemma Reannounce(s: State, x: Deployer, r: State -> bool) returns (s': State)
    requires r(s) && Closed(r, D, OldDeployer) && x == Tenant(1, 1, Wanting(1, 1), [])
    requires var v := Look(s, D, P);
             |v.h| == 7 && v.h[6].Some? && v.t == FindJob(x, 2) && v.g != [] && Latest(v.g).Some?
    ensures r(s') && Look(s', D, P) == Look(s, D, P).(t := Lookup(x, 2))
  {
    var s1 := Go(s, D, P, OldDeployer, r);
    assert Look(s1, D, P) == Look(s, D, P).(t := AnnounceJob(x, 2));
    Rejected(s1, x);
    s' := Apply(s1, DeployerTurn(D, SERVED));
  }

  lemma OldRead(s: State)
    requires var v := Look(s, D, P);
             |v.h| == 7 && v.h[2] == Some(Tenant(1, 1, Wanting(1, 1), [])) && v.t.Idle?
    ensures var a, v := DeployerTurn(D, SERVED.(index := 2)), Look(s, D, P);
            && Look(Apply(s, a), D, P) == v.(t := FindJob(v.h[2].value, 2))
            && Lapses(s, a, OldDeployer)
  {
  }

  lemma Rejected(s: State, x: Deployer)
    requires var v := Look(s, D, P); |v.h| == 7 && v.h[6].Some? && v.t == AnnounceJob(x, 2)
    ensures var a := DeployerTurn(D, SERVED);
            Look(Apply(s, a), D, P) == Look(s, D, P).(t := Lookup(x, 2)) && Disciplined(s, a)
  {
  }

  lemma MakeAgain(s: State, x: Deployer, r: State -> bool) returns (s': State)
    requires r(s) && Closed(r, D, OldDeployer) && x == Tenant(1, 1, Wanting(1, 1), [])
    requires var v, z := Look(s, D, P), Tenant(1, 2, Wanting(1, 2), PAST);
             && |v.h| == 7 && v.h[6] == Some(z) && v.t == Lookup(x, 2) && SubKey(D, 1) !in v.jobs
             && v.jobs == map[SubKey(D, 2) := NewJob(D, z)] && v.g != [] && Latest(v.g).Some?
    ensures r(s') && TwoJobs(s', D)
  {
    var s1 := Go(s, D, P, OldDeployer, r);
    assert Look(s1, D, P) == Look(s, D, P).(t := MakeJob(x, 2));
    s' := MakeOld(s1, x, r);
    DistinctJobs(s', NewJob(D, x), NewJob(D, Tenant(1, 2, Wanting(1, 2), PAST)));
  }

  lemma MakeOld(s: State, x: Deployer, r: State -> bool) returns (s': State)
    requires r(s) && Closed(r, D, OldDeployer) && x.status.currentRound == 1
    requires var v := Look(s, D, P);
             && |v.h| == 7 && v.h[6].Some? && v.t == MakeJob(x, 2) && SubKey(D, 1) !in v.jobs
             && v.g != [] && Latest(v.g).Some?
    ensures r(s')
    ensures var v, v' := Look(s, D, P), Look(s', D, P);
            v'.h == v.h && v'.jobs == v.jobs[SubKey(D, 1) := NewJob(D, x)]
  {
    s' := Go(s, D, P, OldDeployer, r);
  }
}
