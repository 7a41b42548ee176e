/** Begs that all land between two syncs: for every capacity and every number of deployers there is a run
    that meets the over-commit bound, with all their jobs running. */
module Crowding {
  import opened Objects
  import opened Quantities
  import opened Names
  import opened Pods
  import opened Ledger
  import opened Api
  import opened DeployerThread
  import opened Cluster
  import opened Refinement
  import opened OneJob
  import opened Totals
  import opened EndToEnd
  import opened Scripts
  import opened Scenes

  function Nth(i: nat): Key {
    Key("ns", Digits(i))
  }

  function JobOf(i: nat): Key {
    SubKey(Nth(i), 1)
  }

  lemma JobsDistinct(i: nat, j: nat)
    ensures JobOf(i) == JobOf(j) <==> i == j
  {
    SubKeyUnique(Nth(i), 1, Nth(j), 1);
    if Nth(i) == Nth(j) { DigitsInjective(i, j); }
  }

  function Wanted(p: string, c: Resource): DeployerSpec {
    DeployerSpec(JOB, Need(c), 1, p)
  }

  /** A deployer that draws on the pool with a job of the pool's whole capacity. */
  predicate Fed(s: State, p: string, c: Resource, i: nat) {
    var now := DeployerNow(s.store, Nth(i));
    && now.Some? && !now.value.deleting && now.value.held == p
    && JobOf(i) in s.store.jobs
    && s.store.jobs[JobOf(i)].owner == Nth(i) && s.store.jobs[JobOf(i)].pod == PodOf(Need(c))
  }

  predicate Unborn(s: State, i: nat) {
    DeployerVersions(s.store, Nth(i)) == [] && ThreadOf(s, Nth(i)) == Idle
  }

  /** While deployer `i` has its turn: those before it are fed, those after it unborn. */
  ghost predicate Others(s: State, p: string, c: Resource, i: nat) {
    && (forall j: nat | j < i :: Fed(s, p, c, j))
    && (forall j: nat | j > i :: Unborn(s, j))
    && (forall n | n in s.store.jobs :: s.store.jobs[n].owner == Nth(i) || exists j: nat :: j < i && n == JobOf(j))
  }

  /** The first `i` deployers are fed, and nobody else is there. */
  ghost predicate Crowd(s: State, p: string, c: Resource, i: nat) {
    && (forall j: nat | j < i :: Fed(s, p, c, j))
    && (forall j: nat | j >= i :: Unborn(s, j))
    && (forall n | n in s.store.jobs :: exists j: nat :: j < i && n == JobOf(j))
    && OpsOf(s, p) == Overdrawn(c, Nth, i)
    && PoolNow(s.store, p).Some? && PoolNow(s.store, p).value.free == Some(c)
  }

  lemma OwnStepOthers(s: State, a: Action, p: string, c: Resource, i: nat)
    requires Others(s, p, c, i) && Own(s, a, Nth(i))
    ensures Others(Apply(s, a), p, c, i)
  {
    var s' := Apply(s, a);
    OwnStepJobs(s, a, Nth(i));
    forall j: nat | j != i
      ensures DeployerVersions(s'.store, Nth(j)) == DeployerVersions(s.store, Nth(j))
      ensures ThreadOf(s', Nth(j)) == ThreadOf(s, Nth(j))
    {
      if Nth(i) == Nth(j) { DigitsInjective(i, j); }
      OwnStepDeployers(s, a, Nth(i), Nth(j));
    }
    forall j: nat | j < i ensures Fed(s', p, c, j) {
      assert Fed(s, p, c, j);
    }
    forall j: nat | j > i ensures Unborn(s', j) {
      assert Unborn(s, j);
    }
  }

  lemma OwnStepJobs(s: State, a: Action, d: Key)
    requires Own(s, a, d)
    ensures forall n | n in s.store.jobs :: n in Apply(s, a).store.jobs && Apply(s, a).store.jobs[n] == s.store.jobs[n]
    ensures forall n | n in Apply(s, a).store.jobs && n !in s.store.jobs :: Apply(s, a).store.jobs[n].owner == d
  {
    if a.DeployerTurn? { JobsAfter(s.store, d, ThreadOf(s, d), a.ch); }
  }

  lemma OwnStepDeployers(s: State, a: Action, d: Key, e: Key)
    requires Own(s, a, d) && d != e
    ensures DeployerVersions(Apply(s, a).store, e) == DeployerVersions(s.store, e)
    ensures ThreadOf(Apply(s, a), e) == ThreadOf(s, e)
  {
    if a.DeployerTurn? { OtherDeployerUntouched(s.store, d, ThreadOf(s, d), a.ch, e); }
  }

  /** Kept by the scripts of every deployer. */
  ghost predicate ClosedForAll(q: State -> bool) {
    forall d :: Closed(q, d, Overfill)
  }

  lemma CrowdClosed(p: string, c: Resource, i: nat, q: State -> bool) returns (r: State -> bool)
    requires ClosedForAll(q)
    ensures r == (s => q(s) && Others(s, p, c, i)) && Closed(r, Nth(i), Overfill)
  {
    r := s => q(s) && Others(s, p, c, i);
    assert Closed(q, Nth(i), Overfill);
    forall s, a | r(s) && Own(s, a, Nth(i)) && (Disciplined(s, a) || Lapses(s, a, Overfill)) ensures r(Apply(s, a)) {
      OwnStepOthers(s, a, p, c, i);
    }
  }

  /** What the next deployer's beg and launch leave of the pool and of itself. */
  predicate Joined(v: View, v': View, c: Resource, x: Deployer) {
    && v'.ops == v.ops + [Grant(v.d, c)] && v'.g != [] && Latest(v'.g).Some?
    && Latest(v'.g).value.free == Some(c)
    && v'.h != [] && Latest(v'.h) == Some(x)
    && v'.jobs == v.jobs[JobKey(v.d, x) := NewJob(v.d, x)]
  }

  lemma Join(s: State, d: Key, p: string, c: Resource, r: State -> bool) returns (s': State)
    requires r(s) && Closed(r, d, Overfill) && c.cpu >= 0 && c.memory >= 0 && p != ""
    requires DeployerVersions(s.store, d) == [] && ThreadOf(s, d) == Idle && NoJobsOf(s.store, d)
    requires SubKey(d, 0) !in s.store.jobs && SubKey(d, 1) !in s.store.jobs
    requires PoolNow(s.store, p).Some? && PoolNow(s.store, p).value.free == Some(c)
    ensures r(s')
    ensures Joined(Look(s, d, p), Look(s', d, p), c,
                   Deployer(Wanted(p, c), CommonStatus(Pending, [], 1), p, true, false))
  {
    var x := NewDeployer(Wanted(p, c)).(finalizer := true);
    NeedIsPayable(c);
    NeedIsCharged(c);
    var s1 := Arrive(s, d, p, Wanted(p, c), Overfill, r);
    var s2 := Beg(s1, d, p, x, Overfill, r);
    s' := Launch(s2, d, p, Begun(x), Overfill, r);
  }

  lemma Grow(s: State, p: string, c: Resource, i: nat, q: State -> bool) returns (s': State)
    requires q(s) && ClosedForAll(q) && Crowd(s, p, c, i) && c.cpu >= 0 && c.memory >= 0 && p != ""
    ensures q(s') && Crowd(s', p, c, i + 1)
  {
    var r := CrowdClosed(p, c, i, q);
    Strangers(s, p, c, i);
    s' := Join(s, Nth(i), p, c, r);
    Joins(s, s', p, c, i);
  }

  /** The newcomer has no job yet, nor is there one by a name of its. */
  lemma Strangers(s: State, p: string, c: Resource, i: nat)
    requires Crowd(s, p, c, i)
    ensures Others(s, p, c, i) && NoJobsOf(s.store, Nth(i)) && Unborn(s, i)
    ensures SubKey(Nth(i), 0) !in s.store.jobs && SubKey(Nth(i), 1) !in s.store.jobs
  {
    forall n | n in s.store.jobs
      ensures s.store.jobs[n].owner != Nth(i) && n != SubKey(Nth(i), 0) && n != SubKey(Nth(i), 1)
    {
      var j: nat :| j < i && n == JobOf(j);
      assert Fed(s, p, c, j);
      if Nth(i) == Nth(j) { DigitsInjective(i, j); }
      SubKeyUnique(Nth(j), 1, Nth(i), 0);
      SubKeyUnique(Nth(j), 1, Nth(i), 1);
    }
  }

  lemma Joins(s: State, s': State, p: string, c: Resource, i: nat)
    requires Crowd(s, p, c, i) && Others(s', p, c, i)
    requires Joined(Look(s, Nth(i), p), Look(s', Nth(i), p), c,
                    Deployer(Wanted(p, c), CommonStatus(Pending, [], 1), p, true, false))
    ensures Crowd(s', p, c, i + 1)
  {
    var x := Deployer(Wanted(p, c), CommonStatus(Pending, [], 1), p, true, false);
    assert s'.store.jobs == s.store.jobs[JobOf(i) := NewJob(Nth(i), x)];
    forall j: nat | j < i + 1 ensures Fed(s', p, c, j) {
      if j < i { assert Fed(s', p, c, j); } else { assert DeployerNow(s'.store, Nth(i)) == Some(x); }
    }
    forall n | n in s'.store.jobs ensures exists j: nat :: j < i + 1 && n == JobOf(j) {
      if n != JobOf(i) {
        assert n in s.store.jobs;
        var j: nat :| j < i && n == JobOf(j);
        assert j < i + 1 && n == JobOf(j);
      }
    }
    forall j: nat | j >= i + 1 ensures Unborn(s', j) {}
  }

  lemma NoCrowd(s: State, p: string, c: Resource)
    requires Quiet(s) && OpsOf(s, p) == [PoolOp.Create(c), Guard, Sync]
    requires PoolNow(s.store, p).Some? && PoolNow(s.store, p).value.free == Some(c)
    ensures Crowd(s, p, c, 0)
  {
    forall j: nat ensures Unborn(s, j) {
      assert DeployerVersions(s.store, Nth(j)) == [] && ThreadOf(s, Nth(j)) == Idle;
    }
  }

  lemma {:induction false} Gather(s: State, p: string, c: Resource, k: nat, q: State -> bool) returns (s': State)
    requires q(s) && ClosedForAll(q) && Crowd(s, p, c, 0) && c.cpu >= 0 && c.memory >= 0 && p != ""
    ensures q(s') && Crowd(s', p, c, k)
    decreases k
  {
    if k == 0 {
      s' := s;
    } else {
      var s0 := Gather(s, p, c, k - 1, q);
      s' := Grow(s0, p, c, k - 1, q);
    }
  }

  lemma Open(p: string, c: Resource) returns (s: State, q: State -> bool)
    requires c.cpu >= 0 && c.memory >= 0 && p != ""
    ensures q == (s => Reachable(s, Overfill)) && q(s) && ClosedForAll(q) && Crowd(s, p, c, 0)
  {
    s := PoolReady(p, c, Overfill);
    q := s => Reachable(s, Overfill);
    NoCrowd(s, p, c);
    forall d ensures Closed(q, d, Overfill) {
      var r := ReachableClosed(d, Overfill);
    }
  }

  /* ---- what the crowd uses ---- */

  function JobNames(k: nat): set<Key> {
    if k == 0 then {} else JobNames(k - 1) + {JobOf(k - 1)}
  }

  lemma {:induction false} NamesAre(k: nat, n: Key)
    ensures n in JobNames(k) <==> exists j: nat :: j < k && n == JobOf(j)
  {
    if k > 0 {
      NamesAre(k - 1, n);
      if n == JobOf(k - 1) { assert k - 1 < k && n == JobOf(k - 1); }
      if j: nat :| j < k && n == JobOf(j) {
        assert j == k - 1 || (j < k - 1 && n == JobOf(j));
      }
    }
  }

  lemma {:induction false} TotalOfNames(k: nat, f: Key -> int, x: int)
    requires forall j: nat | j < k :: f(JobOf(j)) == x
    ensures Total(JobNames(k), f) == Times(k, x)
  {
    if k > 0 {
      TotalOfNames(k - 1, f, x);
      NamesAre(k - 1, JobOf(k - 1));
      forall j: nat | j < k - 1 ensures JobOf(j) != JobOf(k - 1) { JobsDistinct(j, k - 1); }
      TotalRemove(JobNames(k), JobOf(k - 1), f);
      assert JobNames(k) - {JobOf(k - 1)} == JobNames(k - 1);
    }
  }

  lemma CrowdLoad(s: State, p: string, c: Resource, k: nat, dim: Dim)
    requires Crowd(s, p, c, k)
    ensures Load(s.store, p, dim) == Times(k, c.At(dim))
  {
    var st := s.store;
    var f := (j: Key) => if j in st.jobs then PodLimit(st.jobs[j].pod, dim) else 0;
    forall n ensures n in Drawing(st, p) <==> n in JobNames(k) {
      NamesAre(k, n);
      if j: nat :| j < k && n == JobOf(j) { assert Fed(s, p, c, j); }
    }
    assert Drawing(st, p) == JobNames(k);
    forall j: nat | j < k ensures f(JobOf(j)) == c.At(dim) {
      assert Fed(s, p, c, j);
      PodLimitIsDemand(Need(c), dim);
      NeedIsDemanded(c);
    }
    TotalOfNames(k, f, c.At(dim));
    TotalSame(Drawing(st, p), f, j => if j in st.jobs then PodLimit(st.jobs[j].pod, dim) else 0);
  }

  /** The over-commit bound is tight for the system: for every pool, capacity and `k` some run, disciplined
      but for begs that do not fit, grants the whole capacity `k` times between two syncs, to `k` deployers
      whose jobs all run; usage meets the bound, and the running jobs use all of it. */
  lemma CrowdOverfills(p: string, c: Resource, k: nat)
    requires c.cpu >= 0 && c.memory >= 0 && p != ""
    ensures exists acts: seq<Action> ::
              && LapsingRun(acts, Overfill) && OpsOf(Exec(acts), p) == Overdrawn(c, Nth, k)
              && Overfull(Exec(acts), p, c, k, Cpu) && Overfull(Exec(acts), p, c, k, Memory)
  {
    var s0, q := Open(p, c);
    var s := Gather(s0, p, c, k, q);
    var acts: seq<Action> :| Exec(acts) == s && LapsingRun(acts, Overfill);
    RefinesAtomic(acts, p);
    CrowdOverfull(s, p, c, k, Cpu);
    CrowdOverfull(s, p, c, k, Memory);
  }

  /** Usage is `c + (k - 1) * c`, with Free at `c`, and live jobs use all of it. */
  ghost predicate Overfull(s: State, p: string, c: Resource, k: nat, dim: Dim) {
    && PoolNow(s.store, p).Some? && PoolNow(s.store, p).value.free == Some(c)
    && PoolNow(s.store, p).value.capacity == c
    && Sum(PoolNow(s.store, p).value.usage, dim) == c.At(dim) + (k - 1) * c.At(dim)
    && Load(s.store, p, dim) == Sum(PoolNow(s.store, p).value.usage, dim)
  }

  lemma CrowdOverfull(s: State, p: string, c: Resource, k: nat, dim: Dim)
    requires Crowd(s, p, c, k) && c.cpu >= 0 && c.memory >= 0
    requires LegalRun(OpsOf(s, p)) && Replay(OpsOf(s, p)) == PoolNow(s.store, p)
    ensures Overfull(s, p, c, k, dim)
  {
    OverdrawnUsage(c, Nth, k, dim);
    TimesIsProduct(k, c.At(dim));
    CrowdLoad(s, p, c, k, dim);
  }
}
