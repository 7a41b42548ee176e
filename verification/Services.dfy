/** A service's old workload: its cleanup looks for a Deployment, and what was made is a StatefulSet. */
module Services {
  import opened Objects
  import opened Names
  import opened Ledger
  import opened Api
  import opened DeployerThread
  import opened Cluster
  import opened Scripts
  import opened Scenes
  import opened Witnesses

  /** Somebody else deletes the set, or a reconcile that makes it anew. */
  predicate Removes(s: State, a: Action, k: Key) {
    || a == LoseSet(k)
    || (a.DeployerTurn? && ThreadOf(s, a.d).DropSet? && JobKey(a.d, ThreadOf(s, a.d).mem) == k)
  }

  /** The turns that clear the way for the next round, or tear down. */
  predicate CleansUp(t: Thread) {
    || t.FindOldJob? || t.DropOldJob? || t.FindDeployment? || t.DropDeployment?
    || t.ReadHeld? || t.PutRelease? || t.ReadWanted? || t.PutBeg? || t.Commit? || t.DropFinalizer?
  }

  /** A set goes only when somebody removes it, and cleanup never does: from any moment of any run on,
      however many rounds pass. */
  lemma {:induction false} SetStays(acts: seq<Action>, b: nat, k: Key)
    requires b <= |acts| && k in Exec(acts[..b]).store.sets
    requires forall i | b <= i < |acts| :: !Removes(Exec(acts[..i]), acts[i], k)
    ensures k in Exec(acts).store.sets
    decreases |acts|
  {
    if b == |acts| {
      assert acts[..b] == acts;
    } else {
      var before := acts[..|acts| - 1];
      forall i | b <= i < |before| ensures !Removes(Exec(before[..i]), before[i], k) {
        assert before[..i] == acts[..i] && before[i] == acts[i];
      }
      assert before[..b] == acts[..b];
      SetStays(before, b, k);
      StepKeepsSet(Exec(before), acts[|acts| - 1], k);
    }
  }

  lemma StepKeepsSet(s: State, a: Action, k: Key)
    requires k in s.store.sets && !Removes(s, a, k)
    ensures k in Apply(s, a).store.sets
  {
    if a.DeployerTurn? { TurnSets(s.store, a.d, ThreadOf(s, a.d), a.ch); }
  }

  lemma TurnSets(st: Store, d: Key, t: Thread, ch: Choice)
    ensures t.DropSet? || st.sets <= After(st, Call(d, t), ch).sets
    ensures t.DropSet? ==> st.sets - {JobKey(d, t.mem)} <= After(st, Call(d, t), ch).sets
    ensures CleansUp(t) ==> After(st, Call(d, t), ch).sets == st.sets
  {
  }

  /* ---- a service that moves on ---- */

  function Serving(round: int): DeployerSpec {
    DeployerSpec(SERVICE, Need(Amount(1)), round, P)
  }

  /** The service in round `r`, its spec asking for round `want`. */
  function Service(r: int, want: int, history: seq<HistoryRecord>): Deployer {
    Deployer(Serving(want), CommonStatus(Pending, history, r), P, true, false)
  }

  predicate Served1(v: View, r: int) {
    && v.d == D && v.p == P && v.t.Idle? && |v.h| == 5 && v.h[4] == Some(Service(r, r, []))
    && v.sets == {SubKey(D, r)} && v.jobs == map[]
    && |v.g| == 4 && v.g[3] == Some(Holding([Entry(1)])) && v.ops == STAGED + [Grant(D, Amount(1))]
  }

  lemma FirstRound(s: State, r: int, k: State -> bool) returns (s': State)
    requires k(s) && Closed(k, D, Anything) && Stage(s) && r > 0
    ensures k(s') && Served1(Look(s', D, P), r)
  {
    var s1 := Establish(s, r, k);
    s' := Launch(s1, D, P, Service(r, r, []), Anything, k);
    assert {} + {SubKey(D, r)} == {SubKey(D, r)};
  }

  lemma Establish(s: State, r: int, k: State -> bool) returns (s': State)
    requires k(s) && Closed(k, D, Anything) && Stage(s) && r > 0
    ensures k(s') && Established(Look(s', D, P), r)
  {
    var s1 := Arrive(s, D, P, Serving(r), Anything, k);
    s' := BegFirst(s1, r, k);
  }

  predicate Established(v: View, r: int) {
    && v.d == D && v.p == P
    && v.t.Idle? && |v.h| == 3 && v.h[2] == Some(Service(r, r, [])) && v.sets == {} && v.jobs == map[]
    && |v.g| == 4 && v.g[3] == Some(Holding([Entry(1)])) && v.ops == STAGED + [Grant(D, Amount(1))]
  }

  lemma BegFirst(s: State, r: int, k: State -> bool) returns (s': State)
    requires k(s) && Closed(k, D, Anything)
    requires var v, x := Look(s, D, P), NewDeployer(Serving(r)).(finalizer := true);
             && v.h == [Some(NewDeployer(Serving(r))), Some(x)] && v.t == ReadWanted(Advanced(x), 1, MAX_TRIES)
             && v.g == [Some(NewPool(WHOLE)), Some(PoolOf(WHOLE, [], None)), Some(Holding([]))]
             && v.jobs == map[] && v.sets == {} && v.ops == STAGED
    ensures k(s') && Established(Look(s', D, P), r)
  {
    NeedIsCharged(Amount(1));
    s' := Beg(s, D, P, NewDeployer(Serving(r)).(finalizer := true), Anything, k);
    assert [] + [Entry(1)] == [Entry(1)];
  }

  /** The next round is asked for, and stored with its reservation. */
  lemma StoreNext(s: State, r: int, r': int, k: State -> bool) returns (s': State)
    requires k(s) && Closed(k, D, Anything) && Served1(Look(s, D, P), r) && 0 < r < r'
    ensures k(s')
    ensures var v := Look(s', D, P);
            && v.h != [] && Latest(v.h) == Some(Service(r', r', [HistoryRecord(r, Pending)])) && v.t.Idle?
            && v.sets == {SubKey(D, r)} && v.g != [] && Latest(v.g).Some?
  {
    var x := Service(r, r', []);
    NeedIsCharged(Amount(1));
    var s1 := GiveBack(s, r, r', k);
    s' := Beg(s1, D, P, x, Anything, k);
    assert [] + [HistoryRecord(r, Pending)] == [HistoryRecord(r, Pending)];
  }

  /** Cleanup finds no Deployment, and goes on to release. */
  lemma PassBy(s: State, r: int, r': int, k: State -> bool) returns (s': State)
    requires k(s) && Closed(k, D, Anything) && Served1(Look(s, D, P), r) && 0 < r < r'
    ensures k(s')
    ensures var v, x := Look(s, D, P), Service(r, r', []);
            Look(s', D, P) == v.(h := v.h + [Some(x)], t := ReadHeld(x, 5, MAX_TRIES, NextRound))
  {
    var s1 := Edit(s, D, P, Serving(r'), Anything, k);
    s' := Turnover(s1, D, P, Service(r, r', []), Anything, k);
  }

  lemma GiveBack(s: State, r: int, r': int, k: State -> bool) returns (s': State)
    requires k(s) && Closed(k, D, Anything) && Served1(Look(s, D, P), r) && 0 < r < r'
    ensures k(s')
    ensures var v, v', x := Look(s, D, P), Look(s', D, P), Service(r, r', []);
            && v'.h == v.h + [Some(x)] && v'.t == ReadWanted(Advanced(x), 5, MAX_TRIES)
            && v'.sets == v.sets && v'.g == v.g + [Some(Holding([]))]
  {
    assert First([Entry(1)], D) == 0 && DropFirst([Entry(1)], D) == [];
    var s1 := PassBy(s, r, r', k);
    s' := Release(s1, D, P, Service(r, r', []), Anything, k);
  }

  lemma SecondRound(s: State, r: int, r': int, k: State -> bool) returns (s': State)
    requires k(s) && Closed(k, D, Anything) && Stage(s) && 0 < r < r'
    ensures k(s') && Outlived(s', r, r')
  {
    var s1 := FirstRound(s, r, k);
    var s2 := StoreNext(s1, r, r', k);
    SubKeyUnique(D, r, D, r');
    s' := Launch(s2, D, P, Service(r', r', [HistoryRecord(r, Pending)]), Anything, k);
  }

  /** The service is stored in round `r'`, and the workloads of both rounds are there. */
  predicate Outlived(s: State, r: int, r': int) {
    && DeployerNow(s.store, D).Some? && DeployerNow(s.store, D).value.spec.kind == SERVICE
    && DeployerNow(s.store, D).value.status.currentRound == r'
    && SubKey(D, r) in s.store.sets && SubKey(D, r') in s.store.sets
  }

  /** For any two rounds some run takes a service from one to the other and keeps the old StatefulSet next to
      the new one. */
  lemma OldSetOutlivesRound(r: int, r': int)
    requires 0 < r < r'
    ensures exists acts: seq<Action> :: Outlived(Exec(acts), r, r')
  {
    var s0, k := SetStage(Anything);
    var s := SecondRound(s0, r, r', k);
    var acts: seq<Action> :| Exec(acts) == s && LapsingRun(acts, Anything);
  }
}
