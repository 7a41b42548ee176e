/** When leakage is down to lost status writes: a deployer's own releases read its pool's latest version,
    and it is not removed without finalization while it holds a pool. */
module FreshReads {
  import opened Objects
  import opened Api
  import opened Cluster
  import opened Leakage

  predicate Fresh(s: State, a: Action, d: Key) {
    match a
    case DeployerTurn(e, ch) =>
      var t := ThreadOf(s, d);
      e == d && t.ReadHeld? ==> ch.index + 1 >= |PoolVersions(s.store, t.mem.held)|
    case EditDeployer(e, spec, keep) =>
      var now := DeployerNow(s.store, d);
      e == d && now.Some? && EditOf(now.value, spec, keep).None? ==> now.value.held == ""
    case DeleteDeployer(e) =>
      var now := DeployerNow(s.store, d);
      e == d && now.Some? && DeletionOf(now.value).None? ==> now.value.held == ""
    case _ => true
  }

  /** Nothing is asked of any other deployer. */
  ghost predicate FreshRun(acts: seq<Action>, d: Key) {
    forall i | 0 <= i < |acts| :: Fresh(Exec(acts[..i]), acts[i], d)
  }

  /** Nothing has slipped but status writes. */
  predicate Tidy(s: State, d: Key) {
    TallyOf(s, d).missed == 0 && TallyOf(s, d).dropped == 0
  }

  /** A release overlooks an entry only if it read an outdated pool. */
  lemma MissedMeansStale(s: State, d: Key, ch: Choice)
    requires NoteOf(s, DeployerTurn(d, ch)) == Some((d, Missed))
    ensures ThreadOf(s, d).ReadHeld? && !Fresh(s, DeployerTurn(d, ch), d)
  {
  }

  lemma StepTidy(s: State, a: Action, d: Key)
    requires PoolNow(s.store, "").None? && Fresh(s, a, d) && Tidy(s, d)
    ensures Tidy(Apply(s, a), d)
  {
    if NoteOf(s, a) == Some((d, Missed)) {
      MissedMeansStale(s, d, a.ch);
    }
  }

  lemma {:induction false} RunTidy(acts: seq<Action>, d: Key)
    requires FreshRun(acts, d)
    ensures Tidy(Exec(acts), d)
    decreases |acts|
  {
    if acts != [] {
      var before := acts[..|acts| - 1];
      forall i | 0 <= i < |before| ensures Fresh(Exec(before[..i]), before[i], d) {
        assert before[..i] == acts[..i] && before[i] == acts[i];
      }
      RunTidy(before, d);
      RunLeak(before, d);
      StepTidy(Exec(before), acts[|acts| - 1], d);
    }
  }

  /** With fresh releases and removals a deployer's entries number at most one more than the begs that no final status
      write has made known, be it lost or still to come; and at most that many once it is gone. */
  lemma {:induction false} FreshLeakage(acts: seq<Action>, d: Key)
    requires FreshRun(acts, d)
    ensures var s := Exec(acts); var lost := TallyOf(s, d).begged - TallyOf(s, d).kept;
            && Entries(s.store, d) <= 1 + lost
            && (DeployerNow(s.store, d).None? ==> Entries(s.store, d) <= lost)
  {
    RunTidy(acts, d);
    RunLeak(acts, d);
  }
}
