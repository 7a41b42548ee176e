/** What a stored status goes back to, in every run: the pod that was seen, the call that failed, or the spec
    that was read. */
module StatusSeen {
  import opened Objects
  import opened Api
  import opened DeployerThread
  import opened Cluster
  import opened Refinement
  import opened DeployerRounds

  /** A reconcile at work on the pods of round `r`. */
  predicate Watches(t: Thread, r: int) {
    (t.WatchJob? || t.WatchSet?) && t.mem.status.currentRound == r
  }

  /** The deployer as a reconcile comes to compare its rounds. */
  function Opened(t: Thread, answer: Response): Option<Deployer> {
    if t.Idle? && answer.GotDeployer? then Some(answer.deployer)
    else if t.AddFinalizer? && answer.AckAt? then Some(Updated(t.mem))
    else None
  }

  predicate OpensWith(t: Thread, answer: Response, r: int, p: Deployer -> bool) {
    Opened(t, answer).Some? && Opened(t, answer).value.status.currentRound == r && p(Opened(t, answer).value)
  }

  /** A reconcile on its way to a new round, about to ask for its pool. */
  predicate Clears(t: Thread) {
    || t.FindOldJob? || t.DropOldJob? || t.FindDeployment? || t.DropDeployment? || t.ReadHeld? || t.PutRelease?
  }

  /** What a call of a reconcile in round `r` may be told that explains the status. */
  predicate Explains(t: Thread, answer: Response, r: int, status: Status) {
    if status == Done then Watches(t, r) && answer == Pods(Some(PodSucceeded))
    else if status == Doing then Watches(t, r) && answer == Pods(Some(PodRunning))
    else if status == Failed then
      || (Watches(t, r) && answer == Pods(Some(PodFailed)))
      || (Tending(t) && t.mem.status.currentRound == r && answer == Refusal)
      || (t.ReadWanted? && t.mem.status.currentRound == r && answer.GotPool? && answer.pool.free.None?)
      || OpensWith(t, answer, r, (x: Deployer) => x.spec.kind == UNKNOWN && x.spec.round == r)
    else if status == Pending then
      || (Watches(t, r) && (answer == Pods(None) || answer == Pods(Some(PodPending))))
      || ((t.FindJob? || t.FindSet?) && t.mem.status.currentRound == r && answer == Exists(false))
      || (Clears(t) && t.mem.spec.round == r && answer != Refusal)
    else if status == Undo then OpensWith(t, answer, r, (x: Deployer) => x.spec.round < r)
    else true
  }

  /** In this action a reconcile of `d` is given the explanation. */
  predicate Sees(s: State, a: Action, d: Key, r: int, status: Status) {
    a.DeployerTurn? && a.d == d && Explains(ThreadOf(s, d), Answer(s.store, Call(d, ThreadOf(s, d)), a.ch), r, status)
  }

  ghost predicate Seen(acts: seq<Action>, d: Key, r: int, status: Status) {
    exists i | 0 <= i < |acts| :: Sees(Exec(acts[..i]), acts[i], d, r, status)
  }

  predicate Telling(status: Status) {
    status != Blank
  }

  ghost predicate Backed(acts: seq<Action>, d: Key, c: CommonStatus) {
    Telling(c.status) ==> Seen(acts, d, c.currentRound, c.status)
  }

  /** Every stored version and the reconcile in flight owe their status to an explanation. */
  ghost predicate AllBacked(acts: seq<Action>, h: Versions<Deployer>, t: Thread, d: Key) {
    && (forall i | 0 <= i < |h| && h[i].Some? :: Backed(acts, d, h[i].value.status))
    && (!t.Idle? ==> Backed(acts, d, t.mem.status))
  }

  /** The status that a reconcile has in memory is that of the answer or its own, if the answer does not
      explain it. */
  lemma StatusComesFrom(st: Store, d: Key, t: Thread, ch: Choice)
    ensures var r := Answer(st, Call(d, t), ch);
            var t' := Resume(d, t, r);
            !t'.Idle? && Telling(t'.mem.status.status) ==>
              || (!t.Idle? && SameMark(t'.mem.status, t.mem.status))
              || (t.Idle? && r.GotDeployer? && SameMark(t'.mem.status, r.deployer.status))
              || Explains(t, r, t'.mem.status.currentRound, t'.mem.status.status)
  {
    if Tending(t) {
      TendingAnswer(st, d, t, ch);
      TendingStatus(d, t, Answer(st, Call(d, t), ch));
    } else if t.Idle? || t.AddFinalizer? {
      OpenStatus(d, t, Answer(st, Call(d, t), ch));
    } else {
      OtherStatus(d, t, Answer(st, Call(d, t), ch));
    }
  }

  predicate SameMark(c: CommonStatus, c': CommonStatus) {
    c.status == c'.status && c.currentRound == c'.currentRound
  }

  /** A call that tends a workload fails, or is answered. */
  predicate Answered(t: Thread, r: Response) {
    if t.WatchJob? || t.WatchSet? then r.Pods?
    else if t.FindJob? || t.Lookup? || t.FindSet? || t.LookupSet? || t.FindService? || t.LookupService? then r.Exists?
    else r.Ack?
  }

  lemma TendingAnswer(st: Store, d: Key, t: Thread, ch: Choice)
    requires Tending(t)
    ensures Answer(st, Call(d, t), ch) == Refusal || Answered(t, Answer(st, Call(d, t), ch))
  {
  }

  lemma TendingStatus(d: Key, t: Thread, r: Response)
    requires Tending(t) && (r == Refusal || Answered(t, r))
    ensures var t' := Resume(d, t, r);
            && !t'.Idle? && t'.mem.status.currentRound == t.mem.status.currentRound
            && (Telling(t'.mem.status.status) ==>
                  || t'.mem.status.status == t.mem.status.status
                  || Explains(t, r, t.mem.status.currentRound, t'.mem.status.status))
  {
    if (t.WatchJob? || t.WatchSet?) && r.Pods? {
      assert r == Pods(r.pods);
      assert r.pods == None || r.pods == Some(r.pods.value);
    }
  }

  lemma OpenStatus(d: Key, t: Thread, r: Response)
    requires t.Idle? || t.AddFinalizer?
    ensures var t' := Resume(d, t, r);
            !t'.Idle? && Telling(t'.mem.status.status) ==>
              || (!t.Idle? && SameMark(t'.mem.status, t.mem.status))
              || (t.Idle? && r.GotDeployer? && SameMark(t'.mem.status, r.deployer.status))
              || Explains(t, r, t'.mem.status.currentRound, t'.mem.status.status)
  {
  }

  lemma OtherStatus(d: Key, t: Thread, r: Response)
    requires !Tending(t) && !t.Idle? && !t.AddFinalizer?
    ensures var t' := Resume(d, t, r);
            !t'.Idle? && Telling(t'.mem.status.status) ==>
              || SameMark(t'.mem.status, t.mem.status)
              || Explains(t, r, t'.mem.status.currentRound, t'.mem.status.status)
  {
  }

  lemma SeenStays(acts: seq<Action>, a: Action, d: Key, r: int, status: Status)
    ensures Seen(acts, d, r, status) ==> Seen(acts + [a], d, r, status)
    ensures Sees(Exec(acts), a, d, r, status) ==> Seen(acts + [a], d, r, status)
  {
    var more := acts + [a];
    if Seen(acts, d, r, status) {
      var i :| 0 <= i < |acts| && Sees(Exec(acts[..i]), acts[i], d, r, status);
      assert more[..i] == acts[..i] && more[i] == acts[i];
    }
    if Sees(Exec(acts), a, d, r, status) {
      assert more[..|acts|] == acts && more[|acts|] == a;
    }
  }

  /** What a reconcile holds after its turn is backed. */
  lemma ThreadBacked(acts: seq<Action>, d: Key, ch: Choice)
    requires AllBacked(acts, DeployerVersions(Exec(acts).store, d), ThreadOf(Exec(acts), d), d)
    ensures var t := ThreadOf(Apply(Exec(acts), DeployerTurn(d, ch)), d);
            !t.Idle? ==> Backed(acts + [DeployerTurn(d, ch)], d, t.mem.status)
  {
    var s, a := Exec(acts), DeployerTurn(d, ch);
    var t, t' := ThreadOf(s, d), ThreadOf(Apply(s, a), d);
    StatusComesFrom(s.store, d, t, ch);
    if !t'.Idle? && Telling(t'.mem.status.status) {
      SeenStays(acts, a, d, t'.mem.status.currentRound, t'.mem.status.status);
      if t.Idle? {
        DeployerReadIsVersion(s.store, d, ch);
      }
    }
  }

  /** The version an action adds, if any, has a status from the version before it, from the reconcile
      that wrote it, or is blank. */
  lemma NewVersion(s: State, a: Action, d: Key)
    ensures var h, h' := DeployerVersions(s.store, d), DeployerVersions(Apply(s, a).store, d);
            && (h' == h || h' == h + [Latest(h')])
            && (h' != h && Latest(h').Some? ==>
                  || !Telling(Latest(h').value.status.status)
                  || (Latest(h).Some? && Latest(h').value.status == Latest(h).value.status)
                  || (!ThreadOf(s, d).Idle? && Latest(h').value.status == ThreadOf(s, d).mem.status))
  {
    if a.DeployerTurn? {
      if a.d == d { TurnVersion(s.store, d, ThreadOf(s, d), a.ch); }
      else { OtherDeployerUntouched(s.store, a.d, ThreadOf(s, a.d), a.ch, d); }
    }
  }

  lemma TurnVersion(st: Store, d: Key, t: Thread, ch: Choice)
    ensures var h, h' := DeployerVersions(st, d), DeployerVersions(After(st, Call(d, t), ch), d);
            && (h' == h || h' == h + [Latest(h')])
            && (h' != h ==>
                  && !t.Idle? && Latest(h).Some?
                  && (Latest(h').Some? ==>
                        Latest(h').value.status == Latest(h).value.status || Latest(h').value.status == t.mem.status))
  {
    if WritesDeployer(t) {
      WriteAnswer(st, d, t, ch);
    } else {
      KeepsDeployers(st, d, t, ch);
    }
  }

  lemma VersionsBacked(acts: seq<Action>, a: Action, d: Key)
    requires AllBacked(acts, DeployerVersions(Exec(acts).store, d), ThreadOf(Exec(acts), d), d)
    ensures var h' := DeployerVersions(Apply(Exec(acts), a).store, d);
            forall i | 0 <= i < |h'| && h'[i].Some? :: Backed(acts + [a], d, h'[i].value.status)
  {
    var s := Exec(acts);
    NewVersion(s, a, d);
    HistoryBacked(acts, a, d, DeployerVersions(s.store, d), DeployerVersions(Apply(s, a).store, d), ThreadOf(s, d));
  }

  lemma HistoryBacked(acts: seq<Action>, a: Action, d: Key, h: Versions<Deployer>, h': Versions<Deployer>, t: Thread)
    requires AllBacked(acts, h, t, d) && (h' == h || h' == h + [Latest(h')])
    requires h' != h && Latest(h').Some? ==>
               || !Telling(Latest(h').value.status.status)
               || (Latest(h).Some? && Latest(h').value.status == Latest(h).value.status)
               || (!t.Idle? && Latest(h').value.status == t.mem.status)
    ensures forall i | 0 <= i < |h'| && h'[i].Some? :: Backed(acts + [a], d, h'[i].value.status)
  {
    forall i | 0 <= i < |h'| && h'[i].Some? ensures Backed(acts + [a], d, h'[i].value.status) {
      SeenStays(acts, a, d, h'[i].value.status.currentRound, h'[i].value.status.status);
      if i < |h| {
        assert h[i].Some? && Backed(acts, d, h[i].value.status);
      } else if Latest(h).Some? {
        assert Backed(acts, d, h[|h| - 1].value.status);
      }
    }
  }

  lemma StepBacked(acts: seq<Action>, a: Action, d: Key)
    requires AllBacked(acts, DeployerVersions(Exec(acts).store, d), ThreadOf(Exec(acts), d), d)
    ensures var s' := Apply(Exec(acts), a);
            AllBacked(acts + [a], DeployerVersions(s'.store, d), ThreadOf(s', d), d)
  {
    VersionsBacked(acts, a, d);
    var t := ThreadOf(Exec(acts), d);
    if a.DeployerTurn? && a.d == d {
      ThreadBacked(acts, d, a.ch);
    } else if !t.Idle? {
      SeenStays(acts, a, d, t.mem.status.currentRound, t.mem.status.status);
    }
  }

  lemma {:induction false} RunBacked(acts: seq<Action>, d: Key)
    ensures AllBacked(acts, DeployerVersions(Exec(acts).store, d), ThreadOf(Exec(acts), d), d)
    decreases |acts|
  {
    if acts != [] {
      var before, a := acts[..|acts| - 1], acts[|acts| - 1];
      RunBacked(before, d);
      StepBacked(before, a, d);
      assert acts == before + [a];
    }
  }

  /** A deployer stored in round `r` as Done, Doing, Failed, Pending or Undo had, earlier in the run, a reconcile
      that was given the explanation while it worked on round `r`: a pod that had succeeded; one that was
      running; one that had failed, a refused call about the workload, a pool without Free, or an unknown kind;
      no pod, a pending one, no workload yet, or a cleanup that went well; or a spec that asks for an earlier
      round. */
  lemma {:induction false} DeployerStatusSeen(acts: seq<Action>, d: Key)
    requires DeployerNow(Exec(acts).store, d).Some?
    requires Telling(DeployerNow(Exec(acts).store, d).value.status.status)
    ensures var c := DeployerNow(Exec(acts).store, d).value.status; Seen(acts, d, c.currentRound, c.status)
  {
    RunBacked(acts, d);
    LatestBacked(acts, DeployerVersions(Exec(acts).store, d), ThreadOf(Exec(acts), d), d);
  }

  lemma LatestBacked(acts: seq<Action>, h: Versions<Deployer>, t: Thread, d: Key)
    requires AllBacked(acts, h, t, d) && Latest(h).Some?
    ensures Backed(acts, d, Latest(h).value.status)
  {
    assert Backed(acts, d, h[|h| - 1].value.status);
  }
}
