/** A run of the workflow machine that spoils a history. */
module WorkflowWitness {
  import opened Objects
  import opened Rounds
  import opened Api
  import opened WorkflowCluster

  /** Round 1 deploys a base image; round 2 has none, and no build that would supply one. */
  const IMAGE := WorkflowSpec(1, false, DeploySpec(false, true, false))
  const NO_IMAGE := WorkflowSpec(2, false, DeploySpec(false, false, false))

  /** Served, and the latest version read. */
  const CALM := Turn(Luck(Served, 100, false, Fine))

  const INPUT := [Create(IMAGE), CALM, CALM, CALM, CALM, CALM, CALM, Edit(NO_IMAGE, true), CALM, CALM]

  function After(n: nat): WorkflowState
    requires n <= |INPUT|
  {
    if n == 0 then NO_WORKFLOW else Apply(After(n - 1), INPUT[n - 1])
  }

  lemma {:induction false} AfterIsExec(n: nat)
    requires n <= |INPUT|
    ensures After(n) == Exec(INPUT[..n])
  {
    if n > 0 {
      AfterIsExec(n - 1);
      assert INPUT[..n][..n - 1] == INPUT[..n - 1];
    }
  }

  const W0 := Workflow(IMAGE, None, false, false)
  const W1 := W0.(finalizer := true)
  const W2 := W1.(base := Some(BLANK))
  const W3 := W1.(base := Some(CommonStatus(Pending, [], 1)))
  const W4 := W3.(spec := NO_IMAGE)
  const W5 := W4.(base := Some(CommonStatus(Failed, [HistoryRecord(1, Pending)], 1)))

  /** A served status write of the latest version. */
  lemma SaveStep(s: WorkflowState)
    requires s.t.InitBase? || s.t.Commit? || s.t.Recover?
    requires IsCurrent(s.h, s.t.ver)
    ensures var w := Latest(s.h).value;
            Apply(s, CALM) ==
            s.(h := s.h + [Some(WithBase(w, BaseOf(s.t.mem)))], t := Idle,
               botched := s.botched || (s.t.Recover? && w.spec.round > BaseOf(w).currentRound != 0))
  {
  }

  lemma EditStep(s: WorkflowState, spec: WorkflowSpec)
    requires Latest(s.h).Some? && Latest(s.h).value.finalizer
    ensures Apply(s, Edit(spec, true)) == s.(h := s.h + [Some(Latest(s.h).value.(spec := spec))])
  {
  }

  lemma Guarded()
    ensures After(3) == WorkflowState([Some(W0), Some(W1)], InitBase(W2, 1), {}, false)
  {
    assert After(1) == WorkflowState([Some(W0)], Idle, {}, false);
    assert After(2) == WorkflowState([Some(W0)], AddFinalizer(W1, 0), {}, false);
  }

  lemma Based()
    ensures After(4) == WorkflowState([Some(W0), Some(W1), Some(W2)], Idle, {}, false)
  {
    Guarded();
  }

  lemma Generating()
    ensures After(6) == WorkflowState([Some(W0), Some(W1), Some(W2)], Commit(W3, 2), {}, false)
  {
    Asking();
    FineStep(After(5));
    assert Started(W2) == W3;
  }

  /** The deployer is stored. */
  lemma FineStep(s: WorkflowState)
    requires s.t.PutDeployer?
    ensures Apply(s, CALM) == s.(t := AfterGenerate(s.t.mem, s.t.ver, s.t.aim))
  {
  }

  lemma Asking()
    ensures After(5) == WorkflowState([Some(W0), Some(W1), Some(W2)], PutDeployer(W2, 2, Advancing), {}, false)
  {
    Based();
    NextGenerates();
  }

  lemma NextGenerates()
    ensures Begin(W2, 2) == PutDeployer(W2, 2, Advancing)
  {
    assert Backup(BLANK) == BLANK && WithBase(W2, BLANK) == W2;
  }

  lemma Stored()
    ensures After(7) == WorkflowState([Some(W0), Some(W1), Some(W2), Some(W3)], Idle, {}, false)
  {
    Generating();
    SaveStep(After(6));
    assert [Some(W0), Some(W1), Some(W2)] + [Some(W3)] == [Some(W0), Some(W1), Some(W2), Some(W3)];
  }

  lemma Edited()
    ensures After(8) == WorkflowState([Some(W0), Some(W1), Some(W2), Some(W3), Some(W4)], Idle, {}, false)
  {
    Stored();
    EditStep(After(7), NO_IMAGE);
    assert [Some(W0), Some(W1), Some(W2), Some(W3)] + [Some(W4)] == [Some(W0), Some(W1), Some(W2), Some(W3), Some(W4)];
  }

  lemma Panicked()
    ensures After(9) == WorkflowState([Some(W0), Some(W1), Some(W2), Some(W3), Some(W4)], Recover(W5, 4), {}, false)
  {
    Edited();
    assert [] + [HistoryRecord(1, Pending)] == [HistoryRecord(1, Pending)];
  }

  lemma Recovered()
    ensures After(10) == WorkflowState([Some(W0), Some(W1), Some(W2), Some(W3), Some(W4), Some(W5)], Idle, {}, true)
  {
    Panicked();
    SaveStep(After(9));
    assert [Some(W0), Some(W1), Some(W2), Some(W3), Some(W4)] + [Some(W5)] ==
           [Some(W0), Some(W1), Some(W2), Some(W3), Some(W4), Some(W5)];
  }

  /** The history of this workflow holds a record of round 1 while round 1 is not over. */
  lemma HistorySpoiled()
    ensures exists acts: seq<WorkflowAction> ::
              var s := Exec(acts);
              && acts == INPUT && s.botched && Latest(s.h) == Some(W5)
              && Recorded(BaseOf(W5).history, BaseOf(W5).currentRound)
  {
    Recovered();
    AfterIsExec(10);
    var acts: seq<WorkflowAction> := INPUT[..10];
    assert acts == INPUT;
    assert BaseOf(W5).history[0].round == 1;
    Ends(acts);
  }

  lemma Ends(acts: seq<WorkflowAction>)
    requires Exec(acts) == WorkflowState([Some(W0), Some(W1), Some(W2), Some(W3), Some(W4), Some(W5)], Idle, {}, true)
    ensures Exec(acts).botched && Latest(Exec(acts).h) == Some(W5)
  {
  }
}
