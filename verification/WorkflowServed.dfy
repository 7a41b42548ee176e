/** What a workflow's reconcile comes to when its calls are served and it reads the latest version: stated on
    the stored workflow alone. */
module WorkflowServed {
  import opened Objects
  import opened Rounds
  import opened Api
  import opened WorkflowCluster

  function Two(s: WorkflowState, a: WorkflowLuck, b: WorkflowLuck): WorkflowState {
    Apply(Apply(s, Turn(a)), Turn(b))
  }

  function Three(s: WorkflowState, a: WorkflowLuck, b: WorkflowLuck, c: WorkflowLuck): WorkflowState {
    Apply(Two(s, a, b), Turn(c))
  }

  function Four(s: WorkflowState, a: WorkflowLuck, b: WorkflowLuck, c: WorkflowLuck, e: WorkflowLuck): WorkflowState {
    Apply(Three(s, a, b, c), Turn(e))
  }

  /** At rest, about to read the latest version. */
  predicate Ready(s: WorkflowState, w: Workflow, get: WorkflowLuck) {
    s.t.Idle? && Latest(s.h) == Some(w) && get.fate.Served? && get.index + 1 >= |s.h|
  }

  /** And it is live, under its finalizer and with its base status. */
  predicate ReadyLive(s: WorkflowState, w: Workflow, get: WorkflowLuck) {
    Ready(s, w, get) && w.finalizer && !w.deleting && w.base.Some?
  }

  predicate Told(luck: WorkflowLuck, reply: WorkflowAnswer) {
    luck.fate.Served? && luck.reply == reply
  }

  predicate Stores(s: WorkflowState, w: Workflow, c: CommonStatus) {
    Latest(s.h) == Some(w.(base := Some(c)))
  }

  lemma GetTurn(s: WorkflowState, w: Workflow, get: WorkflowLuck)
    requires Ready(s, w, get)
    ensures Apply(s, Turn(get)) == s.(t := Begin(w, |s.h| - 1))
  {
  }

  /* ---- before a round ---- */

  lemma ServedGuard(s: WorkflowState, w: Workflow, get: WorkflowLuck, put: WorkflowLuck)
    requires Ready(s, w, get) && !w.deleting && !w.finalizer && put.fate.Served?
    ensures Latest(Two(s, get, put).h) ==
              Some(w.(finalizer := true, spec := w.spec.(round := if w.spec.round == 0 then -1 else w.spec.round)))
  {
    GetTurn(s, w, get);
  }

  /** A workflow marked for deletion is gone after two served turns. */
  lemma ServedTeardown(s: WorkflowState, w: Workflow, get: WorkflowLuck, put: WorkflowLuck)
    requires Ready(s, w, get) && w.deleting && w.finalizer && put.fate.Served?
    ensures Latest(Two(s, get, put).h).None?
  {
    GetTurn(s, w, get);
  }

  /** A new one gets a blank status. */
  lemma ServedInit(s: WorkflowState, w: Workflow, get: WorkflowLuck, put: WorkflowLuck)
    requires Ready(s, w, get) && w.finalizer && !w.deleting && w.base.None? && put.fate.Served?
    ensures Stores(Two(s, get, put), w, CommonStatus(Blank, [], 0)) && Two(s, get, put).t.Idle?
  {
    GetTurn(s, w, get);
  }

  /* ---- another round ---- */

  /** The rounds differ, and the workload of the spec can be generated. */
  predicate ReadyOther(s: WorkflowState, w: Workflow, get: WorkflowLuck) {
    && ReadyLive(s, w, get) && w.spec.round != w.base.value.currentRound
    && !Panics(w.spec) && !Rejects(w.spec)
  }

  /** What is stored once the workload is: parked, if the round was set back; else the round begins, and the one
      before it is recorded. */
  predicate Moved(w: Workflow, c: CommonStatus)
    requires w.base.Some?
  {
    var b := w.base.value;
    if w.spec.round < b.currentRound then c == b.(status := Undo)
    else
      && c.status == Pending && c.currentRound == w.spec.round
      && c.history == b.history + (if b.currentRound == 0 then [] else [HistoryRecord(b.currentRound, b.status)])
  }

  predicate StoresMove(s: WorkflowState, w: Workflow)
    requires w.base.Some?
  {
    && s.t.Idle? && Latest(s.h).Some? && Latest(s.h).value.base.Some?
    && Stores(s, w, Latest(s.h).value.base.value) && Moved(w, Latest(s.h).value.base.value)
  }

  /** The route of a workflow whose rounds differ, up to the question about the deployer. */
  predicate OnItsWay(t: WorkflowThread, w: Workflow, ver: nat)
    requires w.base.Some?
  {
    if w.spec.round < w.base.value.currentRound then t == PutDeployer(w, ver, Parking)
    else t == PutDeployer(WithBase(w, Backup(w.base.value)), ver, Advancing)
  }

  lemma MoveTurns(s: WorkflowState, w: Workflow, second: WorkflowLuck, put: WorkflowLuck)
    requires s.h != [] && Latest(s.h) == Some(w) && w.base.Some? && w.spec.round != w.base.value.currentRound
    requires OnItsWay(s.t, w, |s.h| - 1) && put.fate.Served?
    ensures Call(s.t) == Ask(StoreDeployer)
    ensures if Told(second, Fine) then StoresMove(Two(s, second, put), w)
            else Apply(s, Turn(second)) == s.(t := Idle)
  {
    var s1 := Apply(s, Turn(second));
    if Told(second, Fine) {
      assert s1.h == s.h && s1.t == AfterGenerate(s.t.mem, |s.h| - 1, s.t.aim);
    }
  }

  /** With a build, the builder is stored, then the deployer, and only then the workflow; any refusal ends the
      reconcile with the workflow as it was. */
  lemma ServedMoveBuild(s: WorkflowState, w: Workflow, get: WorkflowLuck, first: WorkflowLuck, second: WorkflowLuck,
                        put: WorkflowLuck)
    requires ReadyOther(s, w, get) && w.spec.build && put.fate.Served?
    ensures Call(Apply(s, Turn(get)).t) == Ask(StoreBuilder)
    ensures if Told(first, Fine) then Call(Two(s, get, first).t) == Ask(StoreDeployer) else Two(s, get, first) == s
    ensures Told(first, Fine) ==>
              if Told(second, Fine) then StoresMove(Four(s, get, first, second, put), w)
              else Three(s, get, first, second) == s
  {
    GetTurn(s, w, get);
    if Told(first, Fine) {
      var s2 := Two(s, get, first);
      assert s2 == s.(t := s2.t) && OnItsWay(s2.t, w, |s.h| - 1);
      MoveTurns(s2, w, second, put);
    }
  }

  /** Without, the deployer alone is. */
  lemma ServedMove(s: WorkflowState, w: Workflow, get: WorkflowLuck, first: WorkflowLuck, put: WorkflowLuck)
    requires ReadyOther(s, w, get) && !w.spec.build && put.fate.Served?
    ensures Call(Apply(s, Turn(get)).t) == Ask(StoreDeployer)
    ensures if Told(first, Fine) then StoresMove(Three(s, get, first, put), w) else Two(s, get, first) == s
  {
    GetTurn(s, w, get);
    MoveTurns(Apply(s, Turn(get)), w, first, put);
  }

  /** A spec that cannot be generated: one without its base image ends the reconcile; one that panics is stored
      as Failed, with its round as it was and, if a later round was asked for, a record of it all the same. */
  lemma ServedMisfit(s: WorkflowState, w: Workflow, get: WorkflowLuck, put: WorkflowLuck)
    requires ReadyLive(s, w, get) && w.spec.round != w.base.value.currentRound && put.fate.Served?
    ensures !Panics(w.spec) && Rejects(w.spec) ==> Apply(s, Turn(get)) == s
    ensures Panics(w.spec) ==>
              var b := w.base.value;
              Stores(Two(s, get, put), w,
                     if w.spec.round < b.currentRound || b.currentRound == 0 then b.(status := Failed)
                     else b.(status := Failed, history := b.history + [HistoryRecord(b.currentRound, b.status)]))
  {
    GetTurn(s, w, get);
  }

  /* ---- the stored round ---- */

  predicate ReadyInRound(s: WorkflowState, w: Workflow, get: WorkflowLuck) {
    ReadyLive(s, w, get) && w.spec.round == w.base.value.currentRound
  }

  /** What the builder, if there is one, and the deployer make of the workflow's status. */
  predicate Sums(builder: Option<Status>, deployer: Status, before: Status, after: Status) {
    && (builder == None ==> after == deployer)
    && (builder == Some(Doing) ==> after == Doing)
    && (builder == Some(Done) || builder == Some(Failed) ==>
          && (deployer == Undo || deployer == Pending ==> after == Doing)
          && (deployer == Blank || deployer == Doing || deployer == Done || deployer == Failed ==> after == deployer))
    && (builder == Some(Blank) || builder == Some(Undo) || builder == Some(Pending) ==> after == before)
  }

  predicate BuilderSays(luck: WorkflowLuck, builder: Option<Status>) {
    Told(luck, if builder.None? then Missing else WorkflowAnswer.Seen(builder.value))
  }

  lemma SumsAggregate(builder: Option<Status>, deployer: Status, before: Status, after: Status)
    ensures Sums(builder, deployer, before, after) <==> after == Aggregate(before, builder, deployer)
  {
    assert builder == None || builder == Some(builder.value);
  }

  /** Four served turns store what the builder and the deployer say, and nothing else changes. */
  lemma ServedObserve(s: WorkflowState, w: Workflow, builder: Option<Status>, deployer: Status, after: Status,
                      get: WorkflowLuck, first: WorkflowLuck, second: WorkflowLuck, put: WorkflowLuck)
    requires ReadyInRound(s, w, get) && BuilderSays(first, builder) && Told(second, WorkflowAnswer.Seen(deployer))
    requires put.fate.Served? && Sums(builder, deployer, w.base.value.status, after)
    ensures Stores(Four(s, get, first, second, put), w, w.base.value.(status := after))
    ensures Four(s, get, first, second, put).t.Idle?
  {
    GetTurn(s, w, get);
    SumsAggregate(builder, deployer, w.base.value.status, after);
    assert Two(s, get, first).t == FindDeployer(w, |s.h| - 1, builder);
    assert Three(s, get, first, second).t == Publish(Marked(w, after), |s.h| - 1);
  }

  /** So it is stored as Done if and only if the deployer is Done and the builder missing or at an end, or if it
      was Done before and the builder has not begun. */
  lemma ServedDoneIff(s: WorkflowState, w: Workflow, builder: Option<Status>, deployer: Status,
                      get: WorkflowLuck, first: WorkflowLuck, second: WorkflowLuck, put: WorkflowLuck)
    requires ReadyInRound(s, w, get) && BuilderSays(first, builder) && Told(second, WorkflowAnswer.Seen(deployer))
    requires put.fate.Served?
    ensures var s' := Four(s, get, first, second, put);
            && Latest(s'.h).Some? && Latest(s'.h).value.base.Some?
            && (Latest(s'.h).value.base.value.status == Done <==>
                  || (deployer == Done && (builder == None || builder == Some(Done) || builder == Some(Failed)))
                  || (w.base.value.status == Done
                      && (builder == Some(Blank) || builder == Some(Undo) || builder == Some(Pending))))
  {
    var after := Aggregate(w.base.value.status, builder, deployer);
    assert builder == None || builder == Some(builder.value);
    SumsAggregate(builder, deployer, w.base.value.status, after);
    ServedObserve(s, w, builder, deployer, after, get, first, second, put);
  }

  /** If either cannot be looked up, or the deployer is missing, nothing is stored. */
  lemma ServedObserveFails(s: WorkflowState, w: Workflow, get: WorkflowLuck, first: WorkflowLuck,
                           second: WorkflowLuck)
    requires ReadyInRound(s, w, get)
    ensures first.fate != Served ==> Two(s, get, first) == s
    ensures first.fate == Served && (first.reply.Missing? || first.reply.Seen?) ==>
              (second.fate != Served || second.reply.Missing? ==> Three(s, get, first, second) == s)
  {
    GetTurn(s, w, get);
  }
}
