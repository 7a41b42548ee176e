/** The workflow's rounds: the third instance of the round machine. One workflow, its reconciles cut at
    their API calls, and whoever edits it; its builder and deployer answer as they please. */
module WorkflowCluster {
  import opened Objects
  import opened Rounds
  import opened Lives
  import opened Api

  /** The parts of a deploy section that decide whether a workload can be generated from it. */
  datatype DeploySpec = DeploySpec(changeEnv: bool, hasBaseImage: bool, hasFilePair: bool)

  datatype WorkflowSpec = WorkflowSpec(round: int, build: bool, deploy: DeploySpec)

  /** A new workflow has no base status. */
  datatype Workflow = Workflow(spec: WorkflowSpec, base: Option<CommonStatus>, finalizer: bool, deleting: bool)

  function BaseOf(w: Workflow): CommonStatus {
    if w.base.Some? then w.base.value else BLANK
  }

  /** `GenerateWorkload` dereferences a nil base image or file pair. */
  predicate Panics(spec: WorkflowSpec) {
    if spec.build then spec.deploy.changeEnv && spec.deploy.hasBaseImage && !spec.deploy.hasFilePair
    else !spec.deploy.hasBaseImage
  }

  /** `GenerateWorkload` reports a missing base image. */
  predicate Rejects(spec: WorkflowSpec) {
    spec.build && spec.deploy.changeEnv && !spec.deploy.hasBaseImage
  }

  datatype WorkflowQuestion = StoreBuilder | StoreDeployer | TheBuilder | TheDeployer

  datatype WorkflowRequest =
    | Get
    | Guard(finalizer: bool, ver: nat)
    | Save(status: CommonStatus, ver: nat)
    | Ask(question: WorkflowQuestion)

  datatype WorkflowAnswer =
    | Trouble
    | SavedAt(ver: nat)
    | Got(workflow: Workflow, ver: nat)
    | Fine
    | Missing
    | Seen(status: Status)

  type WorkflowLuck = Luck<WorkflowAnswer>

  datatype Aim = Parking | Advancing

  datatype WorkflowThread =
    | Idle
    | AddFinalizer(mem: Workflow, ver: nat)
    | InitBase(mem: Workflow, ver: nat)
    | PutBuilder(mem: Workflow, ver: nat, aim: Aim)
    | PutDeployer(mem: Workflow, ver: nat, aim: Aim)
    | Park(mem: Workflow, ver: nat)
    | Commit(mem: Workflow, ver: nat)
    | FindBuilder(mem: Workflow, ver: nat)
    | FindDeployer(mem: Workflow, ver: nat, builder: Option<Status>)
    | Publish(mem: Workflow, ver: nat)
    | Recover(mem: Workflow, ver: nat)    // publishes what a panic left in memory
    | DropFinalizer(mem: Workflow, ver: nat)

  /** `earned`: the rounds in which the deployer was seen Done, the builder absent or at an end, by a
      reconcile that held the stored version. `botched`: a recovered panic was stored past the first
      round. */
  datatype WorkflowState = WorkflowState(
    h: Versions<Workflow>, t: WorkflowThread, earned: set<int>, botched: bool)

  const NO_WORKFLOW := WorkflowState([], Idle, {}, false)

  datatype WorkflowAction =
    | Turn(luck: WorkflowLuck)
    | Crash
    | Create(spec: WorkflowSpec)
    | Edit(spec: WorkflowSpec, keepFinalizer: bool)
    | Delete

  function WithBase(mem: Workflow, c: CommonStatus): Workflow {
    mem.(base := Some(c))
  }

  function Marked(mem: Workflow, s: Status): Workflow {
    WithBase(mem, BaseOf(mem).(status := s))
  }

  /** The round begun in memory, whose history was backed up before the workload was generated. */
  function Started(mem: Workflow): Workflow {
    WithBase(mem, BaseOf(mem).(status := Pending, currentRound := mem.spec.round))
  }

  /** The object as the answer to an update returns it, and as it is stored. */
  function Updated(mem: Workflow): Workflow {
    mem.(spec := mem.spec.(round := Defaulted(mem.spec.round)))
  }

  function AfterGenerate(mem: Workflow, ver: nat, aim: Aim): WorkflowThread {
    match aim
    case Parking => Park(Marked(mem, Undo), ver)
    case Advancing => Commit(Started(mem), ver)
  }

  function Generate(mem: Workflow, ver: nat, aim: Aim): WorkflowThread {
    if Panics(mem.spec) then Recover(Marked(mem, Failed), ver)
    else if Rejects(mem.spec) then Idle
    else if mem.spec.build then PutBuilder(mem, ver, aim)
    else PutDeployer(mem, ver, aim)
  }

  function Route(mem: Workflow, ver: nat): WorkflowThread {
    if mem.base.None? then InitBase(WithBase(mem, BLANK), ver)
    else if mem.spec.round < BaseOf(mem).currentRound then Generate(mem, ver, Parking)
    else if mem.spec.round > BaseOf(mem).currentRound then
      Generate(WithBase(mem, Backup(BaseOf(mem))), ver, Advancing)
    else FindBuilder(mem, ver)
  }

  function Begin(mem: Workflow, ver: nat): WorkflowThread {
    if mem.deleting then (if mem.finalizer then DropFinalizer(mem.(finalizer := false), ver) else Idle)
    else if !mem.finalizer then AddFinalizer(mem.(finalizer := true), ver)
    else Route(mem, ver)
  }

  /** The workflow's status from its own, its builder's and its deployer's. */
  function Aggregate(mine: Status, builder: Option<Status>, deployer: Status): Status {
    match builder
    case None => deployer
    case Some(b) =>
      if b == Doing then Doing
      else if Terminal(b) then (if HasStarted(deployer) then deployer else Doing)
      else mine
  }

  function Call(t: WorkflowThread): WorkflowRequest {
    match t
    case Idle => Get
    case AddFinalizer(_, ver) => Guard(true, ver)
    case InitBase(mem, ver) => Save(BaseOf(mem), ver)
    case PutBuilder(_, _, _) => Ask(StoreBuilder)
    case PutDeployer(_, _, _) => Ask(StoreDeployer)
    case Park(mem, ver) => Save(BaseOf(mem), ver)
    case Commit(mem, ver) => Save(BaseOf(mem), ver)
    case FindBuilder(_, _) => Ask(TheBuilder)
    case FindDeployer(_, _, _) => Ask(TheDeployer)
    case Publish(mem, ver) => Save(BaseOf(mem), ver)
    case Recover(mem, ver) => Save(BaseOf(mem), ver)
    case DropFinalizer(_, ver) => Guard(false, ver)
  }

  function Resume(t: WorkflowThread, r: WorkflowAnswer): WorkflowThread {
    match t
    case Idle => if r.Got? then Begin(r.workflow, r.ver) else Idle
    case AddFinalizer(mem, _) => if r.SavedAt? then Route(Updated(mem), r.ver) else Idle
    case InitBase(_, _) => Idle
    case PutBuilder(mem, ver, aim) => if r.Fine? then PutDeployer(mem, ver, aim) else Idle
    case PutDeployer(mem, ver, aim) => if r.Fine? then AfterGenerate(mem, ver, aim) else Idle
    case Park(_, _) => Idle
    case Commit(_, _) => Idle
    case FindBuilder(mem, ver) =>
      if r.Seen? then FindDeployer(mem, ver, Some(r.status))
      else if r.Missing? then FindDeployer(mem, ver, None)
      else Idle
    case FindDeployer(mem, ver, builder) =>
      if r.Seen? then Publish(Marked(mem, Aggregate(BaseOf(mem).status, builder, r.status)), ver) else Idle
    case Publish(_, _) => Idle
    case Recover(_, _) => Idle
    case DropFinalizer(_, _) => Idle
  }

  function KeptWorkflow(w: Workflow): Option<Workflow> {
    if w.deleting && !w.finalizer then None else Some(w)
  }

  predicate WorkflowLands(h: Versions<Workflow>, req: WorkflowRequest, luck: WorkflowLuck) {
    !luck.fate.Refused? && (req.Guard? || req.Save?) && IsCurrent(h, req.ver)
  }

  function Revision(w: Workflow, req: WorkflowRequest): Option<Workflow>
    requires req.Guard? || req.Save?
  {
    if req.Guard? then KeptWorkflow(Updated(w).(finalizer := req.finalizer)) else Some(WithBase(w, req.status))
  }

  function VersionsAfter(h: Versions<Workflow>, req: WorkflowRequest, luck: WorkflowLuck): Versions<Workflow> {
    if WorkflowLands(h, req, luck) then Put(h, Revision(h[req.ver].value, req), luck.quiet) else h
  }

  function AnswerTo(h: Versions<Workflow>, req: WorkflowRequest, luck: WorkflowLuck): WorkflowAnswer {
    if !luck.fate.Served? then Trouble else
    match req
    case Get =>
      var r := Read(h, luck.index);
      if r.Some? then Got(r.value.0, r.value.1) else Trouble
    case Ask(_) => if luck.reply.Got? || luck.reply.SavedAt? then Trouble else luck.reply
    case _ => if WorkflowLands(h, req, luck) then SavedAt(|VersionsAfter(h, req, luck)| - 1) else Trouble
  }

  predicate Earns(t: WorkflowThread, r: WorkflowAnswer) {
    t.FindDeployer? && r == Seen(Done) && (t.builder.None? || Terminal(t.builder.value))
  }

  /** A later round is asked for. */
  predicate LaterAsked(x: Workflow) {
    x.spec.round > BaseOf(x).currentRound
  }

  /** The landing write of a recovered panic, in a round that is not the first. */
  predicate Botches(s: WorkflowState, luck: WorkflowLuck) {
    && s.t.Recover? && WorkflowLands(s.h, Call(s.t), luck)
    && LaterAsked(s.h[s.t.ver].value) && BaseOf(s.h[s.t.ver].value).currentRound != 0
  }

  function Turned(s: WorkflowState, luck: WorkflowLuck): WorkflowState {
    var req := Call(s.t);
    var r := AnswerTo(s.h, req, luck);
    var now := Earns(s.t, r) && IsCurrent(s.h, s.t.ver);
    WorkflowState(VersionsAfter(s.h, req, luck), Resume(s.t, r),
                  if now then s.earned + {BaseOf(s.t.mem).currentRound} else s.earned,
                  s.botched || Botches(s, luck))
  }

  function Apply(s: WorkflowState, a: WorkflowAction): WorkflowState {
    match a
    case Turn(luck) => Turned(s, luck)
    case Crash => s.(t := Idle)
    case Create(spec) =>
      if Latest(s.h).Some? then s
      else s.(h := s.h + [Some(Workflow(spec, None, false, false))], earned := {}, botched := false)
    case Edit(spec, keep) =>
      if Latest(s.h).None? then s
      else
        var w := Latest(s.h).value;
        s.(h := s.h + [KeptWorkflow(w.(spec := spec, finalizer := w.finalizer && keep))])
    case Delete =>
      if Latest(s.h).None? then s else s.(h := s.h + [KeptWorkflow(Latest(s.h).value.(deleting := true))])
  }

  function Exec(acts: seq<WorkflowAction>): WorkflowState {
    if acts == [] then NO_WORKFLOW else Apply(Exec(acts[..|acts| - 1]), acts[|acts| - 1])
  }

  /* ---- Done is earned ---- */

  /** If the stored or the in-memory status says Done, that round has earned it. */
  predicate Earned(s: WorkflowState) {
    && (Latest(s.h).Some? && BaseOf(Latest(s.h).value).status == Done ==>
          BaseOf(Latest(s.h).value).currentRound in s.earned)
    && (!s.t.Idle? ==>
          && s.t.ver < |s.h|
          && (IsCurrent(s.h, s.t.ver) && BaseOf(s.t.mem).status == Done ==> BaseOf(s.t.mem).currentRound in s.earned))
  }

  lemma StepEarned(s: WorkflowState, a: WorkflowAction)
    requires Earned(s)
    ensures Earned(Apply(s, a))
  {
  }

  lemma {:induction false} RunEarned(acts: seq<WorkflowAction>)
    ensures Earned(Exec(acts))
    decreases |acts|
  {
    if acts != [] {
      RunEarned(acts[..|acts| - 1]);
      StepEarned(Exec(acts[..|acts| - 1]), acts[|acts| - 1]);
    }
  }

  /** Done is earned: in every run a stored Done in round `r` means that, while `r` was the stored round, a
      reconcile saw the deployer Done and the builder absent or at an end. */
  lemma WorkflowDoneEarned(acts: seq<WorkflowAction>)
    requires Latest(Exec(acts).h).Some? && BaseOf(Latest(Exec(acts).h).value).status == Done
    ensures BaseOf(Latest(Exec(acts).h).value).currentRound in Exec(acts).earned
  {
    RunEarned(acts);
  }

  /* ---- history, and the panic that spoils it ---- */

  /** What a reconcile holds in memory, given the version it read or last wrote. */
  predicate Derives(x: Workflow, t: WorkflowThread)
    requires !t.Idle?
  {
    && t.mem.spec == x.spec
    && if t.AddFinalizer? then t.mem.base == x.base
       else if t.PutBuilder? || t.PutDeployer? then
         if t.aim.Advancing? then LaterAsked(x) && BaseOf(t.mem) == Backup(BaseOf(x))
         else SameRound(BaseOf(x), BaseOf(t.mem))
       else if t.Commit? then Advances(BaseOf(x), BaseOf(t.mem))
       else if t.Recover? then
         && Panics(x.spec) && BaseOf(t.mem).currentRound == BaseOf(x).currentRound
         && BaseOf(t.mem).history == if LaterAsked(x) then Backup(BaseOf(x)).history else BaseOf(x).history
       else SameRound(BaseOf(x), BaseOf(t.mem))
  }

  predicate Derived(h: Versions<Workflow>, t: WorkflowThread) {
    !t.Idle? ==> t.ver < |h| && h[t.ver].Some? && Derives(h[t.ver].value, t)
  }

  lemma RouteDerives(h: Versions<Workflow>, x: Workflow, ver: nat)
    requires ver < |h| && h[ver].Some?
    requires h[ver].value.spec == x.spec && h[ver].value.base == x.base
    ensures Derived(h, Route(x, ver))
  {
  }

  /** No answer that moves no version takes memory away from the version it came from. */
  lemma AskDerives(h: Versions<Workflow>, t: WorkflowThread, r: WorkflowAnswer)
    requires Derived(h, t) && (t.Idle? || Call(t).Ask?)
    requires t.Idle? && r.Got? ==> r.ver < |h| && h[r.ver] == Some(r.workflow)
    ensures Derived(h, Resume(t, r))
  {
    if t.Idle? && r.Got? {
      RouteDerives(h, r.workflow, r.ver);
    }
  }

  lemma StepDerived(s: WorkflowState, a: WorkflowAction)
    requires Derived(s.h, s.t)
    ensures Derived(Apply(s, a).h, Apply(s, a).t)
  {
    Grows(s, a);
    if a.Turn? {
      var req := Call(s.t);
      var r := AnswerTo(s.h, req, a.luck);
      if s.t.Idle? || req.Ask? {
        AskDerives(s.h, s.t, r);
      } else if s.t.AddFinalizer? && r.SavedAt? {
        RouteDerives(Apply(s, a).h, Updated(s.t.mem), r.ver);
      }
    }
  }

  /** No version of the workflow asks for a workload that cannot be generated. */
  predicate Sane(h: Versions<Workflow>) {
    forall i | 0 <= i < |h| && h[i].Some? :: !Panics(h[i].value.spec)
  }

  lemma StepWellRun(s: WorkflowState, a: WorkflowAction, lax: bool)
    requires Derived(s.h, s.t) && WellRun(s.h, BaseOf, lax) && (lax || Sane(s.h))
    ensures WellRun(Apply(s, a).h, BaseOf, lax)
    ensures s.h <= Apply(s, a).h
  {
    var h' := Apply(s, a).h;
    if h' != s.h {
      SnocWellRun(s.h, BaseOf, lax, Latest(h'));
      assert h' == s.h + [Latest(h')];
    }
  }

  lemma {:induction false} RunOrderly(acts: seq<WorkflowAction>, lax: bool)
    requires lax || Sane(Exec(acts).h)
    ensures Derived(Exec(acts).h, Exec(acts).t) && WellRun(Exec(acts).h, BaseOf, lax)
    decreases |acts|
  {
    if acts != [] {
      var s, a := Exec(acts[..|acts| - 1]), acts[|acts| - 1];
      Grows(s, a);
      RunOrderly(acts[..|acts| - 1], lax);
      StepDerived(s, a);
      StepWellRun(s, a, lax);
    }
  }

  lemma Grows(s: WorkflowState, a: WorkflowAction)
    ensures s.h <= Apply(s, a).h
    ensures Sane(Apply(s, a).h) ==> Sane(s.h)
  {
    var h' := Apply(s, a).h;
    assert Sane(h') ==> forall i | 0 <= i < |s.h| && s.h[i].Some? :: h'[i] == s.h[i] && !Panics(s.h[i].value.spec);
  }

  lemma SaveStutters(x: Workflow, t: WorkflowThread)
    requires !t.Idle? && Derives(x, t) && Call(t).Save?
    ensures Stutters(BaseOf(x), BaseOf(t.mem)) <==> t.Recover? && LaterAsked(x) && BaseOf(x).currentRound != 0
  {
  }

  /** One step stutters exactly if it stores a recovered panic past the first round. */
  lemma StutterIffBotches(s: WorkflowState, a: WorkflowAction)
    requires Derived(s.h, s.t) && Latest(s.h).Some? && Latest(Apply(s, a).h).Some?
    ensures Stutters(BaseOf(Latest(s.h).value), BaseOf(Latest(Apply(s, a).h).value))
            <==> a.Turn? && Botches(s, a.luck)
  {
    var before, after := BaseOf(Latest(s.h).value), BaseOf(Latest(Apply(s, a).h).value);
    if a.Turn? && WorkflowLands(s.h, Call(s.t), a.luck) && Call(s.t).Save? {
      SaveStutters(s.h[s.t.ver].value, s.t);
      assert after == BaseOf(s.t.mem);
    } else {
      assert after == before;
    }
  }

  /** Records of rounds begun, none later than the current one. */
  predicate Proper(c: CommonStatus) {
    c.currentRound >= 0 && forall k | 0 <= k < |c.history| :: 0 < c.history[k].round <= c.currentRound
  }

  /** The stored history is spoiled if and only if a panic botched it. */
  predicate Accounted(s: WorkflowState) {
    Latest(s.h).Some? ==>
      Proper(BaseOf(Latest(s.h).value)) && (Spoiled(BaseOf(Latest(s.h).value)) <==> s.botched)
  }

  lemma StepAccounted(s: WorkflowState, a: WorkflowAction)
    requires Derived(s.h, s.t) && WellRun(s.h, BaseOf, true) && WellRun(Apply(s, a).h, BaseOf, true) && Accounted(s)
    ensures Accounted(Apply(s, a))
  {
    var h, h' := s.h, Apply(s, a).h;
    if Latest(h').Some? && Latest(h).Some? {
      var before, after := BaseOf(Latest(h).value), BaseOf(Latest(h').value);
      StutterIffBotches(s, a);
      Grows(s, a);
      assert GoodVersion(h', BaseOf, true, |h'| - 1);
      assert h' == h || h' == h + [Latest(h')];
      assert Moves(before, after, true);
      SpoiledStep(before, after);
    }
  }

  lemma {:induction false} RunAccounted(acts: seq<WorkflowAction>)
    ensures Accounted(Exec(acts))
    decreases |acts|
  {
    if acts != [] {
      RunAccounted(acts[..|acts| - 1]);
      RunOrderly(acts[..|acts| - 1], true);
      RunOrderly(acts, true);
      StepAccounted(Exec(acts[..|acts| - 1]), acts[|acts| - 1]);
    }
  }

  lemma AccountedExact(s: WorkflowState, b: nat)
    requires s.h != [] && OneLife(s.h, b, |s.h| - 1) && WellRun(s.h, BaseOf, true) && Accounted(s)
    ensures Exact(StatusesOf(s.h, BaseOf, b, |s.h| - 1)) <==> !s.botched
  {
    LifeExactIff(s.h, BaseOf, b, |s.h| - 1);
  }

  /** A workflow's history is exact if and only if no recovered panic was stored past its first round:
      in every run, with stale reads and lost writes. */
  lemma WorkflowHistoryExactIff(acts: seq<WorkflowAction>, b: nat)
    requires Exec(acts).h != [] && OneLife(Exec(acts).h, b, |Exec(acts).h| - 1)
    ensures Exact(StatusesOf(Exec(acts).h, BaseOf, b, |Exec(acts).h| - 1)) <==> !Exec(acts).botched
  {
    RunAccounted(acts);
    RunOrderly(acts, true);
    AccountedExact(Exec(acts), b);
  }

  /** While every spec is sane the history is exact. */
  lemma SaneWorkflowHistoryExact(acts: seq<WorkflowAction>, b: nat, i: nat)
    requires OneLife(Exec(acts).h, b, i) && Sane(Exec(acts).h)
    ensures ExactLife(Exec(acts).h, BaseOf, b, i)
  {
    RunOrderly(acts, false);
    LifeIsExact(Exec(acts).h, BaseOf, b, i);
  }

  const GRANTED := Luck(Served, 0, false, Fine)

  /** Two calls of a reconcile that reads the latest version, both served. */
  function TwoCalls(s: WorkflowState): WorkflowState {
    Apply(Apply(s, Turn(GRANTED.(index := |s.h|))), Turn(GRANTED))
  }

  /** When the code stutters: a live workflow past its first round, asked for a later one by a spec that
      panics. The next reconcile then stores a record of a round that is not over; on any other spec
      its first two calls do not. */
  lemma StuttersIffPanics(s: WorkflowState)
    requires s.t.Idle? && Latest(s.h).Some?
    requires var w := Latest(s.h).value; w.finalizer && !w.deleting && w.base.Some?
    requires BaseOf(Latest(s.h).value).currentRound >= 0
    ensures var w, s' := Latest(s.h).value, TwoCalls(s);
            && Latest(s'.h).Some?
            && (Stutters(BaseOf(w), BaseOf(Latest(s'.h).value)) <==>
                  Panics(w.spec) && w.spec.round > BaseOf(w).currentRound && BaseOf(w).currentRound != 0)
  {
    var s1 := Apply(s, Turn(GRANTED.(index := |s.h|)));
    assert Read(s.h, |s.h|) == Some((Latest(s.h).value, |s.h| - 1));
    assert s1.t == Route(Latest(s.h).value, |s.h| - 1);
  }
}
