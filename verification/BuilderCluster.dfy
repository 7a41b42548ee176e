/** The builder's rounds: the second instance of the round machine, with a hook after success. One
    builder, its reconciles cut at their API calls, and whoever edits it. Jobs, pods and the hook answer
    as they please. */
module BuilderCluster {
  import opened Objects
  import opened Rounds
  import opened Lives
  import opened Pods
  import opened Api

  datatype Builder = Builder(round: int, status: CommonStatus, finalizer: bool, deleting: bool)

  datatype Question = OldJob | DropJob | CurrentJob | NewJob | PodsOfJob | Hook

  datatype BuilderRequest =
    | Get
    | Guard(finalizer: bool, ver: nat)
    | Save(status: CommonStatus, ver: nat)
    | Ask(question: Question)

  datatype BuilderAnswer =
    | Trouble
    | SavedAt(ver: nat)
    | Got(builder: Builder, ver: nat)
    | There(found: bool)
    | Fine
    | PodsSeen(pods: PodList)

  type BuilderLuck = Luck<BuilderAnswer>

  datatype BuilderThread =
    | Idle
    | AddFinalizer(mem: Builder, ver: nat)
    | Park(mem: Builder, ver: nat)
    | FindOldJob(mem: Builder, ver: nat)
    | DropOldJob(mem: Builder, ver: nat)
    | Commit(mem: Builder, ver: nat)
    | FindJob(mem: Builder, ver: nat)
    | Announce(mem: Builder, ver: nat)
    | MakeJob(mem: Builder, ver: nat)
    | Watch(mem: Builder, ver: nat)
    | Trigger(mem: Builder, ver: nat)     // the hook runs
    | Publish(mem: Builder, ver: nat)
    | DropFinalizer(mem: Builder, ver: nat)

  /** `fired`: the rounds in which the hook has succeeded while they were the stored round. */
  datatype BuilderState = BuilderState(h: Versions<Builder>, t: BuilderThread, fired: set<int>)

  const NO_BUILDER := BuilderState([], Idle, {})

  datatype BuilderAction =
    | Turn(luck: BuilderLuck)
    | Crash
    | Create(round: int)
    | Edit(round: int, keepFinalizer: bool)
    | Delete

  function Marked(mem: Builder, s: Status): Builder {
    mem.(status := mem.status.(status := s))
  }

  /** The object as the answer to an update returns it, and as it is stored. */
  function Updated(mem: Builder): Builder {
    mem.(round := Defaulted(mem.round))
  }

  function Route(mem: Builder, ver: nat): BuilderThread {
    if mem.round < mem.status.currentRound then Park(Marked(mem, Undo), ver)
    else if mem.round > mem.status.currentRound then FindOldJob(mem, ver)
    else FindJob(mem, ver)
  }

  function Begin(mem: Builder, ver: nat): BuilderThread {
    if mem.deleting then (if mem.finalizer then DropFinalizer(mem.(finalizer := false), ver) else Idle)
    else if !mem.finalizer then AddFinalizer(mem.(finalizer := true), ver)
    else Route(mem, ver)
  }

  /** The next round in memory. */
  function NextRound(mem: Builder): Builder {
    mem.(status := StartRound(mem.status, mem.round))
  }

  /** What the pod's status makes of the builder: a first success has to pass the hook. */
  function Judge(mem: Builder, ver: nat, s: Status): BuilderThread {
    if s == Done && mem.status.status != Done then Trigger(mem, ver) else Publish(Marked(mem, s), ver)
  }

  function Call(t: BuilderThread): BuilderRequest {
    match t
    case Idle => Get
    case AddFinalizer(_, ver) => Guard(true, ver)
    case Park(mem, ver) => Save(mem.status, ver)
    case FindOldJob(_, _) => Ask(OldJob)
    case DropOldJob(_, _) => Ask(DropJob)
    case Commit(mem, ver) => Save(mem.status, ver)
    case FindJob(_, _) => Ask(CurrentJob)
    case Announce(mem, ver) => Save(mem.status, ver)
    case MakeJob(_, _) => Ask(NewJob)
    case Watch(_, _) => Ask(PodsOfJob)
    case Trigger(_, _) => Ask(Hook)
    case Publish(mem, ver) => Save(mem.status, ver)
    case DropFinalizer(_, ver) => Guard(false, ver)
  }

  function Resume(t: BuilderThread, r: BuilderAnswer): BuilderThread {
    match t
    case Idle => if r.Got? then Begin(r.builder, r.ver) else Idle
    case AddFinalizer(mem, _) => if r.SavedAt? then Route(Updated(mem), r.ver) else Idle
    case Park(_, _) => Idle
    case FindOldJob(mem, ver) =>
      if r == There(true) then DropOldJob(mem, ver)
      else if r == There(false) then Commit(NextRound(mem), ver)
      else Idle
    case DropOldJob(mem, ver) => if r.Fine? then Commit(NextRound(mem), ver) else Idle
    case Commit(_, _) => Idle
    case FindJob(mem, ver) =>
      if r == There(true) then Watch(mem, ver)
      else if r == There(false) then Announce(Marked(mem, Pending), ver)
      else Publish(Marked(mem, Failed), ver)
    case Announce(mem, ver) => MakeJob(mem, if r.SavedAt? then r.ver else ver)
    case MakeJob(mem, ver) => if r.Fine? then Publish(mem, ver) else Publish(Marked(mem, Failed), ver)
    case Watch(mem, ver) =>
      if r.PodsSeen? then Judge(mem, ver, StatusOf(r.pods)) else Publish(Marked(mem, Failed), ver)
    case Trigger(mem, ver) => if r.Fine? then Publish(Marked(mem, Done), ver) else Publish(Marked(mem, Doing), ver)
    case Publish(_, _) => Idle
    case DropFinalizer(_, _) => Idle
  }

  function KeptBuilder(x: Builder): Option<Builder> {
    if x.deleting && !x.finalizer then None else Some(x)
  }

  predicate BuilderLands(h: Versions<Builder>, req: BuilderRequest, luck: BuilderLuck) {
    !luck.fate.Refused? && (req.Guard? || req.Save?) && IsCurrent(h, req.ver)
  }

  function Revision(x: Builder, req: BuilderRequest): Option<Builder>
    requires req.Guard? || req.Save?
  {
    if req.Guard? then KeptBuilder(Updated(x).(finalizer := req.finalizer)) else Some(x.(status := req.status))
  }

  function VersionsAfter(h: Versions<Builder>, req: BuilderRequest, luck: BuilderLuck): Versions<Builder> {
    if BuilderLands(h, req, luck) then Put(h, Revision(h[req.ver].value, req), luck.quiet) else h
  }

  function AnswerTo(h: Versions<Builder>, req: BuilderRequest, luck: BuilderLuck): BuilderAnswer {
    if !luck.fate.Served? then Trouble else
    match req
    case Get =>
      var r := Read(h, luck.index);
      if r.Some? then Got(r.value.0, r.value.1) else Trouble
    case Ask(_) => if luck.reply.Got? || luck.reply.SavedAt? then Trouble else luck.reply
    case _ => if BuilderLands(h, req, luck) then SavedAt(|VersionsAfter(h, req, luck)| - 1) else Trouble
  }

  function Turned(s: BuilderState, luck: BuilderLuck): BuilderState {
    var req := Call(s.t);
    var r := AnswerTo(s.h, req, luck);
    var fires := s.t.Trigger? && r.Fine? && IsCurrent(s.h, s.t.ver);
    BuilderState(VersionsAfter(s.h, req, luck), Resume(s.t, r),
                 if fires then s.fired + {s.t.mem.status.currentRound} else s.fired)
  }

  function Apply(s: BuilderState, a: BuilderAction): BuilderState {
    match a
    case Turn(luck) => Turned(s, luck)
    case Crash => s.(t := Idle)
    case Create(round) =>
      if Latest(s.h).Some? then s else s.(h := s.h + [Some(Builder(round, BLANK, false, false))], fired := {})
    case Edit(round, keep) =>
      if Latest(s.h).None? then s
      else
        var x := Latest(s.h).value;
        s.(h := s.h + [KeptBuilder(x.(round := round, finalizer := x.finalizer && keep))])
    case Delete =>
      if Latest(s.h).None? then s else s.(h := s.h + [KeptBuilder(Latest(s.h).value.(deleting := true))])
  }

  function Exec(acts: seq<BuilderAction>): BuilderState {
    if acts == [] then NO_BUILDER else Apply(Exec(acts[..|acts| - 1]), acts[|acts| - 1])
  }

  /* ---- Done is earned by the hook ---- */

  /** If the stored or the in-memory status says Done, the hook has succeeded in that round. */
  predicate Earned(s: BuilderState) {
    && (Latest(s.h).Some? && Latest(s.h).value.status.status == Done ==>
          Latest(s.h).value.status.currentRound in s.fired)
    && (!s.t.Idle? ==>
          && s.t.ver < |s.h|
          && (IsCurrent(s.h, s.t.ver) && s.t.mem.status.status == Done ==> s.t.mem.status.currentRound in s.fired))
  }

  lemma StepEarned(s: BuilderState, a: BuilderAction)
    requires Earned(s)
    ensures Earned(Apply(s, a))
  {
  }

  lemma {:induction false} RunEarned(acts: seq<BuilderAction>)
    ensures Earned(Exec(acts))
    decreases |acts|
  {
    if acts != [] {
      RunEarned(acts[..|acts| - 1]);
      StepEarned(Exec(acts[..|acts| - 1]), acts[|acts| - 1]);
    }
  }

  /** Done implies the hook succeeded: in every run, with stale reads, lost and swallowed writes, a stored
      Done in round `r` means the hook has succeeded while `r` was the stored round. */
  lemma DoneImpliesHook(acts: seq<BuilderAction>)
    requires Latest(Exec(acts).h).Some? && Latest(Exec(acts).h).value.status.status == Done
    ensures Latest(Exec(acts).h).value.status.currentRound in Exec(acts).fired
  {
    RunEarned(acts);
  }

  /** A hook that fails leaves Doing: that is what the next status write stores. */
  lemma FailedHookKeepsDoing(s: BuilderState, failing: BuilderLuck, writing: BuilderLuck)
    requires s.t.Trigger? && !AnswerTo(s.h, Call(s.t), failing).Fine?
    requires IsCurrent(s.h, s.t.ver) && !writing.fate.Refused?
    ensures var s' := Apply(Apply(s, Turn(failing)), Turn(writing));
            Latest(s'.h).Some? && Latest(s'.h).value.status.status == Doing && s'.fired == s.fired
  {
  }

  /* ---- history ---- */

  /** What a reconcile holds in memory, given the version it read or last wrote. */
  predicate Derives(x: Builder, t: BuilderThread)
    requires !t.Idle?
  {
    && t.mem.round == x.round
    && if t.FindOldJob? || t.DropOldJob? then t.mem.status == x.status && t.mem.round > x.status.currentRound
       else if t.AddFinalizer? then t.mem.status == x.status
       else if t.Commit? then Advances(x.status, t.mem.status)
       else SameRound(x.status, t.mem.status)
  }

  predicate Derived(h: Versions<Builder>, t: BuilderThread) {
    !t.Idle? ==> t.ver < |h| && h[t.ver].Some? && Derives(h[t.ver].value, t)
  }

  function BaseOf(x: Builder): CommonStatus {
    x.status
  }

  lemma StepWellRun(s: BuilderState, a: BuilderAction)
    requires Derived(s.h, s.t) && WellRun(s.h, BaseOf, false)
    ensures WellRun(Apply(s, a).h, BaseOf, false)
  {
    var h' := Apply(s, a).h;
    if h' != s.h {
      SnocWellRun(s.h, BaseOf, false, Latest(h'));
      assert h' == s.h + [Latest(h')];
    }
  }

  lemma RouteDerives(h: Versions<Builder>, x: Builder, ver: nat)
    requires ver < |h| && h[ver].Some? && h[ver].value.round == x.round && h[ver].value.status == x.status
    ensures Derived(h, Route(x, ver))
  {
  }

  /** An answer that moves no version keeps memory derived from the same one. */
  lemma AskDerives(h: Versions<Builder>, t: BuilderThread, r: BuilderAnswer)
    requires Derived(h, t) && (t.Idle? || Call(t).Ask?)
    requires t.Idle? && r.Got? ==> r.ver < |h| && h[r.ver] == Some(r.builder)
    ensures Derived(h, Resume(t, r))
  {
    if t.Idle? && r.Got? {
      RouteDerives(h, r.builder, r.ver);
    }
  }

  lemma Grows(s: BuilderState, a: BuilderAction)
    ensures s.h <= Apply(s, a).h
  {
  }

  lemma StepDerived(s: BuilderState, a: BuilderAction)
    requires Derived(s.h, s.t)
    ensures Derived(Apply(s, a).h, Apply(s, a).t)
  {
    Grows(s, a);
    if a.Turn? {
      var req := Call(s.t);
      var r := AnswerTo(s.h, req, a.luck);
      if s.t.Idle? || req.Ask? {
        AskDerives(s.h, s.t, r);
      } else if s.t.AddFinalizer? && r.SavedAt? {
        RouteDerives(Apply(s, a).h, Updated(s.t.mem), r.ver);
      }
    }
  }

  lemma {:induction false} RunOrderly(acts: seq<BuilderAction>)
    ensures Derived(Exec(acts).h, Exec(acts).t) && WellRun(Exec(acts).h, BaseOf, false)
    decreases |acts|
  {
    if acts != [] {
      RunOrderly(acts[..|acts| - 1]);
      StepDerived(Exec(acts[..|acts| - 1]), acts[|acts| - 1]);
      StepWellRun(Exec(acts[..|acts| - 1]), acts[|acts| - 1]);
    }
  }

  /** A builder's history is exact in every run. */
  lemma BuilderHistoryExact(acts: seq<BuilderAction>, b: nat, i: nat)
    requires OneLife(Exec(acts).h, b, i)
    ensures ExactLife(Exec(acts).h, BaseOf, b, i)
  {
    RunOrderly(acts);
    LifeIsExact(Exec(acts).h, BaseOf, b, i);
  }
}
