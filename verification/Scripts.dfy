/** Runs written down call by call: which hypothesis a run gives up, what one deployer and one pool look
    like, and what a served call leaves of that. */
module Scripts {
  import opened Objects
  import opened Ledger
  import opened Capacity
  import opened Quantities
  import opened Api
  import opened DeployerThread
  import opened PoolThread
  import opened Cluster
  import opened Reservations
  import opened EndToEnd

  /* ---- hypotheses, but for one ---- */

  /** The hypothesis of the end-to-end theorem that a run gives up. */
  datatype Lapse =
    | Nothing
    | OldDeployer        // a reconcile reads an outdated version of its deployer
    | MissedJob          // a cleanup does not see the old job
    | NilFree            // a beg reads a pool whose Free was never computed
    | ZeroRound          // an edit sets round 0 before any round has begun
    | RoundBack          // an edit sets the round back to the current one
    | NewContainers      // an edit changes the containers within the current round
    | Overfill           // a beg lands that does not fit
    | LessCapacity       // a pool's capacity is edited
    | Anything

  predicate Lapses(s: State, a: Action, lapse: Lapse) {
    match lapse
    case Nothing => false
    case OldDeployer => a.DeployerTurn? && ThreadOf(s, a.d).Idle?
    case MissedJob => a.DeployerTurn? && ThreadOf(s, a.d).FindOldJob?
    case NilFree => a.DeployerTurn? && ThreadOf(s, a.d).ReadWanted?
    case ZeroRound => BoldEdit(s, a) && a.spec.round == 0
    case RoundBack => BoldEdit(s, a) && a.spec.round < DeployerNow(s.store, a.d).value.spec.round
    case NewContainers => BoldEdit(s, a) && a.spec.round == DeployerNow(s.store, a.d).value.spec.round
    case Overfill => a.DeployerTurn? && ThreadOf(s, a.d).PutBeg?
    case LessCapacity => a.EditPool?
    case Anything => true
  }

  /** An edit to the current round, otherwise in order. */
  predicate BoldEdit(s: State, a: Action) {
    && a.EditDeployer? && a.spec.kind == JOB && Payable(a.spec.containers)
    && DeployerNow(s.store, a.d).Some?
    && a.spec.round == DeployerNow(s.store, a.d).value.status.currentRound
  }

  /** Every action is disciplined, or a lapse of that one kind. */
  ghost predicate LapsingRun(acts: seq<Action>, lapse: Lapse) {
    forall i | 0 <= i < |acts| ::
      Disciplined(Exec(acts[..i]), acts[i]) || Lapses(Exec(acts[..i]), acts[i], lapse)
  }

  ghost predicate Reachable(s: State, lapse: Lapse) {
    exists acts: seq<Action> :: Exec(acts) == s && LapsingRun(acts, lapse)
  }

  lemma Origin(lapse: Lapse)
    ensures Reachable(EMPTY, lapse)
  {
    assert Exec([]) == EMPTY && LapsingRun([], lapse);
  }

  /** One more action. */
  lemma Extend(s: State, a: Action, lapse: Lapse)
    requires Reachable(s, lapse) && (Disciplined(s, a) || Lapses(s, a, lapse))
    ensures Reachable(Apply(s, a), lapse)
  {
    var acts: seq<Action> :| Exec(acts) == s && LapsingRun(acts, lapse);
    LapsingSnoc(acts, a, lapse);
    assert (acts + [a])[..|acts|] == acts;
  }

  lemma LapsingSnoc(acts: seq<Action>, a: Action, lapse: Lapse)
    requires LapsingRun(acts, lapse) && (Disciplined(Exec(acts), a) || Lapses(Exec(acts), a, lapse))
    ensures LapsingRun(acts + [a], lapse)
  {
    var more := acts + [a];
    forall i | 0 <= i < |more|
      ensures Disciplined(Exec(more[..i]), more[i]) || Lapses(Exec(more[..i]), more[i], lapse)
    {
      if i < |acts| { assert more[..i] == acts[..i] && more[i] == acts[i]; } else { assert more[..i] == acts; }
    }
  }

  lemma NothingLapses(acts: seq<Action>)
    requires LapsingRun(acts, Nothing)
    ensures DisciplinedRun(acts)
  {
    forall i | 0 <= i < |acts| ensures Disciplined(Exec(acts[..i]), acts[i]) {
      assert !Lapses(Exec(acts[..i]), acts[i], Nothing);
    }
  }

  /* ---- one deployer and one pool ---- */

  datatype View = View(
    d: Key, p: string, h: Versions<Deployer>, t: Thread, g: Versions<Pool>, k: Keeper,
    jobs: map<Key, Job>, sets: set<Key>, ops: seq<PoolOp>, tally: Tally)

  function Look(s: State, d: Key, p: string): View {
    View(d, p, DeployerVersions(s.store, d), ThreadOf(s, d), PoolVersions(s.store, p), KeeperOf(s, p),
         s.store.jobs, s.store.sets, OpsOf(s, p), TallyOf(s, d))
  }

  /** What a deployer's scripts consist of. */
  predicate Own(s: State, a: Action, d: Key) {
    match a
    case DeployerTurn(e, _) => e == d && !ThreadOf(s, d).DropOldJob?
    case CreateDeployer(e, _) => e == d
    case EditDeployer(e, _, _) => e == d
    case DeleteDeployer(e) => e == d
    case _ => false
  }

  /** What the actions of such a script keep: for one that keeps to the lapse, that the state is reachable. */
  ghost predicate Closed(r: State -> bool, d: Key, lapse: Lapse) {
    forall s, a | r(s) && Own(s, a, d) && (Disciplined(s, a) || Lapses(s, a, lapse)) :: r(Apply(s, a))
  }

  lemma ReachableClosed(d: Key, lapse: Lapse) returns (r: State -> bool)
    ensures r == (s => Reachable(s, lapse)) && Closed(r, d, lapse)
  {
    r := s => Reachable(s, lapse);
    forall s, a | r(s) && Own(s, a, d) && (Disciplined(s, a) || Lapses(s, a, lapse)) ensures r(Apply(s, a)) {
      Extend(s, a, lapse);
    }
  }

  /* ---- one served call ---- */

  /** Served on the latest version; no job, Deployment or StatefulSet is seen. */
  function Fresh(v: View): Choice {
    Choice(Served, |v.h| + |v.g|, false, false, None)
  }

  function Step(v: View): Action {
    DeployerTurn(v.d, Fresh(v))
  }

  /** The deployer and the pool are stored, and the reconcile stands where the scripts take it. */
  predicate Plain(v: View) {
    && v.h != [] && Latest(v.h).Some? && v.g != [] && Latest(v.g).Some?
    && match v.t
       case Idle => true
       case FindOldJob(_, _) => true
       case FindDeployment(_, _) => true
       case FindJob(_, _) => true
       case FindSet(_, _) => true
       case Lookup(mem, _) => JobKey(v.d, mem) !in v.jobs
       case MakeJob(mem, _) => JobKey(v.d, mem) !in v.jobs
       case LookupSet(mem, _) => JobKey(v.d, mem) !in v.sets
       case MakeSet(mem, _) => JobKey(v.d, mem) !in v.sets
       case ReadWanted(mem, _, _) => mem.spec.resourcePool == v.p
       case ReadHeld(mem, _, _, _) => mem.held == v.p
       case PutBeg(mem, _, _, _, pver) => mem.spec.resourcePool == v.p && IsCurrent(v.g, pver)
       case PutRelease(mem, _, _, _, _, pver) => mem.held == v.p && IsCurrent(v.g, pver)
       case AddFinalizer(_, ver) => IsCurrent(v.h, ver) && !Latest(v.h).value.deleting
       case Park(_, ver) => IsCurrent(v.h, ver)
       case Commit(_, ver) => IsCurrent(v.h, ver)
       case AnnounceJob(_, ver) => IsCurrent(v.h, ver)
       case AnnounceSet(_, ver) => IsCurrent(v.h, ver)
       case Publish(_, ver) => IsCurrent(v.h, ver)
       case _ => false
  }

  predicate Saves(t: Thread) {
    t.AddFinalizer? || t.Park? || t.AnnounceJob? || t.AnnounceSet? || t.Publish?
  }

  function Saved(v: View): Deployer
    requires Plain(v) && (Saves(v.t) || v.t.Commit?)
  {
    if v.t.AddFinalizer? then Updated(Latest(v.h).value.(finalizer := true))
    else Latest(v.h).value.(status := v.t.mem.status, held := v.t.mem.held)
  }

  /** What the served call leaves. */
  function Next(v: View): View
    requires Plain(v)
  {
    match v.t
    case Idle => v.(t := Begin(Latest(v.h).value, |v.h| - 1))
    case MakeJob(mem, _) => v.(t := Resume(v.d, v.t, Ack), jobs := v.jobs[JobKey(v.d, mem) := NewJob(v.d, mem)])
    case MakeSet(mem, _) => v.(t := Resume(v.d, v.t, Ack), sets := v.sets + {JobKey(v.d, mem)})
    case ReadWanted(_, _, _) => v.(t := Resume(v.d, v.t, GotPool(Latest(v.g).value, |v.g| - 1)))
    case ReadHeld(_, _, _, _) => v.(t := Resume(v.d, v.t, GotPool(Latest(v.g).value, |v.g| - 1)))
    case PutBeg(mem, _, _, snap, _) =>
      var amount := Charge(mem.spec.containers);
      v.(t := Resume(v.d, v.t, AckAt(|v.g|)),
         g := v.g + [Some(Latest(v.g).value.(usage := snap.usage + [UsageEntry(v.d, amount)], free := snap.free))],
         ops := v.ops + [Grant(v.d, amount)],
         tally := Bump(v.tally, Begged))
    case PutRelease(_, _, _, _, snap, _) =>
      v.(t := Resume(v.d, v.t, AckAt(|v.g|)),
         g := v.g + [Some(Latest(v.g).value.(usage := DropFirst(snap.usage, v.d), free := snap.free))],
         ops := v.ops + [Return(v.d)],
         tally := Bump(v.tally, GaveBack))
    case Commit(_, _) =>
      v.(t := Idle, h := v.h + [Some(Saved(v))], tally := Bump(v.tally, KeptIt))
    case _ =>
      if Saves(v.t) then v.(t := Resume(v.d, v.t, AckAt(|v.h|)), h := v.h + [Some(Saved(v))])
      else v.(t := Resume(v.d, v.t, Exists(false)))
  }

  lemma GetStep(s: State, d: Key, p: string)
    requires Plain(Look(s, d, p)) && ThreadOf(s, d).Idle?
    ensures Look(Apply(s, Step(Look(s, d, p))), d, p) == Next(Look(s, d, p))
  {
  }

  predicate Inquires(t: Thread) {
    t.FindOldJob? || t.FindDeployment? || t.FindJob? || t.FindSet? || t.Lookup? || t.LookupSet?
  }

  lemma ExistsAnswer(st: Store, d: Key, t: Thread, ch: Choice)
    requires Inquires(t) && ch.fate.Served? && !ch.seen
    requires (t.Lookup? ==> JobKey(d, t.mem) !in st.jobs) && (t.LookupSet? ==> JobKey(d, t.mem) !in st.sets)
    ensures Answer(st, Call(d, t), ch) == Exists(false) && After(st, Call(d, t), ch) == st
    ensures !Lands(st, Call(d, t), ch)
  {
  }

  lemma ExistsStep(s: State, d: Key, p: string)
    requires Plain(Look(s, d, p)) && Inquires(ThreadOf(s, d))
    ensures Look(Apply(s, Step(Look(s, d, p))), d, p) == Next(Look(s, d, p))
  {
    var v := Look(s, d, p);
    ExistsAnswer(s.store, d, v.t, Fresh(v));
    assert Apply(s, Step(v)) == s.(threads := s.threads[d := Resume(d, v.t, Exists(false))]);
    assert Next(v) == v.(t := Resume(d, v.t, Exists(false)));
  }

  lemma MakeStep(s: State, d: Key, p: string)
    requires Plain(Look(s, d, p)) && (ThreadOf(s, d).MakeJob? || ThreadOf(s, d).MakeSet?)
    ensures Look(Apply(s, Step(Look(s, d, p))), d, p) == Next(Look(s, d, p))
  {
  }

  lemma ReadWantedStep(s: State, d: Key, p: string)
    requires Plain(Look(s, d, p)) && ThreadOf(s, d).ReadWanted?
    ensures Look(Apply(s, Step(Look(s, d, p))), d, p) == Next(Look(s, d, p))
  {
  }

  lemma ReadHeldStep(s: State, d: Key, p: string)
    requires Plain(Look(s, d, p)) && ThreadOf(s, d).ReadHeld?
    ensures Look(Apply(s, Step(Look(s, d, p))), d, p) == Next(Look(s, d, p))
  {
    assert PoolNow(s.store, p) == Latest(Look(s, d, p).g);
  }

  lemma BegStep(s: State, d: Key, p: string)
    requires Plain(Look(s, d, p)) && ThreadOf(s, d).PutBeg?
    ensures Look(Apply(s, Step(Look(s, d, p))), d, p) == Next(Look(s, d, p))
  {
  }

  lemma ReleaseStep(s: State, d: Key, p: string)
    requires Plain(Look(s, d, p)) && ThreadOf(s, d).PutRelease?
    ensures Look(Apply(s, Step(Look(s, d, p))), d, p) == Next(Look(s, d, p))
  {
  }

  lemma GuardStep(s: State, d: Key, p: string)
    requires Plain(Look(s, d, p)) && ThreadOf(s, d).AddFinalizer?
    ensures Look(Apply(s, Step(Look(s, d, p))), d, p) == Next(Look(s, d, p))
  {
  }

  lemma SaveAnswer(st: Store, d: Key, t: Thread, ch: Choice)
    requires (t.Commit? || Saves(t)) && !t.AddFinalizer? && ch.fate.Served? && !ch.quiet
    requires IsCurrent(DeployerVersions(st, d), t.ver)
    ensures var h := DeployerVersions(st, d);
            && Lands(st, Call(d, t), ch) && Answer(st, Call(d, t), ch) == AckAt(|h|)
            && After(st, Call(d, t), ch) ==
                 WriteDeployer(st, d, h + [Some(Latest(h).value.(status := t.mem.status, held := t.mem.held))])
  {
  }

  lemma SaveStep(s: State, d: Key, p: string)
    requires Plain(Look(s, d, p)) && (ThreadOf(s, d).Commit? || Saves(ThreadOf(s, d))) && !ThreadOf(s, d).AddFinalizer?
    ensures Look(Apply(s, Step(Look(s, d, p))), d, p) == Next(Look(s, d, p))
  {
    var v := Look(s, d, p);
    SaveAnswer(s.store, d, v.t, Fresh(v));
    assert OpOf(s, Step(v)).None?;
    assert NoteOf(s, Step(v)) == if v.t.Commit? then Some((d, KeptIt)) else None;
  }

  lemma NextStep(s: State, d: Key, p: string)
    requires Plain(Look(s, d, p))
    ensures Look(Apply(s, Step(Look(s, d, p))), d, p) == Next(Look(s, d, p))
  {
    var t := ThreadOf(s, d);
    if t.Idle? { GetStep(s, d, p); }
    else if t.MakeJob? || t.MakeSet? { MakeStep(s, d, p); }
    else if t.ReadWanted? { ReadWantedStep(s, d, p); }
    else if t.ReadHeld? { ReadHeldStep(s, d, p); }
    else if t.PutBeg? { BegStep(s, d, p); }
    else if t.PutRelease? { ReleaseStep(s, d, p); }
    else if t.AddFinalizer? { GuardStep(s, d, p); }
    else if t.Commit? || Saves(t) { SaveStep(s, d, p); }
    else { ExistsStep(s, d, p); }
  }

  /** What discipline asks of the call, and what a lapse excuses it from. */
  predicate Calm(v: View, lapse: Lapse)
    requires Plain(v)
  {
    || lapse.Anything?
    || (&& (v.t.FindOldJob? && !lapse.MissedJob? ==> JobKey(v.d, v.t.mem) !in v.jobs)
        && (v.t.ReadWanted? && !lapse.NilFree? ==> Latest(v.g).value.free.Some?)
        && (v.t.PutBeg? && !lapse.Overfill? && Latest(v.g).value.free.Some? ==>
              Fits(v.ops, Latest(v.g).value.free.value, Charge(v.t.mem.spec.containers))))
  }

  lemma CalmStep(s: State, d: Key, p: string, lapse: Lapse)
    requires Plain(Look(s, d, p)) && Calm(Look(s, d, p), lapse)
    ensures var a := Step(Look(s, d, p)); Disciplined(s, a) || Lapses(s, a, lapse)
  {
  }

  /** One more call of `d`'s reconcile. */
  lemma Go(s: State, d: Key, p: string, lapse: Lapse, r: State -> bool) returns (s': State)
    requires r(s) && Closed(r, d, lapse) && Plain(Look(s, d, p)) && Calm(Look(s, d, p), lapse)
    ensures r(s') && Look(s', d, p) == Next(Look(s, d, p))
  {
    var a := Step(Look(s, d, p));
    s' := Apply(s, a);
    CalmStep(s, d, p, lapse);
    NextStep(s, d, p);
  }
}
