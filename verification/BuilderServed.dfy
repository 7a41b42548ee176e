/** What a builder's reconcile comes to when its calls are served and it reads the latest version: stated on
    the stored builder alone. */
module BuilderServed {
  import opened Objects
  import opened Api
  import opened BuilderCluster

  function Two(s: BuilderState, a: BuilderLuck, b: BuilderLuck): BuilderState {
    Apply(Apply(s, Turn(a)), Turn(b))
  }

  function Three(s: BuilderState, a: BuilderLuck, b: BuilderLuck, c: BuilderLuck): BuilderState {
    Apply(Two(s, a, b), Turn(c))
  }

  function Four(s: BuilderState, a: BuilderLuck, b: BuilderLuck, c: BuilderLuck, e: BuilderLuck): BuilderState {
    Apply(Three(s, a, b, c), Turn(e))
  }

  function Five(s: BuilderState, a: BuilderLuck, b: BuilderLuck, c: BuilderLuck, e: BuilderLuck, f: BuilderLuck):
      BuilderState
  {
    Apply(Four(s, a, b, c, e), Turn(f))
  }

  /** At rest, about to read the latest version. */
  predicate Ready(s: BuilderState, x: Builder, get: BuilderLuck) {
    s.t.Idle? && Latest(s.h) == Some(x) && get.fate.Served? && get.index + 1 >= |s.h|
  }

  /** And it is live and under its finalizer. */
  predicate ReadyLive(s: BuilderState, x: Builder, get: BuilderLuck) {
    Ready(s, x, get) && x.finalizer && !x.deleting
  }

  predicate ReadyInRound(s: BuilderState, x: Builder, get: BuilderLuck) {
    ReadyLive(s, x, get) && x.round == x.status.currentRound
  }

  /** A call that is served, and what it is told. */
  predicate Told(luck: BuilderLuck, reply: BuilderAnswer) {
    luck.fate.Served? && luck.reply == reply
  }

  /** Some version of the builder is the one it was, but for the status. */
  predicate Stores(s: BuilderState, x: Builder, status: Status) {
    Latest(s.h) == Some(x.(status := x.status.(status := status)))
  }

  lemma GetTurn(s: BuilderState, x: Builder, get: BuilderLuck)
    requires Ready(s, x, get)
    ensures Apply(s, Turn(get)) == s.(t := Begin(x, |s.h| - 1))
  {
  }

  /* ---- before a round ---- */

  lemma ServedGuard(s: BuilderState, x: Builder, get: BuilderLuck, put: BuilderLuck)
    requires Ready(s, x, get) && !x.deleting && !x.finalizer && put.fate.Served?
    ensures Latest(Two(s, get, put).h) == Some(x.(finalizer := true, round := if x.round == 0 then -1 else x.round))
  {
    GetTurn(s, x, get);
  }

  lemma ServedPark(s: BuilderState, x: Builder, get: BuilderLuck, put: BuilderLuck)
    requires ReadyLive(s, x, get) && x.round < x.status.currentRound && put.fate.Served?
    ensures Stores(Two(s, get, put), x, Undo) && Two(s, get, put).t.Idle?
  {
    GetTurn(s, x, get);
  }

  /** A builder marked for deletion is gone after two served turns. */
  lemma ServedTeardown(s: BuilderState, x: Builder, get: BuilderLuck, put: BuilderLuck)
    requires Ready(s, x, get) && x.deleting && x.finalizer && put.fate.Served?
    ensures Latest(Two(s, get, put).h).None?
  {
    GetTurn(s, x, get);
  }

  /* ---- a later round ---- */

  predicate ReadyLater(s: BuilderState, x: Builder, get: BuilderLuck) {
    ReadyLive(s, x, get) && x.round > x.status.currentRound
  }

  /** The round that begins is stored, the one before it is recorded. */
  predicate Begun(s: BuilderState, x: Builder) {
    && Latest(s.h).Some? && s.t.Idle?
    && var y := Latest(s.h).value;
       && y == x.(status := y.status) && y.status.status == Pending && y.status.currentRound == x.round
       && y.status.history == x.status.history +
            (if x.status.currentRound == 0 then [] else [HistoryRecord(x.status.currentRound, x.status.status)])
  }

  /** No old job: three served turns store the round. */
  lemma ServedAdvance(s: BuilderState, x: Builder, get: BuilderLuck, find: BuilderLuck, put: BuilderLuck)
    requires ReadyLater(s, x, get) && Told(find, There(false)) && put.fate.Served?
    ensures Begun(Three(s, get, find, put), x)
  {
    GetTurn(s, x, get);
    assert Two(s, get, find) == s.(t := Commit(NextRound(x), |s.h| - 1));
  }

  /** An old job is deleted first; if that fails, nothing is stored. */
  lemma ServedAdvanceDeletes(s: BuilderState, x: Builder, get: BuilderLuck, find: BuilderLuck, drop: BuilderLuck,
                             put: BuilderLuck)
    requires ReadyLater(s, x, get) && Told(find, There(true)) && put.fate.Served?
    ensures Call(Two(s, get, find).t) == Ask(DropJob)
    ensures if Told(drop, Fine) then Begun(Four(s, get, find, drop, put), x)
            else Three(s, get, find, drop) == s
  {
    GetTurn(s, x, get);
    assert Two(s, get, find) == s.(t := DropOldJob(x, |s.h| - 1));
    if Told(drop, Fine) {
      assert Three(s, get, find, drop) == s.(t := Commit(NextRound(x), |s.h| - 1));
    }
  }

  /* ---- the stored round ---- */

  /** No job yet: the round is announced, the job made, and Pending stored; Failed, if it cannot be made. */
  lemma ServedMake(s: BuilderState, x: Builder, get: BuilderLuck, find: BuilderLuck, announce: BuilderLuck,
                   make: BuilderLuck, put: BuilderLuck)
    requires ReadyInRound(s, x, get) && Told(find, There(false)) && announce.fate.Served? && put.fate.Served?
    ensures Stores(Three(s, get, find, announce), x, Pending)
    ensures Call(Three(s, get, find, announce).t) == Ask(NewJob)
    ensures Stores(Five(s, get, find, announce, make, put), x, if Told(make, Fine) then Pending else Failed)
  {
    GetTurn(s, x, get);
    var y, s3 := Marked(x, Pending), Three(s, get, find, announce);
    assert Two(s, get, find) == s.(t := Announce(y, |s.h| - 1));
    assert Latest(s3.h) == Some(y) && s3.t == MakeJob(y, |s3.h| - 1);
  }

  /** The status that each phase but success stands for. */
  predicate PhaseNames(pods: PodList, status: Status) {
    && (pods == None ==> status == Pending)
    && (pods == Some(PodPending) ==> status == Pending)
    && (pods == Some(PodRunning) ==> status == Doing)
    && (pods == Some(PodFailed) ==> status == Failed)
    && (pods == Some(PodUnknown) ==> status == Blank)
  }

  /** The job is there, and its pod has not succeeded: the status that its phase names is stored. */
  lemma ServedWatch(s: BuilderState, x: Builder, status: Status, pods: PodList,
                    get: BuilderLuck, find: BuilderLuck, list: BuilderLuck, put: BuilderLuck)
    requires ReadyInRound(s, x, get) && Told(find, There(true)) && Told(list, PodsSeen(pods)) && put.fate.Served?
    requires pods != Some(PodSucceeded) && PhaseNames(pods, status)
    ensures Stores(Four(s, get, find, list, put), x, status)
  {
    GetTurn(s, x, get);
    assert Two(s, get, find) == s.(t := Watch(x, |s.h| - 1));
    assert pods == None || pods == Some(pods.value);
    assert Three(s, get, find, list) == s.(t := Publish(Marked(x, status), |s.h| - 1));
  }

  /** It has: a builder that is not Done yet runs the hook, and is stored Done if and only if that succeeds, and
      Doing otherwise; one that is Done is stored so without another hook. */
  lemma ServedSuccess(s: BuilderState, x: Builder, get: BuilderLuck, find: BuilderLuck, list: BuilderLuck,
                      hook: BuilderLuck, put: BuilderLuck)
    requires ReadyInRound(s, x, get) && Told(find, There(true)) && Told(list, PodsSeen(Some(PodSucceeded)))
    requires put.fate.Served?
    ensures x.status.status == Done ==>
              && Call(Three(s, get, find, list).t).Save? && Stores(Four(s, get, find, list, put), x, Done)
              && Four(s, get, find, list, put).fired == s.fired
    ensures x.status.status != Done ==>
              && Call(Three(s, get, find, list).t) == Ask(Hook)
              && Stores(Five(s, get, find, list, hook, put), x, if Told(hook, Fine) then Done else Doing)
              && Five(s, get, find, list, hook, put).fired ==
                   if Told(hook, Fine) then s.fired + {x.status.currentRound} else s.fired
  {
    GetTurn(s, x, get);
    assert Two(s, get, find) == s.(t := Watch(x, |s.h| - 1));
    if x.status.status == Done {
      assert Three(s, get, find, list) == s.(t := Publish(x, |s.h| - 1));
    } else {
      assert Three(s, get, find, list) == s.(t := Trigger(x, |s.h| - 1));
      var status := if Told(hook, Fine) then Done else Doing;
      assert Four(s, get, find, list, hook).t == Publish(Marked(x, status), |s.h| - 1);
    }
  }

  /** A lookup or a listing that fails makes it Failed. */
  lemma ServedBroken(s: BuilderState, x: Builder, get: BuilderLuck, find: BuilderLuck, list: BuilderLuck,
                     put: BuilderLuck)
    requires ReadyInRound(s, x, get) && put.fate.Served?
    ensures find.fate != Served ==> Stores(Three(s, get, find, put), x, Failed)
    ensures Told(find, There(true)) && list.fate != Served ==> Stores(Four(s, get, find, list, put), x, Failed)
  {
    GetTurn(s, x, get);
    if find.fate != Served {
      assert Two(s, get, find) == s.(t := Publish(Marked(x, Failed), |s.h| - 1));
    } else if Told(find, There(true)) {
      assert Two(s, get, find) == s.(t := Watch(x, |s.h| - 1));
    }
  }
}
