/** The cluster as one reconcile meets it: every API call lets everybody else act first. */
module Server {
  import opened Objects
  import opened Api
  import opened DeployerThread
  import opened PoolThread
  import opened Cluster

  class ApiServer {
    var state: State
    /** What is to happen, in order: acts of others, and how this reconcile's own calls go. */
    var plan: seq<Action>
    /** What has happened since the empty cluster. */
    ghost var acts: seq<Action>
    /** What had happened once the reconcile under way had made its first call. */
    ghost var past: seq<Action>

    ghost predicate Valid()
      reads this
    {
      state == Exec(acts) && past <= acts
    }

    constructor (plan: seq<Action>)
      ensures Valid() && state == EMPTY && this.plan == plan && acts == []
    {
      state, this.plan, acts, past := EMPTY, plan, [], [];
    }

    method Happen(a: Action)
      requires Valid()
      modifies this`state, this`acts
      ensures Valid() && acts == old(acts) + [a] && state == Apply(old(state), a)
    {
      state := Apply(state, a);
      acts := acts + [a];
      assert acts[..|acts| - 1] == old(acts);
    }

    /** Everybody else acts until the plan turns to the reconcile of `d`; says how its next call goes. A
        call the plan says nothing about fails. */
    method AwaitDeployer(d: Key) returns (ch: Choice)
      requires Valid()
      modifies `state, `plan, `acts
      ensures Valid() && old(acts) <= acts
      ensures ThreadOf(state, d) == old(ThreadOf(state, d))
    {
      ch := FAILURE;
      while plan != []
        invariant Valid() && old(acts) <= acts
        invariant ThreadOf(state, d) == old(ThreadOf(state, d))
        decreases |plan|
      {
        var a := plan[0];
        plan := plan[1..];
        if a.DeployerTurn? && a.d == d {
          return a.ch;
        }
        if !(a.DeployerCrash? && a.d == d) {
          Happen(a);
        }
      }
    }

    /** The same for the reconcile of pool `p`. */
    method AwaitPool(p: string) returns (ch: Choice)
      requires Valid()
      modifies `state, `plan, `acts
      ensures Valid() && old(acts) <= acts
      ensures KeeperOf(state, p) == old(KeeperOf(state, p))
    {
      ch := FAILURE;
      while plan != []
        invariant Valid() && old(acts) <= acts
        invariant KeeperOf(state, p) == old(KeeperOf(state, p))
        decreases |plan|
      {
        var a := plan[0];
        plan := plan[1..];
        if a.PoolTurn? && a.p == p {
          return a.ch;
        }
        if !(a.PoolCrash? && a.p == p) {
          Happen(a);
        }
      }
    }

    /** The first call of a reconcile of `d`: get the deployer. */
    method OpenDeployer(d: Key) returns (r: Response)
      requires Valid() && ThreadOf(state, d).Idle?
      modifies `state, `plan, `acts, `past
      ensures Valid() && old(acts) < past == acts
      ensures past[|past| - 1].DeployerTurn? && past[|past| - 1].d == d
      ensures ThreadOf(state, d) == Resume(d, Idle, r)
    {
      var ch := AwaitDeployer(d);
      r := Answer(state.store, GetDeployer(d), ch);
      Happen(DeployerTurn(d, ch));
      past := acts;
    }

    /** A later call of the reconcile of `d`. */
    method DeployerCall(d: Key, req: Request) returns (r: Response)
      requires Valid() && !ThreadOf(state, d).Idle? && req == Call(d, ThreadOf(state, d))
      modifies `state, `plan, `acts
      ensures Valid()
      ensures ThreadOf(state, d) == Resume(d, old(ThreadOf(state, d)), r)
    {
      var ch := AwaitDeployer(d);
      r := Answer(state.store, req, ch);
      Happen(DeployerTurn(d, ch));
    }

    /** The first call of a reconcile of pool `p`: get the pool. */
    method OpenPool(p: string) returns (r: Response)
      requires Valid() && KeeperOf(state, p).Resting?
      modifies `state, `plan, `acts, `past
      ensures Valid() && old(acts) < past == acts
      ensures past[|past| - 1].PoolTurn? && past[|past| - 1].p == p
      ensures KeeperOf(state, p) == ResumePool(Resting, r)
    {
      var ch := AwaitPool(p);
      r := Answer(state.store, GetPool(p), ch);
      Happen(PoolTurn(p, ch));
      past := acts;
    }

    /** A later call of the reconcile of pool `p`. */
    method PoolCall(p: string, req: Request) returns (r: Response)
      requires Valid() && !KeeperOf(state, p).Resting? && req == CallPool(p, KeeperOf(state, p))
      modifies `state, `plan, `acts
      ensures Valid()
      ensures KeeperOf(state, p) == ResumePool(old(KeeperOf(state, p)), r)
    {
      var ch := AwaitPool(p);
      r := Answer(state.store, req, ch);
      Happen(PoolTurn(p, ch));
    }
  }
}
