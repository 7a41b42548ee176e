/** The pool controller in its own form, proved to make exactly the requests of the pool thread. */
module PoolController {
  import opened Objects
  import opened Quantities
  import opened Api
  import opened PoolThread
  import opened Cluster
  import opened Server

  /** `ResourcePoolReconciler.Reconcile`: one whole reconcile of `p`, from its first call (the last act of
      `past`) until its thread rests again. */
  method Reconcile(server: ApiServer, p: string) returns (ok: bool)
    requires server.Valid() && KeeperOf(server.state, p) == Resting
    modifies server
    ensures server.Valid() && old(server.acts) < server.past
    ensures var first := server.past[|server.past| - 1]; first.PoolTurn? && first.p == p
    ensures KeeperOf(server.state, p) == Resting
  {
    var read := server.OpenPool(p);
    if !read.GotPool? {
      return false;
    }
    var pool, ver := read.pool, read.ver;

    if pool.deleting {
      if pool.finalizer && |pool.usage| == 0 {
        pool := pool.(finalizer := false);
        var written := server.PoolCall(p, UpdatePool(p, pool.finalizer, ver));
        return written.AckAt?;
      }
      return true;
    }

    if !pool.finalizer {
      pool := pool.(finalizer := true);
      var written := server.PoolCall(p, UpdatePool(p, pool.finalizer, ver));
      if !written.AckAt? {
        return false;
      }
      ver := written.ver;
    }

    ok := StoreRemaining(server, p, pool, ver);
  }

  /** Add up the usage, and store what remains unless it is negative. */
  method StoreRemaining(server: ApiServer, p: string, pool: Pool, ver: nat) returns (ok: bool)
    requires server.Valid() && KeeperOf(server.state, p) == Plan(pool, ver)
    modifies server`state, server`plan, server`acts
    ensures server.Valid() && KeeperOf(server.state, p) == Resting
  {
    var free := Recompute(pool);
    if free.cpu < 0 {
      return false;
    }
    if free.memory < 0 {
      return false;
    }
    assert KeeperOf(server.state, p) == StoreFree(pool, ver, free);
    var written := server.PoolCall(p, UpdatePoolStatus(p, pool.usage, Some(free), ver));
    ok := written.AckAt?;
  }

  method Recompute(pool: Pool) returns (free: Resource)
    ensures free == Remaining(pool.capacity, pool.usage)
  {
    var used := SumUsage(pool.usage);
    free := Resource(Wrap32(pool.capacity.cpu - used.cpu), Wrap32(pool.capacity.memory - used.memory));
  }
}
