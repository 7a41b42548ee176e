/** One pool reconcile, cut at its API calls. */
module PoolThread {
  import opened Objects
  import opened Quantities
  import opened Api

  datatype Keeper =
    | Resting
    | GuardPool(mem: Pool, ver: nat)                    // adding the finalizer
    | RemovePool(mem: Pool, ver: nat)                   // removing it
    | StoreFree(mem: Pool, ver: nat, free: Resource)

  function Plan(mem: Pool, ver: nat): Keeper {
    var free := Remaining(mem.capacity, mem.usage);
    if Affords(free, Resource(0, 0)) then StoreFree(mem, ver, free) else Resting
  }

  function BeginPool(mem: Pool, ver: nat): Keeper {
    if mem.deleting then (if mem.finalizer && mem.usage == [] then RemovePool(mem, ver) else Resting)
    else if !mem.finalizer then GuardPool(mem.(finalizer := true), ver)
    else Plan(mem, ver)
  }

  function CallPool(p: string, k: Keeper): Request {
    match k
    case Resting => GetPool(p)
    case GuardPool(_, ver) => UpdatePool(p, true, ver)
    case RemovePool(_, ver) => UpdatePool(p, false, ver)
    case StoreFree(mem, ver, free) => UpdatePoolStatus(p, mem.usage, Some(free), ver)
  }

  function ResumePool(k: Keeper, r: Response): Keeper {
    match k
    case Resting => if r.GotPool? then BeginPool(r.pool, r.ver) else Resting
    case GuardPool(mem, _) => if r.AckAt? then Plan(mem, r.ver) else Resting
    case RemovePool(_, _) => Resting
    case StoreFree(_, _, _) => Resting
  }
}
