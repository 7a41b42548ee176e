/** The API objects the controllers exchange, with the fields the controllers read or write. */
module Objects {

  datatype Option<+T> = None | Some(value: T)

  /** Go's int32, as a range of the mathematical integers; arithmetic wraps through `Wrap32`. */
  type int32 = x: int | -0x8000_0000 <= x < 0x8000_0000

  /** A namespaced name. */
  datatype Key = Key(ns: string, name: string)

  /** The two quantities a pool hands out. */
  datatype Dim = Cpu | Memory

  datatype Resource = Resource(cpu: int32, memory: int32) {
    function At(dim: Dim): int32 {
      match dim
      case Cpu => cpu
      case Memory => memory
    }
  }

  datatype Port = Port(port: int32, protocol: string, exported: bool)

  datatype ContainerSpec = ContainerSpec(
    name: string, image: string, resource: Resource, initial: bool, ports: seq<Port>)

  datatype Status = Blank | Undo | Pending | Doing | Done | Failed

  /** `HashDone` and `IsDoneOrFailed` in the source. */
  predicate Terminal(s: Status) {
    s == Done || s == Failed
  }

  predicate HasStarted(s: Status) {
    s != Undo && s != Pending
  }

  /** What is left of a finished round in `HistoryList`. */
  datatype HistoryRecord = HistoryRecord(round: int, status: Status)

  datatype CommonStatus = CommonStatus(status: Status, history: seq<HistoryRecord>, currentRound: int)

  const BLANK := CommonStatus(Blank, [], 0)

  datatype Phase = PodPending | PodRunning | PodFailed | PodSucceeded | PodUnknown

  /** The phase of the first pod a list call returned, if it returned any. */
  type PodList = Option<Phase>

  datatype DeployType = JOB | SERVICE | UNKNOWN

  /** What an update of the whole object stores for a round: the zero is omitted from the request, and
      the CRD's default takes its place. */
  function Defaulted(round: int): int {
    if round == 0 then -1 else round
  }

  datatype DeployerSpec = DeployerSpec(
    kind: DeployType, containers: seq<ContainerSpec>, round: int, resourcePool: string)

  /** `held` is `Status.ResourcePool`: the pool that is charged, or "" for none. */
  datatype Deployer = Deployer(
    spec: DeployerSpec, status: CommonStatus, held: string, finalizer: bool, deleting: bool)

  datatype UsageEntry = UsageEntry(owner: Key, amount: Resource)

  datatype Pool = Pool(
    capacity: Resource, usage: seq<UsageEntry>, free: Option<Resource>, finalizer: bool, deleting: bool)

  /** The versions of one object, oldest first: a version is its index, None an absence. */
  type Versions<T> = seq<Option<T>>

  function Latest<T>(h: Versions<T>): Option<T> {
    if h == [] then None else h[|h| - 1]
  }

  /** A write that read version `ver` is accepted only if this holds. */
  predicate IsCurrent<T>(h: Versions<T>, ver: nat) {
    |h| == ver + 1 && h[ver].Some?
  }

  /** Store a new version; a write that changes nothing may leave the version alone. */
  function Put<T(==)>(h: Versions<T>, x: Option<T>, quiet: bool): (r: Versions<T>)
    ensures h <= r && r != [] && Latest(r) == x
  {
    if quiet && h != [] && h[|h| - 1] == x then h else h + [x]
  }
}
