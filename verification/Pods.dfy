/** The pod a job or StatefulSet runs, and the phase it is judged by. */
module Pods {
  import opened Objects
  import opened Quantities
  import opened Ports

  datatype Container = Container(
    name: string, image: string, limits: Resource, requests: Resource, ports: seq<ContainerPort>)

  datatype PodSpec = PodSpec(initContainers: seq<Container>, containers: seq<Container>)

  /** Go's x/2, which truncates toward zero. */
  function Half(x: int32): int32 {
    var y: int := x;
    if y >= 0 then y / 2 else -((-y) / 2)
  }

  function NewContainer(spec: ContainerSpec): Container {
    Container(
      spec.name, spec.image, spec.resource,
      Resource(Half(spec.resource.cpu), Half(spec.resource.memory)),
      ContainerPorts(spec.ports))
  }

  /** The containers on one side of the partition. */
  function Side(specs: seq<ContainerSpec>, initial: bool): seq<Container> {
    if specs == [] then []
    else
      var last := specs[|specs| - 1];
      Side(specs[..|specs| - 1], initial) + if last.initial == initial then [NewContainer(last)] else []
  }

  function PodOf(specs: seq<ContainerSpec>): PodSpec {
    PodSpec(Side(specs, true), Side(specs, false))
  }

  method NewPodSpec(specs: seq<ContainerSpec>) returns (pod: PodSpec)
    ensures pod == PodOf(specs) && LaidOut(pod, specs)
  {
    var containers, initContainers := [], [];
    for i := 0 to |specs|
      invariant initContainers == Side(specs[..i], true)
      invariant containers == Side(specs[..i], false)
    {
      assert specs[..i + 1][..i] == specs[..i];
      var ports := ConvertOriginPorts(specs[i].ports);
      var resource := specs[i].resource;
      var container := Container(
        specs[i].name, specs[i].image, resource, Resource(Half(resource.cpu), Half(resource.memory)), ports);
      if specs[i].initial {
        initContainers := initContainers + [container];
      } else {
        containers := containers + [container];
      }
    }
    assert specs[..|specs|] == specs;
    pod := PodSpec(initContainers, containers);
    PodIsLaidOut(specs);
  }

  /* ---- what the pod is, field by field ---- */

  /** Half of `x`, rounded toward zero. */
  predicate HalfOf(q: int, x: int) {
    if x >= 0 then 2 * q <= x <= 2 * q + 1 else 2 * q - 1 <= x <= 2 * q
  }

  predicate Describes(c: Container, spec: ContainerSpec) {
    && c.name == spec.name && c.image == spec.image
    && c.limits.cpu == spec.resource.cpu && c.limits.memory == spec.resource.memory
    && HalfOf(c.requests.cpu, spec.resource.cpu) && HalfOf(c.requests.memory, spec.resource.memory)
    && DescribesPorts(c.ports, spec.ports)
  }

  /** How many of the containers are initial ones, or are not. */
  function Count(specs: seq<ContainerSpec>, initial: bool): nat {
    if specs == [] then 0
    else Count(specs[..|specs| - 1], initial) + if specs[|specs| - 1].initial == initial then 1 else 0
  }

  /** The initial containers of the list, in its order, are the pod's init containers, and the others its main
      ones. */
  predicate LaidOut(pod: PodSpec, specs: seq<ContainerSpec>) {
    && |pod.initContainers| == Count(specs, true) && |pod.containers| == Count(specs, false)
    && forall i | 0 <= i < |specs| ::
         if specs[i].initial then
           var k := Count(specs[..i], true);
           k < |pod.initContainers| && Describes(pod.initContainers[k], specs[i])
         else
           var k := Count(specs[..i], false);
           k < |pod.containers| && Describes(pod.containers[k], specs[i])
  }

  lemma {:induction false} SideCount(specs: seq<ContainerSpec>, initial: bool)
    ensures |Side(specs, initial)| == Count(specs, initial)
  {
    if specs != [] {
      SideCount(specs[..|specs| - 1], initial);
    }
  }

  lemma NewContainerDescribes(spec: ContainerSpec)
    ensures Describes(NewContainer(spec), spec)
  {
  }

  /** The pod made from a container list is laid out by it. */
  lemma PodIsLaidOut(specs: seq<ContainerSpec>)
    ensures LaidOut(PodOf(specs), specs)
  {
    SideCount(specs, true);
    SideCount(specs, false);
    forall i | 0 <= i < |specs|
      ensures var side := Side(specs, specs[i].initial); var k := Count(specs[..i], specs[i].initial);
              k < |side| && Describes(side[k], specs[i])
    {
      PartitionPlaces(specs, i);
      SideCount(specs[..i], specs[i].initial);
      NewContainerDescribes(specs[i]);
    }
  }

  /** Each place on a side is some container's. */
  lemma {:induction false} PlaceTaken(specs: seq<ContainerSpec>, initial: bool, k: nat) returns (i: nat)
    requires k < Count(specs, initial)
    ensures i < |specs| && specs[i].initial == initial && Count(specs[..i], initial) == k
    decreases |specs|
  {
    var n := |specs| - 1;
    if k < Count(specs[..n], initial) {
      i := PlaceTaken(specs[..n], initial, k);
      assert specs[..n][..i] == specs[..i];
    } else {
      i := n;
    }
  }

  lemma DescribedOnce(c: Container, c': Container, spec: ContainerSpec)
    requires Describes(c, spec) && Describes(c', spec)
    ensures c == c'
  {
    assert forall i | 0 <= i < |c.ports| ::
        DescribesPort(c.ports[i], spec.ports[i]) && DescribesPort(c'.ports[i], spec.ports[i]);
    assert c.ports == c'.ports;
  }

  /** And it is the only pod so laid out. */
  lemma LaidOutIff(pod: PodSpec, specs: seq<ContainerSpec>)
    ensures LaidOut(pod, specs) <==> pod == PodOf(specs)
  {
    PodIsLaidOut(specs);
    if LaidOut(pod, specs) {
      var made := PodOf(specs);
      forall k | 0 <= k < |pod.initContainers| ensures pod.initContainers[k] == made.initContainers[k] {
        var i := PlaceTaken(specs, true, k);
        DescribedOnce(pod.initContainers[k], made.initContainers[k], specs[i]);
      }
      forall k | 0 <= k < |pod.containers| ensures pod.containers[k] == made.containers[k] {
        var i := PlaceTaken(specs, false, k);
        DescribedOnce(pod.containers[k], made.containers[k], specs[i]);
      }
    }
  }

  /** Where container `i` lands: after the earlier ones of its own kind. */
  function Place(specs: seq<ContainerSpec>, i: nat): nat
    requires i < |specs|
  {
    |Side(specs[..i], specs[i].initial)|
  }

  /** Every container is on its side, at its place. */
  lemma {:induction false} PartitionPlaces(specs: seq<ContainerSpec>, i: nat)
    requires i < |specs|
    ensures var side := Side(specs, specs[i].initial);
            Place(specs, i) < |side| && side[Place(specs, i)] == NewContainer(specs[i])
    decreases |specs|
  {
    var n := |specs| - 1;
    if i == n {
    } else {
      PartitionPlaces(specs[..n], i);
      assert specs[..n][..i] == specs[..i];
    }
  }

  /** The places on a side keep the order of the list, and the two sides hold nothing else. */
  lemma {:induction false} PartitionStable(specs: seq<ContainerSpec>, i: nat, j: nat)
    requires i < j < |specs|
    ensures specs[i].initial == specs[j].initial ==> Place(specs, i) < Place(specs, j)
    ensures |Side(specs, true)| + |Side(specs, false)| == |specs|
  {
    PartitionPlaces(specs[..j], i);
    assert specs[..j][..i] == specs[..i];
    SidesCover(specs);
  }

  lemma {:induction false} SidesCover(specs: seq<ContainerSpec>)
    ensures |Side(specs, true)| + |Side(specs, false)| == |specs|
  {
    if specs != [] {
      SidesCover(specs[..|specs| - 1]);
    }
  }

  function LimitSum(containers: seq<Container>, dim: Dim): int {
    if containers == [] then 0
    else LimitSum(containers[..|containers| - 1], dim) + containers[|containers| - 1].limits.At(dim)
  }

  function RequestSum(containers: seq<Container>, dim: Dim): int {
    if containers == [] then 0
    else RequestSum(containers[..|containers| - 1], dim) + containers[|containers| - 1].requests.At(dim)
  }

  function PodLimit(pod: PodSpec, dim: Dim): int {
    LimitSum(pod.initContainers, dim) + LimitSum(pod.containers, dim)
  }

  function PodRequest(pod: PodSpec, dim: Dim): int {
    RequestSum(pod.initContainers, dim) + RequestSum(pod.containers, dim)
  }

  /** One more container adds its limits to its side, its requests likewise, and leaves the other side. */
  lemma SideSnoc(specs: seq<ContainerSpec>, initial: bool, dim: Dim)
    requires specs != []
    ensures var last := specs[|specs| - 1];
            var side, shorter := Side(specs, initial), Side(specs[..|specs| - 1], initial);
            && LimitSum(side, dim) == LimitSum(shorter, dim) +
                                      (if last.initial == initial then last.resource.At(dim) else 0)
            && RequestSum(side, dim) == RequestSum(shorter, dim) +
                                        (if last.initial == initial then Half(last.resource.At(dim)) else 0)
  {
    var last, shorter := specs[|specs| - 1], Side(specs[..|specs| - 1], initial);
    if last.initial == initial {
      assert (shorter + [NewContainer(last)])[..|shorter|] == shorter;
    } else {
      assert Side(specs, initial) == shorter;
    }
  }

  /** What the pod may use in all is what the containers demand. */
  lemma {:induction false} PodLimitIsDemand(specs: seq<ContainerSpec>, dim: Dim)
    ensures PodLimit(PodOf(specs), dim) == Demand(specs, dim)
  {
    if specs != [] {
      PodLimitIsDemand(specs[..|specs| - 1], dim);
      SideSnoc(specs, true, dim);
      SideSnoc(specs, false, dim);
    }
  }

  /** The pod matches the reservation: its limits add up to what BegResource charges exactly when
      the demand fits in an int32. */
  lemma PodMatchesCharge(specs: seq<ContainerSpec>, dim: Dim)
    ensures PodLimit(PodOf(specs), dim) == Charge(specs).At(dim) <==> Fits32(Demand(specs, dim))
  {
    PodLimitIsDemand(specs, dim);
    WrapFits(Demand(specs, dim));
  }

  /** One container's request is at most half its limit, except for odd negative amounts. */
  lemma HalfBound(x: int32)
    ensures 2 * Half(x) <= x <==> x >= 0 || x % 2 == 0
  {
  }

  /** Twice what the pod requests is at most what its containers demand. */
  lemma {:induction false} RequestsWithinHalf(specs: seq<ContainerSpec>, dim: Dim)
    requires NonNegativeContainers(specs)
    ensures 2 * PodRequest(PodOf(specs), dim) <= Demand(specs, dim)
  {
    if specs != [] {
      var last := specs[|specs| - 1];
      RequestsWithinHalf(specs[..|specs| - 1], dim);
      HalfBound(last.resource.At(dim));
      SideSnoc(specs, true, dim);
      SideSnoc(specs, false, dim);
    }
  }

  /** `GetStatusFromPod` on the list the API returned. */
  function StatusOf(pods: PodList): Status {
    match pods
    case None => Pending
    case Some(PodPending) => Pending
    case Some(PodRunning) => Doing
    case Some(PodFailed) => Failed
    case Some(PodSucceeded) => Done
    case Some(PodUnknown) => Blank
  }
}
