/** int32 sums as the controllers compute them, and when they are the exact ones. */
module Quantities {
  import opened Objects

  const MAX32: int := 0x7fff_ffff

  function Wrap32(x: int): int32 {
    (x + 0x8000_0000) % 0x1_0000_0000 - 0x8000_0000
  }

  predicate Fits32(x: int) {
    -0x8000_0000 <= x <= MAX32
  }

  /** Exact demand of a container list. */
  function Demand(containers: seq<ContainerSpec>, dim: Dim): int {
    if containers == [] then 0
    else Demand(containers[..|containers| - 1], dim) + containers[|containers| - 1].resource.At(dim)
  }

  /** Exact sum of a usage list. */
  function Sum(usage: seq<UsageEntry>, dim: Dim): int {
    if usage == [] then 0
    else Sum(usage[..|usage| - 1], dim) + usage[|usage| - 1].amount.At(dim)
  }

  /** What BegResource charges: the exact demand modulo 2^32. */
  function Charge(containers: seq<ContainerSpec>): Resource {
    Resource(Wrap32(Demand(containers, Cpu)), Wrap32(Demand(containers, Memory)))
  }

  /** What the pool reconciler stores as Free. */
  function Remaining(capacity: Resource, usage: seq<UsageEntry>): Resource {
    Resource(Wrap32(capacity.cpu - Wrap32(Sum(usage, Cpu))),
             Wrap32(capacity.memory - Wrap32(Sum(usage, Memory))))
  }

  lemma RemainingAt(capacity: Resource, usage: seq<UsageEntry>, dim: Dim)
    ensures Remaining(capacity, usage).At(dim) == Wrap32(capacity.At(dim) - Sum(usage, dim))
  {
    WrapAdd(Sum(usage, Cpu), capacity.cpu);
    WrapAdd(Sum(usage, Memory), capacity.memory);
    match dim
    case Cpu =>
    case Memory =>
  }

  lemma NothingUsed(c: Resource)
    ensures Remaining(c, []) == c
  {
    assert Sum([], Cpu) == 0 && Sum([], Memory) == 0;
    WrapFits(0);
    WrapFits(c.cpu);
    WrapFits(c.memory);
  }

  predicate NonNegativeContainers(containers: seq<ContainerSpec>) {
    forall i | 0 <= i < |containers| :: containers[i].resource.cpu >= 0 && containers[i].resource.memory >= 0
  }

  predicate NonNegativeUsage(usage: seq<UsageEntry>) {
    forall i | 0 <= i < |usage| :: usage[i].amount.cpu >= 0 && usage[i].amount.memory >= 0
  }

  predicate Affords(free: Resource, amount: Resource) {
    amount.cpu <= free.cpu && amount.memory <= free.memory
  }

  lemma WrapFits(x: int)
    ensures Wrap32(x) == x <==> Fits32(x)
  {
  }

  lemma WrapAdd(x: int, y: int)
    ensures Wrap32(Wrap32(x) + y) == Wrap32(x + y)
    ensures Wrap32(y - Wrap32(x)) == Wrap32(y - x)
  {
    var q := (x + 0x8000_0000) / 0x1_0000_0000;
    assert Wrap32(x) == x - q * 0x1_0000_0000;
    WrapShift(x + y, -q);
    WrapShift(y - x, q);
  }

  lemma WrapShift(x: int, q: int)
    ensures Wrap32(x + q * 0x1_0000_0000) == Wrap32(x)
  {
  }

  /** The summation loop of BegResource. */
  method SumDemand(containers: seq<ContainerSpec>) returns (total: Resource)
    ensures total == Charge(containers)
  {
    var cpu: int32, memory: int32 := 0, 0;
    var i := 0;
    while i < |containers|
      invariant 0 <= i <= |containers|
      invariant cpu == Wrap32(Demand(containers[..i], Cpu))
      invariant memory == Wrap32(Demand(containers[..i], Memory))
    {
      var resource := containers[i].resource;
      assert containers[..i + 1][..i] == containers[..i];
      WrapAdd(Demand(containers[..i], Cpu), resource.cpu);
      WrapAdd(Demand(containers[..i], Memory), resource.memory);
      cpu := Wrap32(cpu + resource.cpu);
      memory := Wrap32(memory + resource.memory);
      i := i + 1;
    }
    assert containers[..i] == containers;
    total := Resource(cpu, memory);
  }

  /** The summation loop of the pool reconciler. */
  method SumUsage(usage: seq<UsageEntry>) returns (used: Resource)
    ensures used == Resource(Wrap32(Sum(usage, Cpu)), Wrap32(Sum(usage, Memory)))
  {
    var cpu: int32, memory: int32 := 0, 0;
    var i := 0;
    while i < |usage|
      invariant 0 <= i <= |usage|
      invariant cpu == Wrap32(Sum(usage[..i], Cpu))
      invariant memory == Wrap32(Sum(usage[..i], Memory))
    {
      var amount := usage[i].amount;
      assert usage[..i + 1][..i] == usage[..i];
      WrapAdd(Sum(usage[..i], Cpu), amount.cpu);
      WrapAdd(Sum(usage[..i], Memory), amount.memory);
      cpu := Wrap32(cpu + amount.cpu);
      memory := Wrap32(memory + amount.memory);
      i := i + 1;
    }
    assert usage[..i] == usage;
    used := Resource(cpu, memory);
  }

  lemma {:induction false} DemandPrefix(containers: seq<ContainerSpec>, i: nat, dim: Dim)
    requires NonNegativeContainers(containers) && i <= |containers|
    ensures 0 <= Demand(containers[..i], dim) <= Demand(containers, dim)
    decreases |containers|
  {
    if i == |containers| {
      assert containers[..i] == containers;
      if i > 0 {
        DemandPrefix(containers[..i - 1], i - 1, dim);
        assert containers[..i - 1][..i - 1] == containers[..i - 1];
      }
    } else {
      var shorter := containers[..|containers| - 1];
      DemandPrefix(shorter, i, dim);
      assert shorter[..i] == containers[..i];
    }
  }

  lemma {:induction false} SumPrefix(usage: seq<UsageEntry>, i: nat, dim: Dim)
    requires NonNegativeUsage(usage) && i <= |usage|
    ensures 0 <= Sum(usage[..i], dim) <= Sum(usage, dim)
    decreases |usage|
  {
    if i == |usage| {
      assert usage[..i] == usage;
      if i > 0 {
        SumPrefix(usage[..i - 1], i - 1, dim);
        assert usage[..i - 1][..i - 1] == usage[..i - 1];
      }
    } else {
      var shorter := usage[..|usage| - 1];
      SumPrefix(shorter, i, dim);
      assert shorter[..i] == usage[..i];
    }
  }

  /** Every partial sum of the beg loop is exact when the amounts are non-negative and the total fits. */
  lemma BegSumsExact(containers: seq<ContainerSpec>, i: nat, dim: Dim)
    requires NonNegativeContainers(containers) && i <= |containers|
    requires Fits32(Demand(containers, dim))
    ensures Charge(containers[..i]).At(dim) == Demand(containers[..i], dim)
  {
    DemandPrefix(containers, i, dim);
  }

  /** While usage is within capacity no partial sum of the sync loop wraps, nor does the subtraction. */
  lemma SyncSumsExact(capacity: Resource, usage: seq<UsageEntry>, i: nat, dim: Dim)
    requires NonNegativeUsage(usage) && i <= |usage|
    requires Sum(usage, dim) <= capacity.At(dim)
    ensures Wrap32(Sum(usage[..i], dim)) == Sum(usage[..i], dim)
    ensures Remaining(capacity, usage).At(dim) == capacity.At(dim) - Sum(usage, dim) >= 0
  {
    SumPrefix(usage, i, dim);
    RemainingAt(capacity, usage, dim);
    WrapFits(Sum(usage[..i], dim));
    WrapFits(capacity.At(dim) - Sum(usage, dim));
  }

  /** Partial sums may wrap without harm: Free is exact precisely up to an excess of 2^31. */
  lemma FreeExactIff(capacity: Resource, usage: seq<UsageEntry>, dim: Dim)
    requires NonNegativeUsage(usage) && capacity.At(dim) >= 0
    ensures Remaining(capacity, usage).At(dim) == capacity.At(dim) - Sum(usage, dim)
       <==> Sum(usage, dim) - capacity.At(dim) <= 0x8000_0000
  {
    RemainingAt(capacity, usage, dim);
    SumPrefix(usage, 0, dim);
    WrapFits(capacity.At(dim) - Sum(usage, dim));
  }

  lemma SumSnoc(usage: seq<UsageEntry>, e: UsageEntry, dim: Dim)
    ensures Sum(usage + [e], dim) == Sum(usage, dim) + e.amount.At(dim)
  {
    assert (usage + [e])[..|usage|] == usage;
  }

  lemma {:induction false} SumSplit(a: seq<UsageEntry>, b: seq<UsageEntry>, dim: Dim)
    ensures Sum(a + b, dim) == Sum(a, dim) + Sum(b, dim)
    decreases |b|
  {
    if b == [] {
      assert a + b == a;
    } else {
      var n := |b| - 1;
      SumSplit(a, b[..n], dim);
      assert (a + b)[..|a| + n] == a + b[..n];
    }
  }
}
