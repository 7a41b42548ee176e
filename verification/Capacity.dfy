/** Exactly when usage stays within capacity, and exactly when the over-commit bound holds. */
module Capacity {
  import opened Objects
  import opened Quantities
  import opened Ledger

  /** What one operation adds to the usage. */
  function Moved(before: seq<PoolOp>, op: PoolOp, dim: Dim): int {
    if op.Grant? then op.amount.At(dim)
    else if op.Return? && Queue(before, op.owner) != [] then
      var oldest: int := Queue(before, op.owner)[0].amount.At(dim);
      -oldest
    else 0
  }

  /** Grants less returns since the last sync. */
  function NetSince(ops: seq<PoolOp>, dim: Dim): int {
    if ops == [] || ops[|ops| - 1].Sync? || ops[|ops| - 1].Create? then 0
    else NetSince(ops[..|ops| - 1], dim) + Moved(ops[..|ops| - 1], ops[|ops| - 1], dim)
  }

  /** What the stored Free stands for: usage is capacity less Free, plus what has moved since. */
  lemma {:induction false} UsageEquation(ops: seq<PoolOp>, dim: Dim)
    requires LegalRun(ops) && Steady(ops) && SyncsExact(ops) && Replay(ops).Some?
    ensures var p := Replay(ops).value;
            Sum(p.usage, dim) ==
            (if p.free.Some? then p.capacity.At(dim) - p.free.value.At(dim) else 0) + NetSince(ops, dim)
    ensures Replay(ops).value.free.None? ==> Replay(ops).value.usage == []
    decreases |ops|
  {
    var before, op := ops[..|ops| - 1], ops[|ops| - 1];
    SteadyPrefix(ops);
    if Replay(before).Some? {
      UsageEquation(before, dim);
      EquationStep(before, op, dim);
    }
  }

  lemma EquationStep(before: seq<PoolOp>, op: PoolOp, dim: Dim)
    requires LegalRun(before) && Steady(before) && Replay(before).Some? && Legal(Replay(before), op)
    requires op.Sync? ==> SyncExact(Replay(before).value)
    requires SteadyOp(op)
    ensures var p, p' := Replay(before).value, Effect(Replay(before), op);
            p'.Some? && !op.Sync? ==>
              && p'.value.free == p.free && p'.value.capacity == p.capacity
              && Sum(p'.value.usage, dim) - Sum(p.usage, dim) == Moved(before, op, dim)
    ensures op.Sync? ==>
              var p, p' := Replay(before).value, Effect(Replay(before), op).value;
              p'.usage == p.usage && p'.free.Some? && p'.capacity == p.capacity
              && p'.free.value.At(dim) == p.capacity.At(dim) - Sum(p.usage, dim)
  {
    var p := Replay(before).value;
    SteadyPool(before);
    match op {
      case Grant(o, a) => SumSnoc(p.usage, UsageEntry(o, a), dim);
      case Return(o) =>
        DropFirstSum(p.usage, o, dim);
        EntriesAreQueue(before, o);
      case Sync => FreeExactIff(p.capacity, p.usage, dim);
      case _ =>
    }
  }

  /** Usage is within capacity if and only if no more than Free has moved since the last sync. */
  lemma {:induction false} WithinIff(ops: seq<PoolOp>, dim: Dim)
    requires LegalRun(ops) && Steady(ops) && SyncsExact(ops)
    requires Replay(ops).Some? && Replay(ops).value.free.Some?
    ensures var p := Replay(ops).value;
            Sum(p.usage, dim) <= p.capacity.At(dim) <==> NetSince(ops, dim) <= p.free.value.At(dim)
  {
    UsageEquation(ops, dim);
  }

  /* ---- over a whole run ---- */

  predicate Within(p: Option<Pool>) {
    p.Some? ==>
      && Sum(p.value.usage, Cpu) <= p.value.capacity.cpu
      && Sum(p.value.usage, Memory) <= p.value.capacity.memory
  }

  predicate WithinThroughout(ops: seq<PoolOp>)
    requires LegalRun(ops)
  {
    ops == [] || (WithinThroughout(ops[..|ops| - 1]) && Within(Replay(ops)))
  }

  /** The amount fits into what the last sync left, less what has moved since. */
  predicate Fits(ops: seq<PoolOp>, free: Resource, amount: Resource) {
    && NetSince(ops, Cpu) + amount.cpu <= free.cpu
    && NetSince(ops, Memory) + amount.memory <= free.memory
  }

  /** Every grant met that check. */
  predicate FittingGrants(ops: seq<PoolOp>)
    requires LegalRun(ops)
  {
    ops == [] ||
    (var before, op := ops[..|ops| - 1], ops[|ops| - 1];
     FittingGrants(before) && (op.Grant? ==> Fits(before, Replay(before).value.free.value, op.amount)))
  }

  lemma {:induction false} WithinSyncsExact(ops: seq<PoolOp>)
    requires LegalRun(ops) && WithinThroughout(ops)
    ensures SyncsExact(ops)
    decreases |ops|
  {
    if ops != [] {
      WithinSyncsExact(ops[..|ops| - 1]);
    }
  }

  /** A grant keeps usage within capacity exactly if it fits; every other operation keeps it anyway. */
  lemma WithinStep(before: seq<PoolOp>, op: PoolOp)
    requires LegalRun(before) && Steady(before) && SyncsExact(before) && Legal(Replay(before), op) && SteadyOp(op)
    requires before == [] || Within(Replay(before))
    ensures Within(Effect(Replay(before), op)) <==>
            (op.Grant? ==> Fits(before, Replay(before).value.free.value, op.amount))
  {
    if Replay(before).Some? {
      var p := Replay(before).value;
      EquationStep(before, op, Cpu);
      EquationStep(before, op, Memory);
      match op {
        case Grant(_, a) =>
          UsageEquation(before, Cpu);
          UsageEquation(before, Memory);
        case Return(o) =>
          SteadyPool(before);
          EntriesAreQueue(before, o);
          DropFirstSum(p.usage, o, Cpu);
          EntriesNonNegative(p.usage, o);
        case _ =>
      }
    }
  }

  /** Usage is within capacity at every moment if and only if every grant fitted: no assumption on int32
      totals is needed. */
  lemma {:induction false} WithinIffFitting(ops: seq<PoolOp>)
    requires LegalRun(ops) && Steady(ops)
    ensures WithinThroughout(ops) <==> FittingGrants(ops)
    decreases |ops|
  {
    if ops != [] {
      var before := ops[..|ops| - 1];
      SteadyPrefix(ops);
      WithinIffFitting(before);
      if WithinThroughout(before) {
        WithinSyncsExact(before);
        WithinStep(before, ops[|ops| - 1]);
      }
    }
  }

  /* ---- a sync before every grant is enough ---- */

  /** Without grants since the last sync nothing but returns has moved. */
  lemma {:induction false} SyncedNet(ops: seq<PoolOp>, dim: Dim)
    requires LegalRun(ops) && Steady(ops) && SinceSync(ops) == 0
    ensures NetSince(ops, dim) <= 0
    decreases |ops|
  {
    if ops != [] {
      var before, op := ops[..|ops| - 1], ops[|ops| - 1];
      SteadyPrefix(ops);
      if !op.Sync? && !op.Create? {
        SyncedNet(before, dim);
        if op.Return? {
          SteadyPool(before);
          EntriesAreQueue(before, op.owner);
          EntriesNonNegative(Replay(before).value.usage, op.owner);
        }
      }
    }
  }

  lemma {:induction false} PacedFits(ops: seq<PoolOp>)
    requires LegalRun(ops) && Steady(ops) && Paced(ops)
    ensures FittingGrants(ops)
    decreases |ops|
  {
    if ops != [] {
      var before := ops[..|ops| - 1];
      SteadyPrefix(ops);
      PacedFits(before);
      if ops[|ops| - 1].Grant? {
        SyncedNet(before, Cpu);
        SyncedNet(before, Memory);
      }
    }
  }

  lemma PacedWithin(ops: seq<PoolOp>)
    requires LegalRun(ops) && Steady(ops) && Paced(ops)
    ensures WithinThroughout(ops) && SyncsExact(ops)
  {
    PacedFits(ops);
    WithinIffFitting(ops);
    WithinSyncsExact(ops);
  }

  /* ---- when the over-commit bound holds ---- */

  predicate BothBounded(p: Option<Pool>, k: nat) {
    p.Some? ==> Bounded(p.value, k, Cpu) && Bounded(p.value, k, Memory)
  }

  predicate BoundedThroughout(ops: seq<PoolOp>)
    requires LegalRun(ops)
  {
    ops == [] || (BoundedThroughout(ops[..|ops| - 1]) && BothBounded(Replay(ops), SinceSync(ops)))
  }

  /** A sync restores the bound if and only if usage exceeds capacity by at most 2^31. */
  lemma SyncBoundIff(p: Pool, dim: Dim)
    requires NonNegativeUsage(p.usage) && p.capacity.At(dim) >= 0 && Remaining(p.capacity, p.usage).At(dim) >= 0
    ensures Bounded(p.(free := Some(Remaining(p.capacity, p.usage))), 0, dim) <==>
            Sum(p.usage, dim) - p.capacity.At(dim) <= 0x8000_0000
  {
    FreeExactIff(p.capacity, p.usage, dim);
    RemainingAt(p.capacity, p.usage, dim);
    WrapBelow(p.capacity.At(dim) - Sum(p.usage, dim));
  }

  /** Wrapping from below int32 never lands below. */
  lemma WrapBelow(x: int)
    ensures x < -0x8000_0000 ==> Wrap32(x) > x
  {
  }

  /** The over-commit bound holds throughout a run if and only if no sync met a total too large for its
      int32 arithmetic. */
  lemma {:induction false} OverCommitIff(ops: seq<PoolOp>)
    requires LegalRun(ops) && Steady(ops)
    ensures BoundedThroughout(ops) <==> SyncsExact(ops)
    decreases |ops|
  {
    if ops != [] {
      var before, op := ops[..|ops| - 1], ops[|ops| - 1];
      SteadyPrefix(ops);
      OverCommitIff(before);
      if SyncsExact(before) && Replay(before).Some? {
        var p := Replay(before).value;
        SteadyPool(before);
        if op.Sync? {
          SyncBoundIff(p, Cpu);
          SyncBoundIff(p, Memory);
        } else {
          OverCommitBound(before, Cpu);
          OverCommitBound(before, Memory);
          StepBound(p, SinceSync(before), op, Cpu);
          StepBound(p, SinceSync(before), op, Memory);
        }
      }
    }
  }
}
