/** A resource pool under atomic operations, and what a sequence of them does to its books. */
module Ledger {
  import opened Objects
  import opened Quantities

  datatype PoolOp =
    | Create(capacity: Resource)
    | Guard                                 // the reconciler adds its finalizer
    | Resize(capacity: Resource)
    | Doom                                  // a client deletes the pool
    | Remove                                // the reconciler removes its finalizer
    | Grant(owner: Key, amount: Resource)   // BegResource
    | Return(owner: Key)                    // ReleaseResource
    | Sync                                  // the reconciler recomputes Free

  /** The index ReleaseResource searches for; |usage| if there is none. */
  function First(usage: seq<UsageEntry>, owner: Key): (i: nat)
    ensures i <= |usage|
    ensures i < |usage| ==> usage[i].owner == owner
    ensures forall j | 0 <= j < i :: usage[j].owner != owner
  {
    if usage == [] then 0
    else if usage[0].owner == owner then 0
    else First(usage[1..], owner) + 1
  }

  predicate Holds(usage: seq<UsageEntry>, owner: Key) {
    First(usage, owner) < |usage|
  }

  function DropFirst(usage: seq<UsageEntry>, owner: Key): seq<UsageEntry> {
    var i := First(usage, owner);
    if i == |usage| then usage else usage[..i] + usage[i + 1..]
  }

  /** The effect of one operation on the current version of a pool. */
  function Effect(p: Option<Pool>, op: PoolOp): Option<Pool>
    requires Legal(p, op)
  {
    match op
    case Create(c) => Some(Pool(c, [], None, false, false))
    case Guard => Some(p.value.(finalizer := true))
    case Resize(c) => Some(p.value.(capacity := c))
    case Doom => if p.value.finalizer then Some(p.value.(deleting := true)) else None
    case Remove => None
    case Grant(o, a) => Some(p.value.(usage := p.value.usage + [UsageEntry(o, a)]))
    case Return(o) => Some(p.value.(usage := DropFirst(p.value.usage, o)))
    case Sync => Some(p.value.(free := Some(Remaining(p.value.capacity, p.value.usage))))
  }

  /** When an atomic operation may happen. */
  predicate Legal(p: Option<Pool>, op: PoolOp) {
    if p.None? then op.Create? else
    match op
    case Create(_) => false
    case Guard => !p.value.deleting
    case Resize(_) => true
    case Doom => p.value.finalizer || p.value.usage == []
    case Remove => p.value.deleting && p.value.usage == []
    case Grant(_, a) => p.value.free.Some? && Affords(p.value.free.value, a)
    case Return(o) => Holds(p.value.usage, o)
    case Sync =>
      && !p.value.deleting && p.value.finalizer
      && Affords(Remaining(p.value.capacity, p.value.usage), Resource(0, 0))
  }

  datatype Outcome = Illegal | Left(pool: Option<Pool>)

  function Run(ops: seq<PoolOp>): Outcome {
    if ops == [] then Left(None)
    else
      match Run(ops[..|ops| - 1])
      case Illegal => Illegal
      case Left(p) => if Legal(p, ops[|ops| - 1]) then Left(Effect(p, ops[|ops| - 1])) else Illegal
  }

  /** Every operation was legal on what the earlier ones left. */
  predicate LegalRun(ops: seq<PoolOp>) {
    Run(ops).Left?
  }

  /** The pool a run of atomic operations leaves. */
  function Replay(ops: seq<PoolOp>): Option<Pool>
    requires LegalRun(ops)
  {
    Run(ops).pool
  }

  lemma RunSnoc(ops: seq<PoolOp>, op: PoolOp)
    requires LegalRun(ops) && Legal(Replay(ops), op)
    ensures LegalRun(ops + [op]) && Replay(ops + [op]) == Effect(Replay(ops), op)
  {
    assert (ops + [op])[..|ops|] == ops;
  }

  /** A pool that holds reservations, or whose Free was computed, carries the finalizer: so no
      deletion can take it away while it holds any. */
  lemma {:induction false} UsageIsGuarded(ops: seq<PoolOp>)
    requires LegalRun(ops) && Replay(ops).Some?
    ensures Replay(ops).value.usage != [] || Replay(ops).value.free.Some? ==> Replay(ops).value.finalizer
    decreases |ops|
  {
    var before := ops[..|ops| - 1];
    if Replay(before).Some? {
      UsageIsGuarded(before);
    }
  }

  /* ---- each owner's entries are a queue of its own grants ---- */

  function EntriesOf(usage: seq<UsageEntry>, owner: Key): seq<UsageEntry> {
    if usage == [] then []
    else
      var last := usage[|usage| - 1];
      EntriesOf(usage[..|usage| - 1], owner) + if last.owner == owner then [last] else []
  }

  /** How one operation moves `owner`'s queue: its grants enter at the back, its returns leave at the
      front, and nobody else's operations touch it. */
  function QueueStep(queue: seq<UsageEntry>, op: PoolOp, owner: Key): seq<UsageEntry> {
    match op
    case Grant(o, a) => if o == owner then queue + [UsageEntry(o, a)] else queue
    case Return(o) => if o == owner && queue != [] then queue[1..] else queue
    case _ => queue
  }

  function Queue(ops: seq<PoolOp>, owner: Key): seq<UsageEntry> {
    if ops == [] then [] else QueueStep(Queue(ops[..|ops| - 1], owner), ops[|ops| - 1], owner)
  }

  function EntriesIn(p: Option<Pool>, owner: Key): seq<UsageEntry> {
    if p.Some? then EntriesOf(p.value.usage, owner) else []
  }

  lemma {:induction false} EntriesSplit(a: seq<UsageEntry>, b: seq<UsageEntry>, owner: Key)
    ensures EntriesOf(a + b, owner) == EntriesOf(a, owner) + EntriesOf(b, owner)
    decreases |b|
  {
    if b == [] {
      assert a + b == a;
    } else {
      var n := |b| - 1;
      EntriesSplit(a, b[..n], owner);
      assert (a + b)[..|a| + n] == a + b[..n];
    }
  }

  lemma {:induction false} NoEntries(usage: seq<UsageEntry>, owner: Key)
    requires forall i | 0 <= i < |usage| :: usage[i].owner != owner
    ensures EntriesOf(usage, owner) == []
  {
    if usage != [] {
      NoEntries(usage[..|usage| - 1], owner);
    }
  }

  /** The search finds an entry exactly when the owner has one. */
  lemma {:induction false} HoldsIffEntries(usage: seq<UsageEntry>, owner: Key)
    ensures Holds(usage, owner) <==> EntriesOf(usage, owner) != []
  {
    var i := First(usage, owner);
    if i == |usage| {
      NoEntries(usage, owner);
    } else {
      EntriesSplit(usage[..i], usage[i..], owner);
      EntriesSplit([usage[i]], usage[i + 1..], owner);
      assert usage[..i] + usage[i..] == usage && [usage[i]] + usage[i + 1..] == usage[i..];
      assert EntriesOf([usage[i]], owner) == [usage[i]];
    }
  }

  lemma EntriesSnoc(usage: seq<UsageEntry>, e: UsageEntry, owner: Key)
    ensures EntriesOf(usage + [e], owner) == EntriesOf(usage, owner) + if e.owner == owner then [e] else []
  {
    assert (usage + [e])[..|usage|] == usage;
  }

  lemma EntriesAround(a: seq<UsageEntry>, e: UsageEntry, b: seq<UsageEntry>, owner: Key)
    ensures EntriesOf(a + [e] + b, owner) ==
            EntriesOf(a, owner) + (if e.owner == owner then [e] else []) + EntriesOf(b, owner)
  {
    EntriesSplit(a + [e], b, owner);
    EntriesSnoc(a, e, owner);
  }

  /** The search stops at the owner's oldest entry. */
  lemma FirstIsOldest(usage: seq<UsageEntry>, owner: Key)
    requires Holds(usage, owner)
    ensures var i := First(usage, owner);
            EntriesOf(usage, owner) == [usage[i]] + EntriesOf(usage[i + 1..], owner)
  {
    var i := First(usage, owner);
    var a, e, b := usage[..i], usage[i], usage[i + 1..];
    assert usage == a + [e] + b;
    EntriesAround(a, e, b, owner);
    NoEntries(a, owner);
    assert [] + [e] == [e];
  }

  /** Releasing drops the owner's oldest entry and nothing else. */
  lemma DropFirstEntries(usage: seq<UsageEntry>, owner: Key, other: Key)
    requires Holds(usage, owner)
    ensures EntriesOf(usage, owner) != []
    ensures EntriesOf(DropFirst(usage, owner), other) ==
            if other == owner then EntriesOf(usage, owner)[1..] else EntriesOf(usage, other)
  {
    var i := First(usage, owner);
    var a, e, b := usage[..i], usage[i], usage[i + 1..];
    FirstIsOldest(usage, owner);
    EntriesSplit(a, b, other);
    if other == owner {
      NoEntries(a, owner);
    } else {
      assert usage == a + [e] + b;
      EntriesAround(a, e, b, other);
      assert EntriesOf(a, other) + [] == EntriesOf(a, other);
    }
  }

  lemma EffectOnEntries(p: Option<Pool>, op: PoolOp, owner: Key)
    requires Legal(p, op)
    ensures EntriesIn(Effect(p, op), owner) == QueueStep(EntriesIn(p, owner), op, owner)
  {
    match op
    case Grant(o, a) => EntriesSnoc(p.value.usage, UsageEntry(o, a), owner);
    case Return(o) => DropFirstEntries(p.value.usage, o, owner);
    case _ =>
  }

  /** Frame and content at once: after any run an owner's entries, in order, are the queue of its own
      grants and returns, whatever everyone else did. */
  lemma {:induction false} EntriesAreQueue(ops: seq<PoolOp>, owner: Key)
    requires LegalRun(ops)
    ensures EntriesIn(Replay(ops), owner) == Queue(ops, owner)
    decreases |ops|
  {
    if ops != [] {
      EntriesAreQueue(ops[..|ops| - 1], owner);
      EffectOnEntries(Replay(ops[..|ops| - 1]), ops[|ops| - 1], owner);
    }
  }

  /* ---- conservation ---- */

  function Granted(ops: seq<PoolOp>, dim: Dim): int {
    if ops == [] then 0
    else Granted(ops[..|ops| - 1], dim) +
         if ops[|ops| - 1].Grant? then ops[|ops| - 1].amount.At(dim) else 0
  }

  /** What was returned: the oldest amount the owner still had. */
  function Returned(ops: seq<PoolOp>, dim: Dim): int {
    if ops == [] then 0
    else
      var before, op := ops[..|ops| - 1], ops[|ops| - 1];
      Returned(before, dim) +
      if op.Return? && Queue(before, op.owner) != [] then Queue(before, op.owner)[0].amount.At(dim) else 0
  }

  lemma DropFirstSum(usage: seq<UsageEntry>, owner: Key, dim: Dim)
    requires Holds(usage, owner)
    ensures EntriesOf(usage, owner) != []
    ensures Sum(DropFirst(usage, owner), dim) == Sum(usage, dim) - EntriesOf(usage, owner)[0].amount.At(dim)
  {
    var i := First(usage, owner);
    FirstIsOldest(usage, owner);
    SumSplit(usage[..i], usage[i + 1..], dim);
    assert usage == usage[..i + 1] + usage[i + 1..];
    assert usage[..i + 1] == usage[..i] + [usage[i]];
    SumSplit(usage[..i + 1], usage[i + 1..], dim);
    SumSnoc(usage[..i], usage[i], dim);
  }

  /** The ledger balances: what is in use is what was granted less what was returned. */
  lemma {:induction false} Conservation(ops: seq<PoolOp>, dim: Dim)
    requires LegalRun(ops)
    ensures Granted(ops, dim) - Returned(ops, dim) ==
            if Replay(ops).Some? then Sum(Replay(ops).value.usage, dim) else 0
    decreases |ops|
  {
    if ops != [] {
      var before, op := ops[..|ops| - 1], ops[|ops| - 1];
      Conservation(before, dim);
      match op {
        case Grant(o, a) => SumSnoc(Replay(before).value.usage, UsageEntry(o, a), dim);
        case Return(o) =>
          DropFirstSum(Replay(before).value.usage, o, dim);
          EntriesAreQueue(before, o);
        case _ =>
      }
    }
  }

  /* ---- how far usage can exceed capacity ---- */

  /** How one operation moves the count of grants since the last sync. */
  function Tick(k: nat, op: PoolOp): nat {
    match op
    case Grant(_, _) => k + 1
    case Sync => 0
    case Create(_) => 0
    case _ => k
  }

  /** Grants since the last sync, or since the pool was created. */
  function SinceSync(ops: seq<PoolOp>): nat {
    if ops == [] then 0 else Tick(SinceSync(ops[..|ops| - 1]), ops[|ops| - 1])
  }

  predicate SteadyOp(op: PoolOp) {
    match op
    case Create(c) => c.cpu >= 0 && c.memory >= 0
    case Grant(_, a) => a.cpu >= 0 && a.memory >= 0
    case Resize(_) => false
    case _ => true
  }

  /** The capacity is fixed and no amount is negative. */
  predicate Steady(ops: seq<PoolOp>) {
    forall i | 0 <= i < |ops| :: SteadyOp(ops[i])
  }

  /** The total is not so large that int32 arithmetic would get Free wrong. */
  predicate SyncExact(p: Pool) {
    && Sum(p.usage, Cpu) - p.capacity.cpu <= 0x8000_0000
    && Sum(p.usage, Memory) - p.capacity.memory <= 0x8000_0000
  }

  /** No sync met a total too large for its int32 arithmetic. */
  predicate SyncsExact(ops: seq<PoolOp>)
    requires LegalRun(ops)
  {
    ops == [] ||
    (SyncsExact(ops[..|ops| - 1]) &&
     (ops[|ops| - 1].Sync? ==> SyncExact(Replay(ops[..|ops| - 1]).value)))
  }

  /** No grant follows another without a sync between them. */
  predicate Paced(ops: seq<PoolOp>) {
    ops == [] || (Paced(ops[..|ops| - 1]) && (ops[|ops| - 1].Grant? ==> SinceSync(ops[..|ops| - 1]) == 0))
  }

  lemma SteadyPrefix(ops: seq<PoolOp>)
    requires Steady(ops) && ops != []
    ensures Steady(ops[..|ops| - 1])
  {
    forall i | 0 <= i < |ops| - 1 ensures ops[..|ops| - 1][i] == ops[i] {}
  }

  lemma {:induction false} SteadyPool(ops: seq<PoolOp>)
    requires LegalRun(ops) && Steady(ops) && Replay(ops).Some?
    ensures var p := Replay(ops).value; NonNegativeUsage(p.usage) && p.capacity.cpu >= 0 && p.capacity.memory >= 0
    decreases |ops|
  {
    var before, op := ops[..|ops| - 1], ops[|ops| - 1];
    SteadyPrefix(ops);
    if Replay(before).Some? {
      SteadyPool(before);
      SteadyEffect(Replay(before).value, op);
    }
  }

  lemma SteadyEffect(p: Pool, op: PoolOp)
    requires NonNegativeUsage(p.usage) && p.capacity.cpu >= 0 && p.capacity.memory >= 0
    requires Legal(Some(p), op) && SteadyOp(op)
    ensures var p' := Effect(Some(p), op);
            p'.Some? ==>
              NonNegativeUsage(p'.value.usage) && p'.value.capacity.cpu >= 0 && p'.value.capacity.memory >= 0
  {
    match op {
      case Return(o) => assert forall i | 0 <= i < |DropFirst(p.usage, o)| :: DropFirst(p.usage, o)[i] in p.usage;
      case _ =>
    }
  }

  /** `k` grants since the last sync have exceeded the capacity by at most `k - 1` times Free. */
  predicate Bounded(p: Pool, k: nat, dim: Dim) {
    match p.free
    case None => p.usage == [] && k == 0
    case Some(free) =>
      free.At(dim) >= 0 && Sum(p.usage, dim) <= p.capacity.At(dim) + (k - 1) * free.At(dim)
  }

  lemma GrantBound(p: Pool, k: nat, e: UsageEntry, dim: Dim)
    requires Bounded(p, k, dim) && p.free.Some? && Affords(p.free.value, e.amount)
    ensures Bounded(p.(usage := p.usage + [e]), k + 1, dim)
  {
    SumSnoc(p.usage, e, dim);
    var free := p.free.value.At(dim);
    assert e.amount.At(dim) <= free;
    assert (k + 1 - 1) * free == (k - 1) * free + free;
  }

  lemma ReturnBound(p: Pool, k: nat, owner: Key, dim: Dim)
    requires Bounded(p, k, dim) && Holds(p.usage, owner) && NonNegativeUsage(p.usage)
    ensures Bounded(p.(usage := DropFirst(p.usage, owner)), k, dim)
  {
    DropFirstSum(p.usage, owner, dim);
    EntriesNonNegative(p.usage, owner);
  }

  lemma SyncBound(p: Pool, dim: Dim)
    requires NonNegativeUsage(p.usage) && p.capacity.At(dim) >= 0
    requires Sum(p.usage, dim) - p.capacity.At(dim) <= 0x8000_0000
    requires Remaining(p.capacity, p.usage).At(dim) >= 0
    ensures Bounded(p.(free := Some(Remaining(p.capacity, p.usage))), 0, dim)
  {
    FreeExactIff(p.capacity, p.usage, dim);
  }

  lemma StepBound(p: Pool, k: nat, op: PoolOp, dim: Dim)
    requires Bounded(p, k, dim) && Legal(Some(p), op) && SteadyOp(op)
    requires NonNegativeUsage(p.usage) && p.capacity.cpu >= 0 && p.capacity.memory >= 0
    requires op.Sync? ==> SyncExact(p)
    ensures var p' := Effect(Some(p), op); p'.Some? ==> Bounded(p'.value, Tick(k, op), dim)
  {
    match op {
      case Grant(o, a) => GrantBound(p, k, UsageEntry(o, a), dim);
      case Return(o) => ReturnBound(p, k, o, dim);
      case Sync => SyncBound(p, dim);
      case _ =>
    }
  }

  /** The over-commit bound, over every run of grants, returns, syncs and pool life cycles. */
  lemma {:induction false} OverCommitBound(ops: seq<PoolOp>, dim: Dim)
    requires LegalRun(ops) && Steady(ops) && SyncsExact(ops) && Replay(ops).Some?
    ensures Bounded(Replay(ops).value, SinceSync(ops), dim)
    decreases |ops|
  {
    var before, op := ops[..|ops| - 1], ops[|ops| - 1];
    SteadyPrefix(ops);
    if Replay(before).Some? {
      OverCommitBound(before, dim);
      SteadyPool(before);
      StepBound(Replay(before).value, SinceSync(before), op, dim);
    }
  }

  lemma {:induction false} EntriesNonNegative(usage: seq<UsageEntry>, owner: Key)
    requires NonNegativeUsage(usage)
    ensures NonNegativeUsage(EntriesOf(usage, owner))
  {
    if usage != [] {
      EntriesNonNegative(usage[..|usage| - 1], owner);
    }
  }

  /* ---- the bound is attained ---- */

  /** A synced pool of capacity `c` granted `k` times over before the next sync, in turn to `owners`. */
  function Overdrawn(c: Resource, owners: nat -> Key, k: nat): seq<PoolOp> {
    if k == 0 then [Create(c), Guard, Sync] else Overdrawn(c, owners, k - 1) + [Grant(owners(k - 1), c)]
  }

  lemma SyncedPool(c: Resource)
    requires c.cpu >= 0 && c.memory >= 0
    ensures var ops := [Create(c), Guard, Sync];
            && LegalRun(ops) && SinceSync(ops) == 0
            && Replay(ops) == Some(Pool(c, [], Some(c), true, false))
  {
    var o1, o2, o3 := [Create(c)], [Create(c), Guard], [Create(c), Guard, Sync];
    assert o1[..0] == [] && o2[..1] == o1 && o3[..2] == o2;
    NothingUsed(c);
    assert Run(o1) == Left(Some(Pool(c, [], None, false, false)));
    assert Run(o2) == Left(Some(Pool(c, [], None, true, false)));
    assert Run(o3) == Left(Some(Pool(c, [], Some(c), true, false)));
    assert SinceSync(o3) == 0;
  }

  /** `k` grants of the whole capacity after one sync: legal, and `k` times the capacity in use. */
  lemma {:induction false} OverdrawnUsage(c: Resource, owners: nat -> Key, k: nat, dim: Dim)
    requires c.cpu >= 0 && c.memory >= 0
    ensures var ops := Overdrawn(c, owners, k);
            && LegalRun(ops) && SinceSync(ops) == k && Replay(ops).Some?
            && Replay(ops).value.capacity == c && Replay(ops).value.free == Some(c)
            && Sum(Replay(ops).value.usage, dim) == Times(k, c.At(dim))
  {
    if k == 0 {
      SyncedPool(c);
    } else {
      OverdrawnUsage(c, owners, k - 1, dim);
      var before, op := Overdrawn(c, owners, k - 1), Grant(owners(k - 1), c);
      SumSnoc(Replay(before).value.usage, UsageEntry(owners(k - 1), c), dim);
      OverdrawnStep(before, op);
    }
  }

  lemma OverdrawnStep(before: seq<PoolOp>, op: PoolOp)
    requires LegalRun(before) && Legal(Replay(before), op) && op.Grant? && Replay(before).Some?
    ensures LegalRun(before + [op]) && SinceSync(before + [op]) == SinceSync(before) + 1
    ensures Replay(before + [op]) == Effect(Replay(before), op)
  {
    RunSnoc(before, op);
    assert (before + [op])[..|before|] == before;
  }

  function Times(k: nat, x: int): int {
    if k == 0 then 0 else Times(k - 1, x) + x
  }

  lemma {:induction false} TimesIsProduct(k: nat, x: int)
    ensures Times(k, x) == x + (k - 1) * x
  {
    if k > 0 {
      TimesIsProduct(k - 1, x);
      assert (k - 1) * x == (k - 2) * x + x;
    }
  }

  /** The over-commit bound is tight: for every capacity and every `k` some legal run meets it. */
  lemma OverCommitAttained(c: Resource, owners: nat -> Key, k: nat, dim: Dim)
    requires c.cpu >= 0 && c.memory >= 0
    ensures var ops := Overdrawn(c, owners, k);
            && LegalRun(ops) && SinceSync(ops) == k && Replay(ops).Some? && Replay(ops).value.free == Some(c)
            && Sum(Replay(ops).value.usage, dim) == c.At(dim) + (k - 1) * c.At(dim)
  {
    OverdrawnUsage(c, owners, k, dim);
    TimesIsProduct(k, c.At(dim));
  }
}
