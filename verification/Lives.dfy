/** One object over its versions, as the round machine leaves them: deployers, builders and workflows
    alike. `st` is the common status of an object. */
module Lives {
  import opened Objects
  import opened Rounds

  /** What one status write may do to the rounds; only a `lax` object's may stutter. */
  predicate Moves(a: CommonStatus, b: CommonStatus, lax: bool) {
    SameRound(a, b) || Advances(a, b) || (lax && Stutters(a, b))
  }

  predicate GoodVersion<T>(h: Versions<T>, st: T -> CommonStatus, lax: bool, i: nat)
    requires i < |h|
  {
    h[i].Some? ==>
      if i == 0 || h[i - 1].None? then st(h[i].value) == BLANK
      else Moves(st(h[i - 1].value), st(h[i].value), lax)
  }

  /** Every version starts blank or moves on from the one before. */
  predicate WellRun<T>(h: Versions<T>, st: T -> CommonStatus, lax: bool) {
    forall i | 0 <= i < |h| :: GoodVersion(h, st, lax, i)
  }

  lemma SnocWellRun<T>(h: Versions<T>, st: T -> CommonStatus, lax: bool, y: Option<T>)
    requires WellRun(h, st, lax)
    requires y.Some? ==>
               if Latest(h).None? then st(y.value) == BLANK else Moves(st(Latest(h).value), st(y.value), lax)
    ensures WellRun(h + [y], st, lax)
  {
    forall i | 0 <= i < |h + [y]| ensures GoodVersion(h + [y], st, lax, i) {
      if i < |h| { assert GoodVersion(h, st, lax, i); }
    }
  }

  /** Versions `b` to `i` are one object, from its creation. */
  predicate OneLife<T>(h: Versions<T>, b: nat, i: nat) {
    && b <= i < |h|
    && (forall j | b <= j <= i :: h[j].Some?)
    && (b == 0 || h[b - 1].None?)
  }

  function StatusesOf<T>(h: Versions<T>, st: T -> CommonStatus, b: nat, i: nat): seq<CommonStatus>
    requires OneLife(h, b, i)
  {
    seq(i - b + 1, k requires 0 <= k <= i - b => st(h[b + k].value))
  }

  lemma LifeIsChain<T>(h: Versions<T>, st: T -> CommonStatus, lax: bool, b: nat, i: nat)
    requires WellRun(h, st, lax) && OneLife(h, b, i)
    ensures Chain(StatusesOf(h, st, b, i))
    ensures !lax ==> !HasStutter(StatusesOf(h, st, b, i))
  {
    var c := StatusesOf(h, st, b, i);
    assert GoodVersion(h, st, lax, b) && c[0] == st(h[b].value) == BLANK;
    forall k | 0 <= k < |c| - 1 ensures Moves(c[k], c[k + 1], lax) {
      assert GoodVersion(h, st, lax, b + k + 1) && h[b + k].Some? && h[b + k + 1].Some?;
      assert c[k] == st(h[b + k + 1 - 1].value) && c[k + 1] == st(h[b + k + 1].value);
    }
    assert !lax ==> forall k | 0 <= k < |c| - 1 :: !Stutters(c[k], c[k + 1]);
  }

  /** At version `i` the history is exact, and each of its records keeps the last status of its round. */
  predicate ExactLife<T>(h: Versions<T>, st: T -> CommonStatus, b: nat, i: nat)
    requires OneLife(h, b, i)
  {
    var c := StatusesOf(h, st, b, i);
    Exact(c) && forall rec | rec in c[|c| - 1].history :: ClosesRound(c, rec)
  }

  /** So it is for every object that never stutters. */
  lemma LifeIsExact<T>(h: Versions<T>, st: T -> CommonStatus, b: nat, i: nat)
    requires WellRun(h, st, false) && OneLife(h, b, i)
    ensures ExactLife(h, st, b, i)
  {
    LifeIsChain(h, st, false, b, i);
    HistoryExactIff(StatusesOf(h, st, b, i));
    RecordsCloseRounds(StatusesOf(h, st, b, i));
  }

  /** Exactness can be told from the last version alone. */
  lemma LifeExactIff<T>(h: Versions<T>, st: T -> CommonStatus, b: nat, i: nat)
    requires WellRun(h, st, true) && OneLife(h, b, i) && h[i].Some?
    ensures Exact(StatusesOf(h, st, b, i)) <==> !Spoiled(st(h[i].value))
  {
    LifeIsChain(h, st, true, b, i);
    HistoryExactIff(StatusesOf(h, st, b, i));
    SpoiledIffStutter(StatusesOf(h, st, b, i));
    assert StatusesOf(h, st, b, i)[i - b] == st(h[b + (i - b)].value);
  }

  /** The current round never decreases and the history only grows. */
  lemma LifeIsMonotone<T>(h: Versions<T>, st: T -> CommonStatus, lax: bool, b: nat, i: nat, j: nat)
    requires WellRun(h, st, lax) && OneLife(h, b, j) && b <= i <= j
    ensures h[i].Some? && h[j].Some?
    ensures 0 <= st(h[i].value).currentRound <= st(h[j].value).currentRound
    ensures st(h[i].value).history <= st(h[j].value).history
  {
    LifeIsChain(h, st, lax, b, j);
    var c := StatusesOf(h, st, b, j);
    ChainMonotone(c, i - b, j - b);
    assert c[i - b] == st(h[i].value) && c[j - b] == st(h[j].value);
  }
}
