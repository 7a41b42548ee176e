/** What holds at every moment of a run, and what every action of it does. */
module Runs {
  import opened Cluster

  ghost predicate HoldsAt(acts: seq<Action>, p: State -> bool, i: nat)
    requires i <= |acts|
  {
    p(Exec(acts[..i]))
  }

  ghost predicate DoneAt(acts: seq<Action>, q: (State, Action) -> bool, i: nat)
    requires i < |acts|
  {
    q(Exec(acts[..i]), acts[i])
  }

  ghost predicate Always(acts: seq<Action>, p: State -> bool) {
    forall i: nat | i <= |acts| :: HoldsAt(acts, p, i)
  }

  ghost predicate Each(acts: seq<Action>, q: (State, Action) -> bool) {
    forall i: nat | i < |acts| :: DoneAt(acts, q, i)
  }

  lemma PrefixStep(acts: seq<Action>, i: nat)
    requires i < |acts|
    ensures Exec(acts[..i + 1]) == Apply(Exec(acts[..i]), acts[i])
  {
    assert acts[..i + 1][..i] == acts[..i];
  }

  /** From a moment where `p` holds, it goes on to hold exactly if the action does `q`. */
  ghost predicate Decides(acts: seq<Action>, p: State -> bool, q: (State, Action) -> bool, i: nat)
    requires i < |acts|
  {
    HoldsAt(acts, p, i) ==> (HoldsAt(acts, p, i + 1) <==> DoneAt(acts, q, i))
  }

  lemma {:induction false} Climb(acts: seq<Action>, p: State -> bool, q: (State, Action) -> bool, i: nat)
    requires i <= |acts| && HoldsAt(acts, p, 0) && Each(acts, q)
    requires forall k: nat | k < |acts| :: Decides(acts, p, q, k)
    ensures HoldsAt(acts, p, i)
  {
    if i > 0 {
      Climb(acts, p, q, i - 1);
      assert Decides(acts, p, q, i - 1) && DoneAt(acts, q, i - 1);
    }
  }

  /** A property decided by each action holds throughout a run if and only if each action does its part. */
  lemma StepwiseIff(acts: seq<Action>, p: State -> bool, q: (State, Action) -> bool)
    requires HoldsAt(acts, p, 0)
    requires forall i: nat | i < |acts| :: Decides(acts, p, q, i)
    ensures Always(acts, p) <==> Each(acts, q)
  {
    if Always(acts, p) {
      forall i: nat | i < |acts| ensures DoneAt(acts, q, i) {
        assert HoldsAt(acts, p, i) && HoldsAt(acts, p, i + 1) && Decides(acts, p, q, i);
      }
    }
    if Each(acts, q) {
      forall i: nat | i <= |acts| ensures HoldsAt(acts, p, i) {
        Climb(acts, p, q, i);
      }
    }
  }
}
