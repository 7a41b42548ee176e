/** What a builder's stored status goes back to, in every run. */
module BuilderSeen {
  import opened Objects
  import opened BuilderCluster

  /** The builder as a reconcile comes to compare its rounds. */
  function Opened(t: BuilderThread, r: BuilderAnswer): Option<Builder> {
    if t.Idle? && r.Got? then Some(r.builder)
    else if t.AddFinalizer? && r.SavedAt? then Some(Updated(t.mem))
    else None
  }

  /** At work on round `r`. */
  predicate In(t: BuilderThread, r: int) {
    !t.Idle? && t.mem.status.currentRound == r
  }

  /** What a call of a reconcile in round `r` may be told that explains the status. */
  predicate Explains(t: BuilderThread, answer: BuilderAnswer, r: int, status: Status) {
    if status == Done then t.Trigger? && In(t, r) && answer.Fine?
    else if status == Doing then
      In(t, r) && ((t.Watch? && answer == PodsSeen(Some(PodRunning))) || (t.Trigger? && !answer.Fine?))
    else if status == Failed then
      && In(t, r)
      && ((t.Watch? && (answer == PodsSeen(Some(PodFailed)) || !answer.PodsSeen?))
          || (t.FindJob? && !answer.There?) || (t.MakeJob? && !answer.Fine?))
    else if status == Pending then
      || (In(t, r) && t.Watch? && (answer == PodsSeen(None) || answer == PodsSeen(Some(PodPending))))
      || (In(t, r) && t.FindJob? && answer == There(false))
      || (t.FindOldJob? && t.mem.round == r && answer == There(false))
      || (t.DropOldJob? && t.mem.round == r && answer.Fine?)
    else if status == Undo then
      && Opened(t, answer).Some?
      && Opened(t, answer).value.round < r == Opened(t, answer).value.status.currentRound
    else true
  }

  predicate Sees(s: BuilderState, a: BuilderAction, r: int, status: Status) {
    a.Turn? && Explains(s.t, AnswerTo(s.h, Call(s.t), a.luck), r, status)
  }

  ghost predicate Seen(acts: seq<BuilderAction>, r: int, status: Status) {
    exists i | 0 <= i < |acts| :: Sees(Exec(acts[..i]), acts[i], r, status)
  }

  ghost predicate Backed(acts: seq<BuilderAction>, c: CommonStatus) {
    c.status != Blank ==> Seen(acts, c.currentRound, c.status)
  }

  /** Every stored version and the reconcile in flight owe their status to an explanation. */
  ghost predicate AllBacked(acts: seq<BuilderAction>, s: BuilderState) {
    && (forall i | 0 <= i < |s.h| && s.h[i].Some? :: Backed(acts, s.h[i].value.status))
    && (!s.t.Idle? ==> Backed(acts, s.t.mem.status))
  }

  predicate SameMark(c: CommonStatus, c': CommonStatus) {
    c.status == c'.status && c.currentRound == c'.currentRound
  }

  /** The status that a reconcile has in memory is that of the answer or its own, if the answer does not
      explain it. */
  lemma StatusComesFrom(t: BuilderThread, r: BuilderAnswer)
    ensures var t' := Resume(t, r);
            !t'.Idle? && t'.mem.status.status != Blank ==>
              || (!t.Idle? && SameMark(t'.mem.status, t.mem.status))
              || (t.Idle? && r.Got? && SameMark(t'.mem.status, r.builder.status))
              || Explains(t, r, t'.mem.status.currentRound, t'.mem.status.status)
  {
    if t.Watch? && r.PodsSeen? {
      assert r == PodsSeen(r.pods);
      assert r.pods == None || r.pods == Some(r.pods.value);
    }
  }

  lemma SeenStays(acts: seq<BuilderAction>, a: BuilderAction, r: int, status: Status)
    ensures Seen(acts, r, status) ==> Seen(acts + [a], r, status)
    ensures Sees(Exec(acts), a, r, status) ==> Seen(acts + [a], r, status)
  {
    var more := acts + [a];
    if Seen(acts, r, status) {
      var i :| 0 <= i < |acts| && Sees(Exec(acts[..i]), acts[i], r, status);
      assert more[..i] == acts[..i] && more[i] == acts[i];
    }
    if Sees(Exec(acts), a, r, status) {
      assert more[..|acts|] == acts && more[|acts|] == a;
    }
  }

  lemma ThreadBacked(acts: seq<BuilderAction>, luck: BuilderLuck)
    requires AllBacked(acts, Exec(acts))
    ensures var t := Apply(Exec(acts), Turn(luck)).t; !t.Idle? ==> Backed(acts + [Turn(luck)], t.mem.status)
  {
    var s, a := Exec(acts), Turn(luck);
    var r := AnswerTo(s.h, Call(s.t), luck);
    var t' := Resume(s.t, r);
    StatusComesFrom(s.t, r);
    if !t'.Idle? {
      SeenStays(acts, a, t'.mem.status.currentRound, t'.mem.status.status);
      assert s.t.Idle? && r.Got? ==> r.ver < |s.h| && s.h[r.ver] == Some(r.builder);
    }
  }

  /** The version an action adds, if any, has a status from the version before it, from the reconcile that
      wrote it, or is blank. */
  lemma NewVersion(s: BuilderState, a: BuilderAction)
    ensures var h, h' := s.h, Apply(s, a).h;
            && (h' == h || h' == h + [Latest(h')])
            && (h' != h && Latest(h').Some? ==>
                  || Latest(h').value.status.status == Blank
                  || (Latest(h).Some? && Latest(h').value.status == Latest(h).value.status)
                  || (!s.t.Idle? && Latest(h').value.status == s.t.mem.status))
  {
  }

  lemma VersionsBacked(acts: seq<BuilderAction>, a: BuilderAction)
    requires AllBacked(acts, Exec(acts))
    ensures var h' := Apply(Exec(acts), a).h;
            forall i | 0 <= i < |h'| && h'[i].Some? :: Backed(acts + [a], h'[i].value.status)
  {
    var s, h' := Exec(acts), Apply(Exec(acts), a).h;
    NewVersion(s, a);
    forall i | 0 <= i < |h'| && h'[i].Some? ensures Backed(acts + [a], h'[i].value.status) {
      SeenStays(acts, a, h'[i].value.status.currentRound, h'[i].value.status.status);
      if i < |s.h| {
        assert s.h[i] == h'[i] && Backed(acts, s.h[i].value.status);
      } else if Latest(s.h).Some? {
        assert Backed(acts, s.h[|s.h| - 1].value.status);
      }
    }
  }

  lemma StepBacked(acts: seq<BuilderAction>, a: BuilderAction)
    requires AllBacked(acts, Exec(acts))
    ensures AllBacked(acts + [a], Apply(Exec(acts), a))
  {
    VersionsBacked(acts, a);
    var t := Exec(acts).t;
    if a.Turn? {
      ThreadBacked(acts, a.luck);
    } else if !t.Idle? {
      SeenStays(acts, a, t.mem.status.currentRound, t.mem.status.status);
    }
  }

  lemma {:induction false} RunBacked(acts: seq<BuilderAction>)
    ensures AllBacked(acts, Exec(acts))
    decreases |acts|
  {
    if acts != [] {
      var before, a := acts[..|acts| - 1], acts[|acts| - 1];
      RunBacked(before);
      StepBacked(before, a);
      assert acts == before + [a];
    }
  }

  /** A builder stored in round `r` with a status had, earlier in the run, a reconcile that was given the
      explanation while it worked on round `r`: a hook that succeeded; a pod that ran, or a hook that failed;
      a pod that had failed, or a failed call; no pod, a pending one, no job yet, or a cleanup that went well;
      or a spec that asks for an earlier round. */
  lemma BuilderStatusSeen(acts: seq<BuilderAction>)
    requires Latest(Exec(acts).h).Some? && Latest(Exec(acts).h).value.status.status != Blank
    ensures var c := Latest(Exec(acts).h).value.status; Seen(acts, c.currentRound, c.status)
  {
    RunBacked(acts);
    LatestBacked(acts, Exec(acts));
  }

  lemma LatestBacked(acts: seq<BuilderAction>, s: BuilderState)
    requires AllBacked(acts, s) && Latest(s.h).Some?
    ensures Backed(acts, Latest(s.h).value.status)
  {
    assert Backed(acts, s.h[|s.h| - 1].value.status);
  }
}
