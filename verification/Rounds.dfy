/** The round part of a status: how a round starts, and what the history list records. */
module Rounds {
  import opened Objects

  /** `CommonHistory` and `BackupState`. */
  function Backup(c: CommonStatus): CommonStatus {
    if c.currentRound == 0 then c
    else c.(history := c.history + [HistoryRecord(c.currentRound, c.status)])
  }

  /** The status a round starts with. */
  function StartRound(c: CommonStatus, round: int): CommonStatus {
    Backup(c).(status := Pending, currentRound := round)
  }

  predicate SameRound(a: CommonStatus, b: CommonStatus) {
    a.currentRound == b.currentRound && a.history == b.history
  }

  predicate Advances(a: CommonStatus, b: CommonStatus) {
    a.currentRound < b.currentRound && b.history == Backup(a).history
  }

  /** The history grew although the round did not advance. */
  predicate Stutters(a: CommonStatus, b: CommonStatus) {
    a.currentRound == b.currentRound && b.history == Backup(a).history && a.currentRound != 0
  }

  /** Successive versions of the status of one object, from its creation. */
  predicate Chain(c: seq<CommonStatus>) {
    && c != [] && c[0].currentRound == 0 && c[0].history == []
    && forall i | 0 <= i < |c| - 1 ::
         SameRound(c[i], c[i + 1]) || Advances(c[i], c[i + 1]) || Stutters(c[i], c[i + 1])
  }

  predicate HasStutter(c: seq<CommonStatus>) {
    exists i | 0 <= i < |c| - 1 :: Stutters(c[i], c[i + 1])
  }

  predicate StrictlyIncreasing(h: seq<HistoryRecord>) {
    forall k, l | 0 <= k < l < |h| :: h[k].round < h[l].round
  }

  predicate Recorded(h: seq<HistoryRecord>, round: int) {
    exists k | 0 <= k < |h| :: h[k].round == round
  }

  /** `round` was current in some version. */
  predicate WasCurrent(c: seq<CommonStatus>, round: int) {
    exists i | 0 <= i < |c| :: c[i].currentRound == round
  }

  /** The record keeps the round and status of the last version of a round. */
  predicate ClosesRound(c: seq<CommonStatus>, rec: HistoryRecord) {
    exists i | 0 <= i < |c| - 1 ::
      c[i].currentRound < c[i + 1].currentRound && rec == HistoryRecord(c[i].currentRound, c[i].status)
  }

  lemma {:induction false} ChainMonotone(c: seq<CommonStatus>, i: nat, j: nat)
    requires Chain(c) && i <= j < |c|
    ensures 0 <= c[i].currentRound <= c[j].currentRound
    ensures c[i].history <= c[j].history
    decreases j
  {
    if i < j {
      ChainMonotone(c, i, j - 1);
      assert SameRound(c[j - 1], c[j]) || Advances(c[j - 1], c[j]) || Stutters(c[j - 1], c[j]);
    } else if j > 0 {
      ChainMonotone(c, 0, j - 1);
      assert SameRound(c[j - 1], c[j]) || Advances(c[j - 1], c[j]) || Stutters(c[j - 1], c[j]);
    }
  }

  /** What the history records, step by step: the earlier non-zero rounds, and after a stutter also
      the current one. */
  lemma {:induction false} HistoryRounds(c: seq<CommonStatus>)
    requires Chain(c)
    ensures var last := c[|c| - 1];
            && (forall k | 0 <= k < |last.history| :: 0 < last.history[k].round <= last.currentRound)
            && (forall r | r != 0 && WasCurrent(c, r) && r < last.currentRound :: Recorded(last.history, r))
            && (forall r | Recorded(last.history, r) :: WasCurrent(c, r))
    decreases |c|
  {
    var n := |c| - 1;
    if n == 0 {
    } else {
      var d := c[..n];
      HistoryRounds(d);
      ChainMonotone(c, n - 1, n);
      var before, after := c[n - 1], c[n];
      assert d[|d| - 1] == before;
      assert SameRound(before, after) || Advances(before, after) || Stutters(before, after);
      assert forall k | 0 <= k < |before.history| :: after.history[k] == before.history[k];
      forall r | r != 0 && WasCurrent(c, r) && r < after.currentRound ensures Recorded(after.history, r) {
        var i :| 0 <= i < |c| && c[i].currentRound == r;
        ChainMonotone(c, i, n);
        assert i < n;
        assert d[i].currentRound == r;
        ChainMonotone(c, i, n - 1);
        if r < before.currentRound {
          assert Recorded(before.history, r);
        } else {
          assert after.history[|before.history|].round == r;
        }
      }
      forall r | Recorded(after.history, r) ensures WasCurrent(c, r) {
        var k :| 0 <= k < |after.history| && after.history[k].round == r;
        if k < |before.history| {
          assert Recorded(before.history, r);
          var i :| 0 <= i < |d| && d[i].currentRound == r;
          assert c[i].currentRound == r;
        } else {
          assert c[n - 1].currentRound == r;
        }
      }
    }
  }

  lemma StutterSnoc(c: seq<CommonStatus>)
    requires |c| > 1
    ensures HasStutter(c) <==> HasStutter(c[..|c| - 1]) || Stutters(c[|c| - 2], c[|c| - 1])
  {
    var d := c[..|c| - 1];
    if HasStutter(d) {
      var i :| 0 <= i < |d| - 1 && Stutters(d[i], d[i + 1]);
      assert Stutters(c[i], c[i + 1]);
    }
    if HasStutter(c) {
      var i :| 0 <= i < |c| - 1 && Stutters(c[i], c[i + 1]);
      assert i == |c| - 2 || (i < |d| - 1 && Stutters(d[i], d[i + 1]));
    }
  }

  /** A record out of order, or of a round that is not over. */
  predicate Spoiled(s: CommonStatus) {
    !StrictlyIncreasing(s.history) || Recorded(s.history, s.currentRound)
  }

  /** One step spoils the history exactly if it was spoiled or the step stutters. */
  lemma SpoiledStep(before: CommonStatus, after: CommonStatus)
    requires SameRound(before, after) || Advances(before, after) || Stutters(before, after)
    requires before.currentRound >= 0
    requires forall k | 0 <= k < |before.history| :: 0 < before.history[k].round <= before.currentRound
    ensures Spoiled(after) <==> Spoiled(before) || Stutters(before, after)
  {
    assert forall k | 0 <= k < |before.history| :: before.history[k].round > 0;
    if !StrictlyIncreasing(before.history) {
      var k, l :| 0 <= k < l < |before.history| && before.history[k].round >= before.history[l].round;
      assert after.history[k].round >= after.history[l].round;
    } else if Recorded(before.history, before.currentRound) {
      var k :| 0 <= k < |before.history| && before.history[k].round == before.currentRound;
      assert after.history[k] == before.history[k];
      if !SameRound(before, after) {
        assert after.history[|before.history|].round == after.history[k].round;
      }
    } else if Stutters(before, after) {
      assert after.history[|before.history|].round == after.currentRound;
    }
  }

  lemma {:induction false} SpoiledIffStutter(c: seq<CommonStatus>)
    requires Chain(c)
    ensures Spoiled(c[|c| - 1]) <==> HasStutter(c)
    decreases |c|
  {
    var n := |c| - 1;
    if n > 0 {
      SpoiledIffStutter(c[..n]);
      HistoryRounds(c[..n]);
      StutterSnoc(c);
      ChainMonotone(c, 0, n - 1);
      assert SameRound(c[n - 1], c[n]) || Advances(c[n - 1], c[n]) || Stutters(c[n - 1], c[n]);
      SpoiledStep(c[n - 1], c[n]);
    }
  }

  /** The records are the earlier non-zero rounds, in strictly increasing order, each once. */
  predicate Exact(c: seq<CommonStatus>)
    requires c != []
  {
    var last := c[|c| - 1];
    && StrictlyIncreasing(last.history)
    && (forall k | 0 <= k < |last.history| ::
          var r := last.history[k].round; r != 0 && r < last.currentRound && WasCurrent(c, r))
    && (forall i | 0 <= i < |c| ::
          var r := c[i].currentRound; r != 0 && r < last.currentRound ==> Recorded(last.history, r))
  }

  /** History is exact precisely when it never grew without the round advancing. */
  lemma HistoryExactIff(c: seq<CommonStatus>)
    requires Chain(c)
    ensures Exact(c) <==> !HasStutter(c)
  {
    SpoiledIffStutter(c);
    HistoryRounds(c);
    var last := c[|c| - 1];
    if !Spoiled(last) {
      forall k | 0 <= k < |last.history|
        ensures var r := last.history[k].round; r != 0 && r < last.currentRound && WasCurrent(c, r)
      {
        assert Recorded(last.history, last.history[k].round);
      }
      assert forall i | 0 <= i < |c| :: WasCurrent(c, c[i].currentRound);
    }
  }

  /** Each record of an exact history keeps the round and status of the last version of its round. */
  lemma {:induction false} RecordsCloseRounds(c: seq<CommonStatus>)
    requires Chain(c) && !HasStutter(c)
    ensures forall rec | rec in c[|c| - 1].history :: ClosesRound(c, rec)
    decreases |c|
  {
    var n := |c| - 1;
    if n > 0 {
      var d := c[..n];
      StutterSnoc(c);
      RecordsCloseRounds(d);
      var before, after := c[n - 1], c[n];
      assert SameRound(before, after) || Advances(before, after);
      forall rec | rec in after.history ensures ClosesRound(c, rec) {
        if rec in before.history {
          assert ClosesRound(d, rec);
          var i :| 0 <= i < |d| - 1 && d[i].currentRound < d[i + 1].currentRound
                   && rec == HistoryRecord(d[i].currentRound, d[i].status);
          assert c[i].currentRound < c[i + 1].currentRound;
        } else {
          assert c[n - 1].currentRound < c[n - 1 + 1].currentRound;
        }
      }
    }
  }
}
