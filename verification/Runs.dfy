/** Induction along a run: what its steps keep holds at every index. */
module Runs {

  ghost predicate Carried<S(!new)>(inv: S -> bool, states: seq<S>, j: nat)
    requires j + 1 < |states|
  {
    inv(states[j]) ==> inv(states[j + 1])
  }

  lemma {:induction false} Invariantly<S(!new)>(inv: S -> bool, states: seq<S>, i: nat)
    requires i < |states| && inv(states[0])
    requires forall j: nat :: j + 1 < |states| ==> Carried(inv, states, j)
    ensures inv(states[i])
    decreases i
  {
    if i > 0 {
      Invariantly(inv, states, i - 1);
      assert Carried(inv, states, i - 1);
    }
  }

  /** A step makes no work, and an act does some. */
  predicate FallsAt(work: seq<nat>, acts: seq<bool>, j: nat)
    requires |work| == |acts| + 1 && j < |acts|
  {
    work[j + 1] + (if acts[j] then 1 else 0) <= work[j]
  }

  /** How many of the first `i` steps are acts. */
  function Count(acts: seq<bool>, i: nat): nat
    requires i <= |acts|
  {
    if i == 0 then 0 else Count(acts, i - 1) + if acts[i - 1] then 1 else 0
  }

  lemma {:induction false} Falls(work: seq<nat>, acts: seq<bool>, i: nat)
    requires |work| == |acts| + 1 && i <= |acts|
    requires forall j: nat :: j < |acts| ==> FallsAt(work, acts, j)
    ensures Count(acts, i) + work[i] <= work[0]
    decreases i
  {
    if i > 0 {
      Falls(work, acts, i - 1);
      assert FallsAt(work, acts, i - 1);
    }
  }

  /** What is good stays good exactly until the next bad step. */
  predicate SwitchAt(good: seq<bool>, bad: seq<bool>, j: nat)
    requires |good| == |bad| + 1 && j < |bad|
  {
    good[j] ==> (good[j + 1] <==> !bad[j])
  }

  lemma {:induction false} GoodUntilBad(good: seq<bool>, bad: seq<bool>, i: nat)
    requires |good| == |bad| + 1 && i <= |bad| && good[0]
    requires forall j: nat :: j < |bad| ==> SwitchAt(good, bad, j)
    ensures (forall j: nat :: j <= i ==> good[j]) <==> (forall j: nat :: j < i ==> !bad[j])
    decreases i
  {
    if i > 0 {
      GoodUntilBad(good, bad, i - 1);
      assert SwitchAt(good, bad, i - 1);
    }
  }

  // ---- Windows ----

  ghost predicate Within(acts: seq<bool>, i: nat, k: nat) {
    exists j :: i <= j < i + k && j < |acts| && acts[j]
  }

  /** Among any `k` steps in a row that begin before all is done, one is an act. */
  ghost predicate FairActs(done: seq<bool>, acts: seq<bool>, k: nat)
    requires |done| == |acts| + 1
  {
    forall i: nat :: i + k <= |acts| && !done[i] ==> Within(acts, i, k)
  }

  /** Only an act gets it done. */
  predicate DoneByAct(done: seq<bool>, acts: seq<bool>, j: nat)
    requires |done| == |acts| + 1 && j < |acts|
  {
    !done[j] && done[j + 1] ==> acts[j]
  }

  lemma {:induction false} DoneMeansActed(done: seq<bool>, acts: seq<bool>, i: nat, j: nat)
    requires |done| == |acts| + 1 && i <= j <= |acts| && !done[i] && done[j]
    requires forall m: nat :: m < |acts| ==> DoneByAct(done, acts, m)
    ensures Within(acts, i, j - i)
    decreases j
  {
    assert DoneByAct(done, acts, j - 1);
    if done[j - 1] {
      DoneMeansActed(done, acts, i, j - 1);
      var m :| i <= m < j - 1 && m < |acts| && acts[m];
    }
  }

  /** An act comes among the first `h` steps, unless all is done or the schedule is shorter. */
  ghost predicate Soon(done: seq<bool>, acts: seq<bool>, h: nat)
    requires |done| == |acts| + 1
  {
    !done[0] && h <= |acts| ==> Within(acts, 0, h)
  }

  /** Schedules in a row: a short first part with an act in it, and a fair second part. */
  lemma RoundThenFair(done: seq<bool>, acts: seq<bool>, done': seq<bool>, acts': seq<bool>, h: nat)
    requires |done| == |acts| + 1 && |done'| == |acts'| + 1 && done[|acts|] == done'[0] && |acts| <= h
    requires forall m: nat :: m < |acts| ==> DoneByAct(done, acts, m)
    requires !done[0] ==> Within(acts, 0, |acts|)
    requires FairActs(done', acts', 2 * h) && Soon(done', acts', h)
    ensures FairActs(done + done'[1..], acts + acts', 2 * h) && Soon(done + done'[1..], acts + acts', h)
  {
    var all, alls := done + done'[1..], acts + acts';
    forall i: nat | i + 2 * h <= |alls| && !all[i] ensures Within(alls, i, 2 * h) {
      if i < |acts| {
        WindowInRound(done, acts, done', acts', h, i);
      } else {
        assert all[i] == done'[i - |acts|] && Within(acts', i - |acts|, 2 * h);
        var j :| i - |acts| <= j < i - |acts| + 2 * h && j < |acts'| && acts'[j];
        assert alls[|acts| + j];
      }
    }
    if !all[0] && h <= |alls| {
      assert all[0] == done[0];
      var j :| 0 <= j < |acts| && acts[j];
      assert alls[j];
    }
  }

  lemma WindowInRound(done: seq<bool>, acts: seq<bool>, done': seq<bool>, acts': seq<bool>, h: nat, i: nat)
    requires |done| == |acts| + 1 && |done'| == |acts'| + 1 && done[|acts|] == done'[0] && |acts| <= h
    requires forall m: nat :: m < |acts| ==> DoneByAct(done, acts, m)
    requires Soon(done', acts', h) && i < |acts| && i + 2 * h <= |acts| + |acts'| && !done[i]
    ensures Within(acts + acts', i, 2 * h)
  {
    if done[|acts|] {
      DoneMeansActed(done, acts, i, |acts|);
      var j :| i <= j < |acts| && acts[j];
      assert (acts + acts')[j];
    } else {
      var j :| 0 <= j < h && j < |acts'| && acts'[j];
      assert (acts + acts')[|acts| + j];
    }
  }
}
