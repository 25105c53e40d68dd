/**
  Record and replay: a run is its choice list.  Feeding the list a run recorded
  back through the scripted policy gives the same run; any other list gives a
  legal one; and trailing FIFO choices are what an exhausted list does anyway.
*/
module Replay {
  import opened Helpers
  import opened Loop
  import Shrink

  /** The scripted policy's answer at a step with `n` callbacks ready: clamped, and FIFO past the end. */
  function Answer(script: seq<nat>, step: nat, n: nat): nat
    requires n > 0
  {
    if step >= |script| then 0
    else if script[step] >= n then n - 1
    else script[step]
  }

  /** Did the script stop describing the run at this step? */
  predicate Departs(script: seq<nat>, step: nat, n: nat) {
    step >= |script| || script[step] >= n
  }

  ghost predicate IsReplay(work: Workload, boot: seq<Action>, script: seq<nat>, r: Trail) {
    && IsRun(work, boot, r)
    && forall i :: 0 <= i < |r.picks| ==> Scripted(script, i, r.states[i], r.picks[i])
  }

  ghost predicate Scripted(script: seq<nat>, i: nat, s: State, pick: nat) {
    var n := |Prepared(s).ready|;
    n > 0 && pick == Answer(script, i, n)
  }

  /** The first step at which a replay departed from its script. */
  ghost function DivergedAt(script: seq<nat>, r: Trail, k: nat): Option<nat>
    requires k <= |r.picks| < |r.states|
  {
    if k == 0 then None
    else if DivergedAt(script, r, k - 1).Some? then DivergedAt(script, r, k - 1)
    else if Departs(script, k - 1, |Prepared(r.states[k - 1]).ready|) then Some(k - 1)
    else None
  }

  // ------------------------------------------------------------------
  // Replay
  // ------------------------------------------------------------------

  /** A script leaves nothing open: two replays of it agree step for step. */
  lemma {:induction false} ReplayDetermined(work: Workload, boot: seq<Action>, script: seq<nat>, a: Trail, b: Trail, k: nat)
    requires IsReplay(work, boot, script, a) && IsReplay(work, boot, script, b)
    requires k <= |a.picks| && k <= |b.picks|
    ensures a.states[..k + 1] == b.states[..k + 1] && a.picks[..k] == b.picks[..k]
  {
    hide Step, Prepared;
    if k > 0 {
      ReplayDetermined(work, boot, script, a, b, k - 1);
      var s := a.states[k - 1];
      assert s == a.states[..k][k - 1] == b.states[..k][k - 1] == b.states[k - 1];
      assert Scripted(script, k - 1, s, a.picks[k - 1]) && Scripted(script, k - 1, s, b.picks[k - 1]);
      assert Moves(work, s, a.picks[k - 1], a.states[k]) && Moves(work, s, b.picks[k - 1], b.states[k]);
      assert a.states[..k + 1] == a.states[..k] + [a.states[k]];
      assert b.states[..k + 1] == b.states[..k] + [b.states[k]];
      assert a.picks[..k] == a.picks[..k - 1] + [a.picks[k - 1]];
      assert b.picks[..k] == b.picks[..k - 1] + [b.picks[k - 1]];
    }
  }

  /** A run of any policy is the replay of the choices it recorded, and that replay never diverges. */
  lemma RecordedReplays(work: Workload, boot: seq<Action>, r: Trail)
    requires IsRun(work, boot, r)
    ensures IsReplay(work, boot, r.states[|r.picks|].choices, r)
    ensures DivergedAt(r.states[|r.picks|].choices, r, |r.picks|) == None
  {
    hide Step, Prepared;
    RunKeeps(work, boot, r, |r.picks|);
    assert r.picks[..|r.picks|] == r.picks;
    forall i | 0 <= i < |r.picks| ensures Scripted(r.picks, i, r.states[i], r.picks[i]) {
      assert Moves(work, r.states[i], r.picks[i], r.states[i + 1]);
    }
    NeverDeparts(work, boot, r, |r.picks|);
  }

  lemma {:induction false} NeverDeparts(work: Workload, boot: seq<Action>, r: Trail, k: nat)
    requires IsRun(work, boot, r) && k <= |r.picks|
    ensures DivergedAt(r.picks, r, k) == None
  {
    hide Step, Prepared;
    if k > 0 {
      NeverDeparts(work, boot, r, k - 1);
      assert Moves(work, r.states[k - 1], r.picks[k - 1], r.states[k]);
    }
  }

  /** Record, then replay: whatever policy made the run, replaying its recording for as many
      steps gives every state and every trace event again. */
  lemma RecordReplay(work: Workload, boot: seq<Action>, r: Trail, again: Trail)
    requires IsRun(work, boot, r)
    requires IsReplay(work, boot, r.states[|r.picks|].choices, again) && |again.picks| == |r.picks|
    ensures again == r && DivergedAt(r.states[|r.picks|].choices, again, |again.picks|) == None
  {
    hide Step, Prepared, DivergedAt;
    RecordedReplays(work, boot, r);
    ReplayDetermined(work, boot, r.states[|r.picks|].choices, r, again, |r.picks|);
    assert r.states[..|r.picks| + 1] == r.states && again.states[..|r.picks| + 1] == again.states;
    assert r.picks[..|r.picks|] == r.picks && again.picks[..|r.picks|] == again.picks;
  }

  /** Any list at all replays as a legal run, for as long as there is anything to run. */
  lemma {:induction false} EditedReplays(work: Workload, boot: seq<Action>, script: seq<nat>, n: nat) returns (r: Trail)
    ensures IsReplay(work, boot, script, r) && |r.picks| <= n
    ensures |r.picks| < n ==> Prepared(r.states[|r.picks|]).ready == []
  {
    hide Step, Prepared;
    if n == 0 {
      r := Trail([PerformAll(START, boot)], []);
    } else {
      r := EditedReplays(work, boot, script, n - 1);
      var s := r.states[|r.picks|];
      var ready := |Prepared(s).ready|;
      if |r.picks| == n - 1 && ready > 0 {
        r := Extended(work, boot, script, r, Answer(script, n - 1, ready));
      }
    }
  }

  lemma Extended(work: Workload, boot: seq<Action>, script: seq<nat>, r: Trail, pick: nat) returns (q: Trail)
    requires IsReplay(work, boot, script, r) && Scripted(script, |r.picks|, r.states[|r.picks|], pick)
    ensures IsReplay(work, boot, script, q)
    ensures q == Trail(r.states + [Step(work, r.states[|r.picks|], pick)], r.picks + [pick])
  {
    hide Step, Prepared;
    var s := r.states[|r.picks|];
    q := Trail(r.states + [Step(work, s, pick)], r.picks + [pick]);
    forall i | 0 <= i < |q.picks|
      ensures Moves(work, q.states[i], q.picks[i], q.states[i + 1]) && Scripted(script, i, q.states[i], q.picks[i])
    {
      if i < |r.picks| {
        assert Moves(work, r.states[i], r.picks[i], r.states[i + 1]) && Scripted(script, i, r.states[i], r.picks[i]);
      }
    }
  }

  /** A replay reports no divergence exactly when its script was long enough and followed to the letter. */
  lemma {:induction false} DivergenceExact(work: Workload, boot: seq<Action>, script: seq<nat>, r: Trail, k: nat)
    requires IsReplay(work, boot, script, r) && k <= |r.picks|
    ensures DivergedAt(script, r, k) == None <==> k <= |script| && r.picks[..k] == script[..k]
  {
    hide Step, Prepared;
    if k > 0 {
      DivergenceExact(work, boot, script, r, k - 1);
      assert Scripted(script, k - 1, r.states[k - 1], r.picks[k - 1]);
      assert r.picks[..k] == r.picks[..k - 1] + [r.picks[k - 1]];
      if k <= |script| {
        assert script[..k] == script[..k - 1] + [script[k - 1]];
      }
    }
  }

  /** The script has a choice for the step, and the choice is there to make. */
  ghost predicate Follows(script: seq<nat>, r: Trail, i: nat) {
    i < |script| && i < |r.states| && script[i] < |Prepared(r.states[i]).ready|
  }

  /** The step remembered is the first whose choice the script did not make. */
  lemma {:induction false} DivergedFirst(script: seq<nat>, r: Trail, k: nat)
    requires k <= |r.picks| < |r.states|
    ensures var d := DivergedAt(script, r, k);
      && (d.None? ==> forall i: nat :: i < k ==> Follows(script, r, i))
      && (d.Some? ==> d.value < k && !Follows(script, r, d.value) && forall i: nat :: i < d.value ==> Follows(script, r, i))
  {
    hide Prepared;
    if k > 0 {
      DivergedFirst(script, r, k - 1);
    }
  }

  // ------------------------------------------------------------------
  // Trailing zeros
  // ------------------------------------------------------------------

  ghost predicate SameRuns(work: Workload, boot: seq<Action>, c: seq<nat>, d: seq<nat>) {
    forall r :: IsReplay(work, boot, c, r) <==> IsReplay(work, boot, d, r)
  }

  /** A trailing FIFO choice changes nothing about how a list replays. */
  lemma TrailingZero(work: Workload, boot: seq<Action>, c: seq<nat>)
    ensures SameRuns(work, boot, c + [0], c)
  {
    hide Step, Prepared, IsRun;
    forall r ensures IsReplay(work, boot, c + [0], r) <==> IsReplay(work, boot, c, r) {
      if IsRun(work, boot, r) {
        forall i, s, pick: nat | 0 <= i < |r.picks|
          ensures Scripted(c + [0], i, s, pick) <==> Scripted(c, i, s, pick)
        {
        }
      }
    }
  }

  /** An oracle that judges a list by how it replays cannot see trailing zeros, which is what
      makes trimming them off a shrunk schedule safe. */
  lemma ReplayOracleBlind(work: Workload, boot: seq<Action>, oracle: Shrink.Oracle)
    requires forall c, d :: SameRuns(work, boot, c, d) ==> oracle(c) == oracle(d)
    ensures Shrink.TrailingBlind(oracle)
  {
    hide SameRuns;
    forall c ensures oracle(c + [0]) == oracle(c) {
      TrailingZero(work, boot, c);
    }
  }
}
