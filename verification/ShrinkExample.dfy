/**
  A workload whose shrunk schedule is not minimal: at every step two callbacks are
  ready, whichever runs schedules another, and the run goes wrong in four of the
  sixteen orders its first four steps can take.  All-FIFO is one of the four, but the
  search never comes to try it.
*/
module ShrinkExample {
  import opened Loop
  import opened Replay
  import opened Shrink

  // ------------------------------------------------------------------
  // The workload
  // ------------------------------------------------------------------

  const BOOT: seq<Action> := [CallSoon("step", "h", "h"), CallSoon("step", "h", "h")]

  const WORK: Workload := (trace, item) => [CallSoon("step", "h", "h")]

  /** The orders in which the first four callbacks must not run. */
  const WRONG: set<seq<int>> := {[0, 1, 2, 3], [0, 2, 1, 3], [0, 2, 3, 4], [1, 2, 3, 4]}

  /** Does replaying the list run its first four steps in a wrong order? */
  ghost predicate GoesWrong(c: Choices) {
    exists r :: IsReplay(WORK, BOOT, c, r) && WrongAtFour(r)
  }

  ghost predicate WrongAtFour(r: Trail) {
    |r.picks| == 4 && |r.states| == 5 && Loop.Finished(r.states[4].trace) in WRONG
  }

  // ------------------------------------------------------------------
  // What it does
  // ------------------------------------------------------------------

  /** Callbacks a and b are ready, and n is the next number. */
  ghost predicate TwoReady(s: State, a: nat, b: nat, n: nat) {
    && s.ready == [Item(a, "step", "h"), Item(b, "step", "h")]
    && s.cancelled == {} && s.nextId == n
  }

  lemma StepTwo(s: State, a: nat, b: nat, n: nat, pick: nat)
    requires TwoReady(s, a, b, n) && pick < 2
    ensures |Prepared(s).ready| == 2
    ensures var t := Loop.Step(WORK, s, pick);
      && TwoReady(t, if pick == 0 then b else a, n, n + 1)
      && Loop.Finished(t.trace) == Loop.Finished(s.trace) + [if pick == 0 then a else b]
  {
    hide PerformAll, Perform, Loop.Finished, Sweep, Collect;
    var act := CallSoon("step", "h", "h");
    var p := Picked(s, pick);
    assert Prepared(s) == s;
    assert p.ready == [Item(if pick == 0 then b else a, "step", "h")];
    Logged(s.trace, Event(Run, s.now, s.ready[pick].id, "step", "h"));
    PerformTwo(p, act, act);
    OneMoreReady(p, Perform(p, act));
  }

  /** Which callbacks run, given which of two is picked each time. */
  function RunOut(a: nat, b: nat, n: nat, picks: seq<nat>): seq<int>
    decreases |picks|
  {
    if picks == [] then []
    else
      [if picks[0] == 0 then a else b]
      + RunOut(if picks[0] == 0 then b else a, n, n + 1, picks[1..])
  }

  /** What a list comes to over four steps with two callbacks ready. */
  function Effective(c: Choices): seq<nat> {
    [Answer(c, 0, 2), Answer(c, 1, 2), Answer(c, 2, 2), Answer(c, 3, 2)]
  }

  /** The oracle, computed. */
  predicate Wrong(c: Choices) {
    RunOut(0, 1, 2, Effective(c)) in WRONG
  }

  /** Scheduling one more callback: the next number is last in the queue, and nothing has finished by it. */
  lemma OneMoreReady(s: State, t: State)
    requires t == Perform(s, CallSoon("step", "h", "h"))
    ensures t.ready == s.ready + [Item(s.nextId, "step", "h")] && t.nextId == s.nextId + 1
    ensures t.cancelled == s.cancelled && Loop.Finished(t.trace) == Loop.Finished(s.trace)
  {
    Logged(s.trace, Event(Schedule, s.now, s.nextId, "step", "h"));
    hide Loop.Finished;
  }

  lemma PerformTwo(s: State, a: Action, b: Action)
    ensures PerformAll(s, [a]) == Perform(s, a)
    ensures PerformAll(s, [a, b]) == Perform(Perform(s, a), b)
  {
    hide Perform;
    assert [a, b][1..] == [b] && [b][1..] == [] && [a][1..] == [];
    assert PerformAll(Perform(s, a), [b]) == PerformAll(Perform(Perform(s, a), b), []);
  }

  lemma NothingRun()
    ensures Loop.Finished([]) == []
  {
  }

  lemma TwoMoreReady(s: State, t: State, a: Action)
    requires a == CallSoon("step", "h", "h") && t == PerformAll(s, [a, a])
    ensures t.ready == s.ready + [Item(s.nextId, "step", "h"), Item(s.nextId + 1, "step", "h")]
    ensures t.nextId == s.nextId + 2 && t.cancelled == s.cancelled && Loop.Finished(t.trace) == Loop.Finished(s.trace)
  {
    hide PerformAll, Perform, Loop.Finished;
    PerformTwo(s, a, a);
    OneMoreReady(s, Perform(s, a));
    OneMoreReady(Perform(s, a), t);
  }

  lemma Booted()
    ensures TwoReady(PerformAll(START, BOOT), 0, 1, 2) && Loop.Finished(PerformAll(START, BOOT).trace) == []
  {
    hide PerformAll, Loop.Finished;
    NothingRun();
    TwoMoreReady(START, PerformAll(START, BOOT), CallSoon("step", "h", "h"));
  }

  lemma RunsOne(c: Choices, r: Trail, i: nat, a: nat, b: nat, n: nat)
    requires IsReplay(WORK, BOOT, c, r) && |r.picks| == 4 && i < 4 && TwoReady(r.states[i], a, b, n)
    ensures |r.states| == 5
    ensures var pick := Effective(c)[i];
      && TwoReady(r.states[i + 1], if pick == 0 then b else a, n, n + 1)
      && Loop.Finished(r.states[i + 1].trace) == Loop.Finished(r.states[i].trace) + [if pick == 0 then a else b]
  {
    hide Loop.Step, Prepared, Loop.Finished, TwoReady, WORK, PerformAll;
    var s, pick := r.states[i], r.picks[i];
    assert Moves(WORK, s, pick, r.states[i + 1]) && Scripted(c, i, s, pick);
    StepTwo(s, a, b, n, 0);
    StepTwo(s, a, b, n, pick);
    assert pick == Effective(c)[i];
  }

  /** A replay from a state with two callbacks ready runs what the list picks. */
  lemma {:induction false} ReplayRuns(c: Choices, r: Trail, i: nat, a: nat, b: nat, n: nat)
    requires IsReplay(WORK, BOOT, c, r) && |r.picks| == 4 && i <= 4 && TwoReady(r.states[i], a, b, n)
    ensures Loop.Finished(r.states[4].trace) == Loop.Finished(r.states[i].trace) + RunOut(a, b, n, Effective(c)[i..])
    decreases 4 - i
  {
    hide Loop.Finished, TwoReady, IsReplay, WORK;
    if i < 4 {
      var pick := Effective(c)[i];
      RunsOne(c, r, i, a, b, n);
      var x, y := if pick == 0 then b else a, if pick == 0 then a else b;
      ReplayRuns(c, r, i + 1, x, n, n + 1);
      assert Effective(c)[i..][1..] == Effective(c)[i + 1..];
      assert RunOut(a, b, n, Effective(c)[i..]) == [y] + RunOut(x, n, n + 1, Effective(c)[i + 1..]);
    } else {
      assert Effective(c)[4..] == [];
    }
  }

  /** Four steps are always there to take. */
  lemma {:induction false} FourSteps(c: Choices, k: nat) returns (r: Trail, a: nat, b: nat, n: nat)
    requires k <= 4
    ensures IsReplay(WORK, BOOT, c, r) && |r.picks| == k && |r.states| == k + 1 && TwoReady(r.states[k], a, b, n)
  {
    hide Loop.Step, Prepared;
    if k == 0 {
      Booted();
      r, a, b, n := Trail([PerformAll(START, BOOT)], []), 0, 1, 2;
    } else {
      r, a, b, n := FourSteps(c, k - 1);
      var pick := Answer(c, k - 1, 2);
      StepTwo(r.states[k - 1], a, b, n, pick);
      r := Extended(WORK, BOOT, c, r, pick);
      a, b, n := if pick == 0 then b else a, n, n + 1;
    }
  }

  /** The computed oracle is the verdict of the replay, for every list. */
  lemma WrongIsReplayed(c: Choices)
    ensures Wrong(c) <==> GoesWrong(c)
  {
    hide IsRun, Loop.Finished, RunOut;
    Booted();
    assert Effective(c)[0..] == Effective(c);
    forall r | IsReplay(WORK, BOOT, c, r) && |r.picks| == 4
      ensures |r.states| == 5 && Loop.Finished(r.states[4].trace) == RunOut(0, 1, 2, Effective(c))
    {
      StartsBooted(c, r);
      ReplayRuns(c, r, 0, 0, 1, 2);
    }
    var r, a, b, n := FourSteps(c, 4);
    assert Wrong(c) ==> WrongAtFour(r);
  }

  lemma StartsBooted(c: Choices, r: Trail)
    requires IsReplay(WORK, BOOT, c, r)
    ensures |r.states| == |r.picks| + 1 && r.states[0] == PerformAll(START, BOOT)
  {
  }

  // ------------------------------------------------------------------
  // The search
  // ------------------------------------------------------------------

  lemma Outcomes()
    ensures Wrong([]) && !Wrong([1, 1]) && !Wrong([1, 1, 1]) && Wrong([1, 1, 1, 1])
    ensures !Wrong([0, 0, 1, 1]) && Wrong([0, 1, 1, 1]) && Wrong([0, 1, 0, 0]) && Wrong([0, 0])
  {
    RunFour(0, 0, 0, 0);
    RunFour(1, 1, 0, 0);
    RunFour(1, 1, 1, 0);
    RunFour(1, 1, 1, 1);
    RunFour(0, 0, 1, 1);
    RunFour(0, 1, 1, 1);
    RunFour(0, 1, 0, 0);
  }

  /** The four runs of a list, one by one. */
  lemma RunFour(p: nat, q: nat, v: nat, w: nat)
    ensures var a1, b1 := if p == 0 then 1 else 0, 2;
      var a2, b2 := if q == 0 then b1 else a1, 3;
      var a3, b3 := if v == 0 then b2 else a2, 4;
      RunOut(0, 1, 2, [p, q, v, w])
        == [if p == 0 then 0 else 1, if q == 0 then a1 else b1, if v == 0 then a2 else b2, if w == 0 then a3 else b3]
  {
    var a1, b1 := if p == 0 then 1 else 0, 2;
    var a2, b2 := if q == 0 then b1 else a1, 3;
    var a3, b3 := if v == 0 then b2 else a2, 4;
    var a4 := if w == 0 then b3 else a3;
    assert [w][1..] == [] && [v, w][1..] == [w] && [q, v, w][1..] == [v, w] && [p, q, v, w][1..] == [q, v, w];
    assert RunOut(a4, 5, 6, []) == [];
    assert RunOut(a3, b3, 5, [w]) == [if w == 0 then a3 else b3] + RunOut(a4, 5, 6, []);
    assert RunOut(a2, b2, 4, [v, w]) == [if v == 0 then a2 else b2] + RunOut(a3, b3, 5, [w]);
    assert RunOut(a1, b1, 3, [q, v, w]) == [if q == 0 then a1 else b1] + RunOut(a2, b2, 4, [v, w]);
  }

  lemma BlindToTrailing()
    ensures TrailingBlind(Wrong)
  {
    hide RunOut;
    forall c ensures Wrong(c + [0]) == Wrong(c) {
      assert Effective(c + [0]) == Effective(c);
    }
  }

  /** On four recorded choices the finished search keeps one step, and resetting it still goes wrong. */
  lemma OneStepTooMany()
    ensures TrailingBlind(Wrong) && (forall c :: Wrong(c) <==> GoesWrong(c)) && Wrong([1, 1, 1, 1])
    ensures Shrink.Finished(Wrong, [1, 1, 1, 1]) == [0, 1] && !Irreducible(Wrong, [0, 1])
  {
    hide PrefixFrom, FifoFrom, DdminFrom, Candidate, Wrong, GoesWrong;
    var recorded: Choices := [1, 1, 1, 1];
    BlindToTrailing();
    forall c ensures Wrong(c) <==> GoesWrong(c) {
      WrongIsReplayed(c);
    }
    Outcomes();
    PrefixSearch(recorded);
    FifoSearch(recorded);
    DdminSearch(recorded);
    var kept: Choices := [0, 1];
    assert kept[1 := 0] == [0, 0] && kept[1] != 0;
  }

  lemma PrefixSearch(recorded: Choices)
    requires recorded == [1, 1, 1, 1]
    ensures PrefixFrom(Wrong, recorded, 0, 4) == 4
  {
    hide Wrong;
    Outcomes();
    assert recorded[..2] == [1, 1] && recorded[..3] == [1, 1, 1];
    assert PrefixFrom(Wrong, recorded, 4, 4) == 4;
    assert PrefixFrom(Wrong, recorded, 3, 4) == 4;
  }

  lemma FifoSearch(recorded: Choices)
    requires recorded == [1, 1, 1, 1]
    ensures FifoFrom(Wrong, recorded, 4, 0, 4) == 1
  {
    hide Wrong;
    Outcomes();
    SpanIs(2, 4);
    SpanIs(1, 4);
    assert Candidate(recorded, 4, Elems(Span(2, 4))) == [0, 0, 1, 1];
    assert Candidate(recorded, 4, Elems(Span(1, 4))) == [0, 1, 1, 1];
    assert FifoFrom(Wrong, recorded, 4, 1, 1) == 1;
    assert FifoFrom(Wrong, recorded, 4, 0, 1) == 1;
  }

  lemma DdminSearch(recorded: Choices)
    requires recorded == [1, 1, 1, 1]
    ensures Steps(Span(1, 4), 4) && DdminFrom(Wrong, recorded, 4, Span(1, 4), 2) == [1]
    ensures Trimmed(Candidate(recorded, 4, Elems([1]))) == [0, 1]
  {
    hide Wrong;
    Outcomes();
    SpanIs(1, 4);
    assert Span(1, 4) == [1, 2, 3];
    assert Candidate(recorded, 4, Elems([1])) == [0, 1, 0, 0];
    TrimTwo();
    FirstChunk();
    var kept: seq<nat> := [1, 2, 3];
    var chunks := Chunks(kept, 2, 0);
    assert FirstFailing(Wrong, recorded, 4, chunks) == Found([1]);
    hide Candidate, FirstFailing, Trimmed, Chunks;
    assert Steps([1], 4) && DdminFrom(Wrong, recorded, 4, [1], 2) == [1];
    assert DdminFrom(Wrong, recorded, 4, kept, 2) == DdminFrom(Wrong, recorded, 4, [1], 2);
  }

  lemma TrimTwo()
    ensures Trimmed([0, 1, 0, 0]) == [0, 1]
  {
    var c: Choices := [0, 1, 0, 0];
    assert c[..3] == [0, 1, 0] && c[..3][..2] == [0, 1] && c[..3][..2][..1] == [0] && c[..3][..2][..1][..0] == [];
    assert Steered([]) == [] && Steered([0]) == [] && Steered([0, 1]) == [1] && Steered([0, 1, 0]) == [1] && Steered(c) == [1];
    assert c[..2] == [0, 1];
  }

  lemma FirstChunk()
    ensures var chunks := Chunks([1, 2, 3], 2, 0); |chunks| > 0 && chunks[0] == [1]
  {
    assert Cut(0, 3, 2) == 0 && Cut(1, 3, 2) == 1;
    assert [1, 2, 3][0..1] == [1];
  }
}
