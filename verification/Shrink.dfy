/**
  The schedule shrinker: three passes that put back as much FIFO order as they
  can while an oracle still reports the failure.  The oracle is any function of
  the choice list; no pass relies on longer prefixes or larger selections failing
  whenever smaller ones do.
*/
module Shrink {
  import opened Helpers

  /** One choice per step; 0 runs the callback that was scheduled first. */
  type Choices = seq<nat>

  /** Does replaying this list raise the failure that is being shrunk? */
  type Oracle = Choices -> bool

  // ------------------------------------------------------------------
  // Ranking candidates
  // ------------------------------------------------------------------

  /** How many steps hold a choice of their own. */
  function Weight(c: Choices): nat {
    if c == [] then 0 else Weight(c[..|c| - 1]) + if c[|c| - 1] != 0 then 1 else 0
  }

  predicate RankLess(a: Choices, b: Choices) {
    Weight(a) < Weight(b) || (Weight(a) == Weight(b) && |a| < |b|)
  }

  /** The weight of a list is the number of its steps that are not FIFO. */
  lemma {:induction false} WeightCounts(c: Choices)
    ensures Weight(c) == |set i | 0 <= i < |c| && c[i] != 0|
  {
    if c != [] {
      var front := c[..|c| - 1];
      WeightCounts(front);
      assert (set i | 0 <= i < |c| && c[i] != 0)
        == (set i | 0 <= i < |front| && front[i] != 0) + if c[|c| - 1] != 0 then {|c| - 1} else {};
    }
  }

  /** `a` is `b` cut short, with some of its steps handed back to FIFO. */
  ghost predicate Reduces(a: Choices, b: Choices) {
    |a| <= |b| && forall i :: 0 <= i < |a| ==> a[i] == b[i] || a[i] == 0
  }

  lemma {:induction false} ReducesWeight(a: Choices, b: Choices)
    requires Reduces(a, b)
    ensures Weight(a) <= Weight(b)
    ensures |a| == |b| && Weight(a) == Weight(b) ==> a == b
    decreases |b|
  {
    if |a| < |b| {
      ReducesWeight(a, b[..|b| - 1]);
    } else if a != [] {
      var x, y := a[..|a| - 1], b[..|b| - 1];
      ReducesWeight(x, y);
      assert a == x + [a[|a| - 1]] && b == y + [b[|b| - 1]];
    }
  }

  /** A reduction that is not the same list ranks strictly better. */
  lemma ReductionRanks(a: Choices, b: Choices)
    requires Reduces(a, b)
    ensures a == b || RankLess(a, b)
  {
    ReducesWeight(a, b);
  }

  // ------------------------------------------------------------------
  // Candidates
  // ------------------------------------------------------------------

  /** A schedule of `length` steps: recorded choices at `kept`, FIFO elsewhere. */
  ghost function Candidate(recorded: Choices, length: nat, kept: set<nat>): Choices
    requires length <= |recorded|
  {
    seq(length, i requires 0 <= i < length => if i in kept then recorded[i] else 0)
  }

  ghost function Elems(s: seq<nat>): set<nat> {
    set x | x in s
  }

  /** The steps from `lo` up to `hi`. */
  function Span(lo: nat, hi: nat): seq<nat>
    requires lo <= hi
  {
    seq(hi - lo, i requires 0 <= i < hi - lo => lo + i)
  }

  /** Distinct steps, in order, all of them below `length`. */
  ghost predicate Steps(s: seq<nat>, length: nat) {
    && (forall i :: 0 <= i < |s| ==> s[i] < length)
    && (forall i, j :: 0 <= i < j < |s| ==> s[i] < s[j])
  }

  lemma FewerReduces(recorded: Choices, length: nat, few: set<nat>, many: set<nat>)
    requires length <= |recorded| && few <= many
    ensures Reduces(Candidate(recorded, length, few), Candidate(recorded, length, many))
  {
  }

  lemma PrefixReduces(recorded: Choices, a: nat, b: nat)
    requires a <= b <= |recorded|
    ensures Reduces(recorded[..a], recorded[..b])
  {
  }

  lemma KeepAll(recorded: Choices, length: nat)
    requires length <= |recorded|
    ensures Candidate(recorded, length, Elems(Span(0, length))) == recorded[..length]
  {
    SpanIs(0, length);
  }

  lemma SpanIs(lo: nat, hi: nat)
    requires lo <= hi
    ensures Steps(Span(lo, hi), hi)
    ensures forall x :: x in Elems(Span(lo, hi)) <==> lo <= x < hi
  {
    forall x | lo <= x < hi ensures x in Span(lo, hi) {
      assert Span(lo, hi)[x - lo] == x;
    }
  }

  method BuildCandidate(recorded: Choices, length: nat, kept: seq<nat>) returns (c: Choices)
    requires length <= |recorded| && Steps(kept, length)
    ensures c == Candidate(recorded, length, Elems(kept))
  {
    c := seq(length, _ => 0);
    for k := 0 to |kept|
      invariant c == Candidate(recorded, length, Elems(kept[..k]))
    {
      assert Elems(kept[..k + 1]) == Elems(kept[..k]) + {kept[k]};
      c := c[kept[k] := recorded[kept[k]]];
    }
    assert kept[..|kept|] == kept;
  }

  // ------------------------------------------------------------------
  // The search and its budget
  // ------------------------------------------------------------------

  datatype Verdict = Fails | Passes | OutOfBudget

  class Search {
    const oracle: Oracle
    const budget: nat
    var runs: nat
    var best: Option<Choices>
    /** Every candidate that failed, in the order they were run. */
    ghost var failures: seq<Choices>

    ghost predicate Valid()
      reads this
    {
      && runs <= budget
      && (best.Some? <==> failures != [])
      && (best.Some? ==> best.value in failures)
      && (forall c :: c in failures ==> oracle(c) && !RankLess(c, best.value))
    }

    /** A search that needs `cost` runs is done if the budget covers them, and else has spent it all. */
    ghost predicate Spent(done: bool, before: nat, cost: nat)
      reads this
    {
      && (done <==> before + cost <= budget)
      && runs == if done then before + cost else budget
    }

    /** The best candidate so far is the one that failed last. */
    ghost predicate Current(c: Choices)
      reads this
    {
      best == Some(c) && failures != [] && failures[|failures| - 1] == c
    }

    constructor (oracle: Oracle, budget: nat)
      ensures Valid() && this.oracle == oracle && this.budget == budget && best == None && runs == 0
    {
      this.oracle, this.budget, runs, best, failures := oracle, budget, 0, None, [];
    }

    method Probe(c: Choices) returns (v: Verdict)
      requires Valid()
      modifies this
      ensures Valid()
      ensures v == OutOfBudget <==> old(runs) >= budget
      ensures v == OutOfBudget ==> unchanged(this)
      ensures v != OutOfBudget ==> runs == old(runs) + 1 && (v == Fails <==> oracle(c))
      ensures v == Passes ==> best == old(best) && failures == old(failures)
      ensures v == Fails ==> failures == old(failures) + [c]
      ensures v == Fails && (old(best).None? || Reduces(c, old(best.value))) ==> best == Some(c)
    {
      if runs >= budget {
        return OutOfBudget;
      }
      runs := runs + 1;
      if !oracle(c) {
        return Passes;
      }
      if best.Some? && Reduces(c, best.value) {
        ReductionRanks(c, best.value);
      }
      if best.None? || RankLess(c, best.value) {
        best := Some(c);
      }
      failures := failures + [c];
      return Fails;
    }

    /** Fewest leading choices that still fail: one fewer was tried and did not. */
    method ShortestPrefix(recorded: Choices) returns (done: bool, length: nat)
      requires Valid() && Current(recorded)
      modifies this
      ensures Valid() && Spent(done, old(runs), PrefixRuns(oracle, recorded, 0, |recorded|))
      ensures length <= |recorded| && Current(recorded[..length])
      ensures done && length > 0 ==> !oracle(recorded[..length - 1])
      ensures done ==> length == PrefixFrom(oracle, recorded, 0, |recorded|)
    {
      hide Weight, RankLess, Reduces;
      var lo, hi: nat := 0, |recorded|;
      assert recorded[..|recorded|] == recorded;
      while lo < hi
        invariant lo <= hi <= |recorded|
        invariant Valid() && Current(recorded[..hi])
        invariant lo > 0 ==> !oracle(recorded[..lo - 1])
        invariant PrefixFrom(oracle, recorded, lo, hi) == PrefixFrom(oracle, recorded, 0, |recorded|)
        invariant runs + PrefixRuns(oracle, recorded, lo, hi) == old(runs) + PrefixRuns(oracle, recorded, 0, |recorded|)
      {
        var mid := (lo + hi) / 2;
        PrefixReduces(recorded, mid, hi);
        var v := Probe(recorded[..mid]);
        match v {
          case OutOfBudget => return false, hi;
          case Fails => hi := mid;
          case Passes => lo := mid + 1;
        }
      }
      return true, hi;
    }

    /** Most leading steps that can run FIFO: one more was tried and did not fail. */
    method FifoPrefix(recorded: Choices, length: nat) returns (done: bool, prefix: nat)
      requires Valid() && length <= |recorded| && Current(recorded[..length])
      modifies this
      ensures Valid() && Spent(done, old(runs), FifoRuns(oracle, recorded, length, 0, length))
      ensures prefix <= length && Current(Candidate(recorded, length, Elems(Span(prefix, length))))
      ensures done && prefix < length ==> !oracle(Candidate(recorded, length, Elems(Span(prefix + 1, length))))
      ensures done ==> prefix == FifoFrom(oracle, recorded, length, 0, length)
    {
      hide Candidate, Weight, RankLess, Reduces, Span;
      var lo: nat, hi: nat := 0, length;
      KeepAll(recorded, length);
      while lo < hi
        invariant lo <= hi <= length
        invariant Valid() && Current(Candidate(recorded, length, Elems(Span(lo, length))))
        invariant hi < length ==> !oracle(Candidate(recorded, length, Elems(Span(hi + 1, length))))
        invariant FifoFrom(oracle, recorded, length, lo, hi) == FifoFrom(oracle, recorded, length, 0, length)
        invariant runs + FifoRuns(oracle, recorded, length, lo, hi) == old(runs) + FifoRuns(oracle, recorded, length, 0, length)
      {
        var mid := (lo + hi + 1) / 2;
        SpanIs(lo, length);
        SpanIs(mid, length);
        var c := BuildCandidate(recorded, length, Span(mid, length));
        FewerReduces(recorded, length, Elems(Span(mid, length)), Elems(Span(lo, length)));
        var v := Probe(c);
        match v {
          case OutOfBudget => return false, lo;
          case Fails => lo := mid;
          case Passes => hi := mid - 1;
        }
      }
      return true, lo;
    }

    // ----------------------------------------------------------------
    // Delta debugging
    // ----------------------------------------------------------------

    method FirstFailingChunk(recorded: Choices, length: nat, kept: seq<nat>, chunks: seq<seq<nat>>)
      returns (r: Found)
      requires Valid() && length <= |recorded| && Current(Candidate(recorded, length, Elems(kept)))
      requires forall k :: 0 <= k < |chunks| ==>
        chunks[k] != [] && Steps(chunks[k], length) && Elems(chunks[k]) <= Elems(kept)
      modifies this
      ensures Valid() && Spent(r != Exhausted, old(runs), TryRuns(oracle, recorded, length, chunks))
      ensures Current(Candidate(recorded, length, Elems(if r.Found? then r.kept else kept)))
      ensures r.Found? ==> r.kept in chunks
      ensures r != Exhausted ==> r == FirstFailing(oracle, recorded, length, chunks)
      ensures r == NoneFails ==>
        forall k :: 0 <= k < |chunks| ==> !oracle(Candidate(recorded, length, Elems(chunks[k])))
    {
      hide Weight, RankLess, Reduces, Candidate, Elems;
      for i := 0 to |chunks|
        invariant Valid() && Current(Candidate(recorded, length, Elems(kept)))
        invariant forall k :: 0 <= k < i ==> !oracle(Candidate(recorded, length, Elems(chunks[k])))
        invariant FirstFailing(oracle, recorded, length, chunks[i..]) == FirstFailing(oracle, recorded, length, chunks)
        invariant runs + TryRuns(oracle, recorded, length, chunks[i..]) == old(runs) + TryRuns(oracle, recorded, length, chunks)
      {
        assert chunks[i..][1..] == chunks[i + 1..];
        var c := BuildCandidate(recorded, length, chunks[i]);
        FewerReduces(recorded, length, Elems(chunks[i]), Elems(kept));
        var v := Probe(c);
        match v {
          case OutOfBudget => return Exhausted;
          case Fails => return Found(chunks[i]);
          case Passes =>
        }
      }
      return NoneFails;
    }

    method FirstFailingComplement(recorded: Choices, length: nat, kept: seq<nat>, chunks: seq<seq<nat>>)
      returns (r: Found)
      requires Valid() && length <= |recorded| && Current(Candidate(recorded, length, Elems(kept)))
      requires Steps(kept, length)
      modifies this
      ensures Valid()
      ensures Spent(r != Exhausted, old(runs), TryRuns(oracle, recorded, length, Complementing(kept, chunks)))
      ensures Current(Candidate(recorded, length, Elems(if r.Found? then r.kept else kept)))
      ensures r.Found? ==> exists k :: 0 <= k < |chunks| && r.kept == Without(kept, chunks[k])
      ensures r != Exhausted ==> r == FirstFailing(oracle, recorded, length, Complementing(kept, chunks))
      ensures r == NoneFails ==> forall k :: 0 <= k < |chunks| ==>
        Without(kept, chunks[k]) == [] || !oracle(Candidate(recorded, length, Elems(Without(kept, chunks[k]))))
    {
      hide Weight, RankLess, Reduces, Candidate, Without, Elems, Steps, FirstFailing, TryRuns, Complementing;
      for i := 0 to |chunks|
        invariant Valid() && Current(Candidate(recorded, length, Elems(kept)))
        invariant forall k :: 0 <= k < i ==>
          Without(kept, chunks[k]) == [] || !oracle(Candidate(recorded, length, Elems(Without(kept, chunks[k]))))
        invariant FirstFailing(oracle, recorded, length, Complementing(kept, chunks[i..]))
               == FirstFailing(oracle, recorded, length, Complementing(kept, chunks))
        invariant runs + TryRuns(oracle, recorded, length, Complementing(kept, chunks[i..]))
               == old(runs) + TryRuns(oracle, recorded, length, Complementing(kept, chunks))
      {
        NextComplement(oracle, recorded, length, kept, chunks, i);
        var rest := Without(kept, chunks[i]);
        RestFits(kept, chunks[i], length);
        if rest != [] {
          var c := BuildCandidate(recorded, length, rest);
          FewerReduces(recorded, length, Elems(rest), Elems(kept));
          var v := Probe(c);
          match v {
            case OutOfBudget => return Exhausted;
            case Fails => return Found(rest);
            case Passes =>
          }
        }
      }
      assert chunks[|chunks|..] == [];
      NoMoreTries(oracle, recorded, length, kept);
      return NoneFails;
    }

    /** What is left still fails, and if more than one step is left, none of them can be let go. */
    method Ddmin(recorded: Choices, length: nat, positions: seq<nat>) returns (done: bool, kept: seq<nat>)
      requires Valid() && length <= |recorded| && Steps(positions, length)
      requires Current(Candidate(recorded, length, Elems(positions)))
      modifies this
      ensures Valid() && Spent(done, old(runs), DdminRuns(oracle, recorded, length, positions, 2))
      ensures Steps(kept, length) && Elems(kept) <= Elems(positions)
      ensures Current(Candidate(recorded, length, Elems(kept)))
      ensures done && |kept| > 1 ==> OneMinimal(oracle, recorded, length, Elems(kept))
      ensures done ==> kept == DdminFrom(oracle, recorded, length, positions, 2)
    {
      hide Candidate, OneMinimal, Joined, Without, Weight, RankLess, Reduces, Elems, Steps;
      hide DdminFrom, DdminRuns, FirstFailing, TryRuns, Complementing, Chunks;
      kept := positions;
      var granularity := 2;
      while |kept| > 1
        invariant Valid() && Steps(kept, length) && Elems(kept) <= Elems(positions)
        invariant Current(Candidate(recorded, length, Elems(kept))) && granularity >= 2
        invariant DdminFrom(oracle, recorded, length, kept, granularity) == DdminFrom(oracle, recorded, length, positions, 2)
        invariant runs + DdminRuns(oracle, recorded, length, kept, granularity)
               == old(runs) + DdminRuns(oracle, recorded, length, positions, 2)
        decreases |kept|, |kept| - granularity
      {
        var chunks := Split(kept, granularity);
        ChunksAre(kept, granularity, chunks, length);
        DdminTurn(oracle, recorded, length, kept, granularity, chunks);
        var r := FirstFailingChunk(recorded, length, kept, chunks);
        if r == Exhausted {
          return false, kept;
        } else if r.Found? {
          kept, granularity := r.kept, 2;
        } else {
          var rest := NoneFails;
          if granularity > 2 {
            rest := FirstFailingComplement(recorded, length, kept, chunks);
          }
          if rest == Exhausted {
            return false, kept;
          } else if rest.Found? {
            forall k | 0 <= k < |chunks| ensures Complements(kept, chunks[k], length) {
              WithoutIs(kept, chunks[k], length);
            }
            kept, granularity := rest.kept, Max(granularity - 1, 2);
          } else if granularity >= |kept| {
            SinglesDecide(oracle, recorded, length, kept, granularity, chunks);
            return true, kept;
          } else {
            granularity := Min(granularity * 2, |kept|);
          }
        }
      }
      DdminOver(oracle, recorded, length, kept, granularity);
      return true, kept;
    }

    /** The three passes, cheapest first; running out of budget in any of them ends the search. */
    method Minimize(recorded: Choices) returns (ghost length: nat, ghost kept: seq<nat>)
      requires Valid() && Current(recorded) && runs == 1
      modifies this
      ensures Valid() && length <= |recorded| && Steps(kept, length)
      ensures Current(Candidate(recorded, length, Elems(kept)))
      ensures runs == Min(Cost(oracle, recorded), budget)
      ensures Cost(oracle, recorded) <= budget && |kept| > 1 ==> OneMinimal(oracle, recorded, length, Elems(kept))
      ensures Cost(oracle, recorded) <= budget ==>
        Trimmed(Candidate(recorded, length, Elems(kept))) == Finished(oracle, recorded)
    {
      hide OneMinimal, Candidate, Trimmed;
      var done, short := ShortestPrefix(recorded);
      length, kept := short, Span(0, short);
      KeepAll(recorded, short);
      SpanIs(0, short);
      if !done {
        return;
      }
      var prefix;
      done, prefix := FifoPrefix(recorded, short);
      kept := Span(prefix, short);
      SpanIs(prefix, short);
      if !done {
        return;
      }
      done, kept := Ddmin(recorded, short, Span(prefix, short));
    }
  }

  // ------------------------------------------------------------------
  // What a search that is not cut short comes to
  // ------------------------------------------------------------------

  function PrefixFrom(oracle: Oracle, recorded: Choices, lo: nat, hi: nat): (length: nat)
    requires lo <= hi <= |recorded|
    ensures length <= |recorded|
    decreases hi - lo
  {
    if lo == hi then hi
    else
      var mid := (lo + hi) / 2;
      if oracle(recorded[..mid]) then PrefixFrom(oracle, recorded, lo, mid)
      else PrefixFrom(oracle, recorded, mid + 1, hi)
  }

  ghost function FifoFrom(oracle: Oracle, recorded: Choices, length: nat, lo: nat, hi: nat): (prefix: nat)
    requires length <= |recorded| && lo <= hi <= length
    ensures prefix <= length
    decreases hi - lo
  {
    if lo == hi then lo
    else
      var mid := (lo + hi + 1) / 2;
      if oracle(Candidate(recorded, length, Elems(Span(mid, length)))) then FifoFrom(oracle, recorded, length, mid, hi)
      else FifoFrom(oracle, recorded, length, lo, mid - 1)
  }

  /** How many candidates each search runs when nothing cuts it short. */
  function PrefixRuns(oracle: Oracle, recorded: Choices, lo: nat, hi: nat): nat
    requires lo <= hi <= |recorded|
    decreases hi - lo
  {
    if lo == hi then 0
    else
      var mid := (lo + hi) / 2;
      1 + if oracle(recorded[..mid]) then PrefixRuns(oracle, recorded, lo, mid)
          else PrefixRuns(oracle, recorded, mid + 1, hi)
  }

  ghost function FifoRuns(oracle: Oracle, recorded: Choices, length: nat, lo: nat, hi: nat): nat
    requires length <= |recorded| && lo <= hi <= length
    decreases hi - lo
  {
    if lo == hi then 0
    else
      var mid := (lo + hi + 1) / 2;
      1 + if oracle(Candidate(recorded, length, Elems(Span(mid, length)))) then FifoRuns(oracle, recorded, length, mid, hi)
          else FifoRuns(oracle, recorded, length, lo, mid - 1)
  }

  ghost function TryRuns(oracle: Oracle, recorded: Choices, length: nat, tries: seq<seq<nat>>): nat
    requires length <= |recorded|
  {
    if tries == [] then 0
    else if tries[0] == [] then TryRuns(oracle, recorded, length, tries[1..])
    else if oracle(Candidate(recorded, length, Elems(tries[0]))) then 1
    else 1 + TryRuns(oracle, recorded, length, tries[1..])
  }

  /** The first non-empty selection that fails. */
  ghost function FirstFailing(oracle: Oracle, recorded: Choices, length: nat, tries: seq<seq<nat>>): (r: Found)
    requires length <= |recorded|
    ensures r != Exhausted && (r.Found? ==> r.kept in tries)
  {
    if tries == [] then NoneFails
    else if tries[0] != [] && oracle(Candidate(recorded, length, Elems(tries[0]))) then Found(tries[0])
    else FirstFailing(oracle, recorded, length, tries[1..])
  }

  function Complementing(kept: seq<nat>, chunks: seq<seq<nat>>): seq<seq<nat>> {
    if chunks == [] then [] else [Without(kept, chunks[0])] + Complementing(kept, chunks[1..])
  }

  /** What one turn of the loop makes of the selection, and what it costs. */
  lemma DdminTurn(oracle: Oracle, recorded: Choices, length: nat, kept: seq<nat>, granularity: nat, chunks: seq<seq<nat>>)
    requires length <= |recorded| && Steps(kept, length) && granularity >= 2 && |kept| > 1
    requires chunks == Chunks(kept, granularity, 0)
    ensures var chunk, rests := FirstFailing(oracle, recorded, length, chunks), Complementing(kept, chunks);
      var rest := if granularity > 2 then FirstFailing(oracle, recorded, length, rests) else NoneFails;
      var spent := TryRuns(oracle, recorded, length, chunks);
      var more := if granularity > 2 then TryRuns(oracle, recorded, length, rests) else 0;
      var from, runs := DdminFrom(oracle, recorded, length, kept, granularity), DdminRuns(oracle, recorded, length, kept, granularity);
      if chunk.Found? then
        && Steps(chunk.kept, length) && from == DdminFrom(oracle, recorded, length, chunk.kept, 2)
        && runs == spent + DdminRuns(oracle, recorded, length, chunk.kept, 2)
      else if rest.Found? then
        var next := Max(granularity - 1, 2);
        && Steps(rest.kept, length) && from == DdminFrom(oracle, recorded, length, rest.kept, next)
        && runs == spent + more + DdminRuns(oracle, recorded, length, rest.kept, next)
      else if granularity >= |kept| then from == kept && runs == spent + more
      else
        var next := Min(granularity * 2, |kept|);
        && from == DdminFrom(oracle, recorded, length, kept, next)
        && runs == spent + more + DdminRuns(oracle, recorded, length, kept, next)
  {
    ChunksShrink(kept, granularity, 0, length);
    hide Chunks, Complementing, TryRuns, Candidate, Without;
  }

  lemma DdminOver(oracle: Oracle, recorded: Choices, length: nat, kept: seq<nat>, granularity: nat)
    requires length <= |recorded| && Steps(kept, length) && granularity >= 2 && |kept| <= 1
    ensures DdminFrom(oracle, recorded, length, kept, granularity) == kept
    ensures DdminRuns(oracle, recorded, length, kept, granularity) == 0
  {
  }

  lemma NextComplement(oracle: Oracle, recorded: Choices, length: nat, kept: seq<nat>, chunks: seq<seq<nat>>, i: nat)
    requires length <= |recorded| && i < |chunks|
    ensures var rest, now, later :=
        Without(kept, chunks[i]), Complementing(kept, chunks[i..]), Complementing(kept, chunks[i + 1..]);
      var fails := rest != [] && oracle(Candidate(recorded, length, Elems(rest)));
      && FirstFailing(oracle, recorded, length, now)
         == (if fails then Found(rest) else FirstFailing(oracle, recorded, length, later))
      && TryRuns(oracle, recorded, length, now)
         == (if fails then 1 else (if rest == [] then 0 else 1) + TryRuns(oracle, recorded, length, later))
  {
    hide Without, Candidate, Elems;
    assert chunks[i..][1..] == chunks[i + 1..];
    assert Complementing(kept, chunks[i..]) == [Without(kept, chunks[i])] + Complementing(kept, chunks[i + 1..]);
  }

  lemma NoMoreTries(oracle: Oracle, recorded: Choices, length: nat, kept: seq<nat>)
    requires length <= |recorded|
    ensures FirstFailing(oracle, recorded, length, Complementing(kept, [])) == NoneFails
    ensures TryRuns(oracle, recorded, length, Complementing(kept, [])) == 0
  {
  }

  ghost function DdminFrom(oracle: Oracle, recorded: Choices, length: nat, kept: seq<nat>, granularity: nat): seq<nat>
    requires length <= |recorded| && Steps(kept, length) && granularity >= 2
    decreases |kept|, |kept| - granularity
  {
    if |kept| <= 1 then kept
    else
      var chunks := Chunks(kept, granularity, 0);
      ChunksShrink(kept, granularity, 0, length);
      var chunk := FirstFailing(oracle, recorded, length, chunks);
      var rest := if granularity > 2 then FirstFailing(oracle, recorded, length, Complementing(kept, chunks)) else NoneFails;
      if chunk.Found? then DdminFrom(oracle, recorded, length, chunk.kept, 2)
      else if rest.Found? then DdminFrom(oracle, recorded, length, rest.kept, Max(granularity - 1, 2))
      else if granularity >= |kept| then kept
      else DdminFrom(oracle, recorded, length, kept, Min(granularity * 2, |kept|))
  }

  ghost function DdminRuns(oracle: Oracle, recorded: Choices, length: nat, kept: seq<nat>, granularity: nat): nat
    requires length <= |recorded| && Steps(kept, length) && granularity >= 2
    decreases |kept|, |kept| - granularity
  {
    if |kept| <= 1 then 0
    else
      var chunks := Chunks(kept, granularity, 0);
      ChunksShrink(kept, granularity, 0, length);
      var chunk := FirstFailing(oracle, recorded, length, chunks);
      var rests := Complementing(kept, chunks);
      var rest := if granularity > 2 then FirstFailing(oracle, recorded, length, rests) else NoneFails;
      TryRuns(oracle, recorded, length, chunks) +
      if chunk.Found? then DdminRuns(oracle, recorded, length, chunk.kept, 2)
      else
        (if granularity > 2 then TryRuns(oracle, recorded, length, rests) else 0) +
        if rest.Found? then DdminRuns(oracle, recorded, length, rest.kept, Max(granularity - 1, 2))
        else if granularity >= |kept| then 0
        else DdminRuns(oracle, recorded, length, kept, Min(granularity * 2, |kept|))
  }

  /** What the whole search costs in runs, the recording itself included. */
  ghost function Cost(oracle: Oracle, recorded: Choices): nat {
    var length := PrefixFrom(oracle, recorded, 0, |recorded|);
    var prefix := FifoFrom(oracle, recorded, length, 0, length);
    SpanIs(prefix, length);
    1 + PrefixRuns(oracle, recorded, 0, |recorded|) + FifoRuns(oracle, recorded, length, 0, length)
      + DdminRuns(oracle, recorded, length, Span(prefix, length), 2)
  }

  /** The schedule a finished search reports. */
  ghost function Finished(oracle: Oracle, recorded: Choices): Choices {
    var length := PrefixFrom(oracle, recorded, 0, |recorded|);
    var prefix := FifoFrom(oracle, recorded, length, 0, length);
    SpanIs(prefix, length);
    Trimmed(Candidate(recorded, length, Elems(DdminFrom(oracle, recorded, length, Span(prefix, length), 2))))
  }

  /** A selection with fewer steps. */
  ghost predicate Smaller(c: seq<nat>, kept: seq<nat>, length: nat) {
    Steps(c, length) && |c| < |kept|
  }

  /** Every chunk, and every chunk's complement, is a smaller selection. */
  lemma {:induction false} ChunksShrink(kept: seq<nat>, count: nat, i: nat, length: nat)
    requires Steps(kept, length) && |kept| > 1 && count >= 2 && i <= count
    ensures forall c :: c in Chunks(kept, count, i) ==> Smaller(c, kept, length)
    ensures forall c :: c in Complementing(kept, Chunks(kept, count, i)) ==> Smaller(c, kept, length)
    decreases count - i
  {
    hide Without, Largest, Cut, Div, Smaller, Steps;
    if i < count {
      ChunksShrink(kept, count, i + 1, length);
      ChunkShrinks(kept, count, i, length);
      var chunk := kept[Cut(i, |kept|, count)..Cut(i + 1, |kept|, count)];
      if chunk != [] {
        assert Chunks(kept, count, i)[1..] == Chunks(kept, count, i + 1);
      } else {
        assert Chunks(kept, count, i) == Chunks(kept, count, i + 1);
      }
    }
  }

  lemma ChunkShrinks(kept: seq<nat>, count: nat, i: nat, length: nat)
    requires Steps(kept, length) && |kept| > 1 && count >= 2 && i < count
    ensures Cut(i, |kept|, count) <= Cut(i + 1, |kept|, count) <= |kept|
    ensures var chunk := kept[Cut(i, |kept|, count)..Cut(i + 1, |kept|, count)];
      chunk != [] ==> Smaller(chunk, kept, length) && Smaller(Without(kept, chunk), kept, length)
  {
    hide Without, Largest, Cut, Div;
    CutSize(i, |kept|, count);
    LargestIs(|kept|, count);
    var chunk := kept[Cut(i, |kept|, count)..Cut(i + 1, |kept|, count)];
    WithoutIs(kept, chunk, length);
    if chunk != [] {
      assert chunk[0] in kept && chunk[0] in chunk;
    }
  }

  datatype Found = Exhausted | NoneFails | Found(kept: seq<nat>)

  /** Handing any one of these steps back to FIFO stops the failure. */
  ghost predicate OneMinimal(oracle: Oracle, recorded: Choices, length: nat, kept: set<nat>)
    requires length <= |recorded|
  {
    forall step :: step in kept ==> !oracle(Candidate(recorded, length, kept - {step}))
  }

  function Without(kept: seq<nat>, dropped: seq<nat>): seq<nat> {
    if kept == [] then []
    else Without(kept[..|kept| - 1], dropped) + if kept[|kept| - 1] in dropped then [] else [kept[|kept| - 1]]
  }

  ghost predicate Complements(kept: seq<nat>, dropped: seq<nat>, length: nat) {
    var rest := Without(kept, dropped);
    && Elems(rest) == Elems(kept) - Elems(dropped) && Steps(rest, length) && |rest| <= |kept|
    && ((exists x :: x in kept && x in dropped) ==> |rest| < |kept|)
  }

  lemma {:induction false} WithoutIs(kept: seq<nat>, dropped: seq<nat>, length: nat)
    requires Steps(kept, length)
    ensures Complements(kept, dropped, length)
  {
    if kept != [] {
      var front, last := kept[..|kept| - 1], kept[|kept| - 1];
      WithoutIs(front, dropped, length);
      assert kept == front + [last];
      ElemsAppend(front, last);
      var rest := Without(front, dropped);
      if last in dropped {
        assert Without(kept, dropped) == rest;
      } else {
        LastIsMost(front, rest, last, length);
        StepsAppend(rest, last, length);
        assert Without(kept, dropped) == rest + [last];
      }
    }
  }

  lemma LastIsMost(front: seq<nat>, rest: seq<nat>, last: nat, length: nat)
    requires Steps(front + [last], length) && Elems(rest) <= Elems(front)
    ensures forall i :: 0 <= i < |rest| ==> rest[i] < last
  {
    forall i | 0 <= i < |rest| ensures rest[i] < last {
      assert rest[i] in Elems(rest);
      var j :| 0 <= j < |front| && front[j] == rest[i];
      assert (front + [last])[j] < (front + [last])[|front|];
    }
  }

  lemma RestFits(kept: seq<nat>, dropped: seq<nat>, length: nat)
    requires Steps(kept, length)
    ensures Steps(Without(kept, dropped), length) && Elems(Without(kept, dropped)) <= Elems(kept)
  {
    WithoutIs(kept, dropped, length);
  }

  lemma StepsAppend(s: seq<nat>, x: nat, length: nat)
    requires Steps(s, length) && x < length && forall i :: 0 <= i < |s| ==> s[i] < x
    ensures Steps(s + [x], length) && Elems(s + [x]) == Elems(s) + {x}
  {
  }

  lemma ElemsAppend(s: seq<nat>, x: nat)
    ensures Elems(s + [x]) == Elems(s) + {x}
  {
  }

  // ------------------------------------------------------------------
  // Chunks
  // ------------------------------------------------------------------

  function Joined(chunks: seq<seq<nat>>): seq<nat> {
    if chunks == [] then [] else Joined(chunks[..|chunks| - 1]) + chunks[|chunks| - 1]
  }

  ghost predicate Slice(part: seq<nat>, whole: seq<nat>) {
    exists lo, hi :: 0 <= lo <= hi <= |whole| && part == whole[lo..hi]
  }

  function Div(a: nat, c: nat): nat
    requires c > 0
  {
    a / c
  }

  /** Where the i-th of `count` near-equal cuts of n steps begins. */
  function Cut(i: nat, n: nat, count: nat): nat
    requires count > 0
  {
    Div(i * n, count)
  }

  /** The size of the largest of `count` near-equal chunks of n steps. */
  function Largest(n: nat, count: nat): nat
    requires count > 0
  {
    Div(n + count - 1, count)
  }

  /** The non-empty chunks from the i-th on. */
  function Chunks(items: seq<nat>, count: nat, i: nat): seq<seq<nat>>
    requires 0 < count && i <= count
    decreases count - i
  {
    if i == count then []
    else
      CutSize(i, |items|, count);
      var chunk := items[Cut(i, |items|, count)..Cut(i + 1, |items|, count)];
      (if chunk != [] then [chunk] else []) + Chunks(items, count, i + 1)
  }

  /** Non-empty, near-equal cuts that put together again are the whole. */
  method Split(items: seq<nat>, count: nat) returns (chunks: seq<seq<nat>>)
    requires count > 0
    ensures chunks == Chunks(items, count, 0)
    ensures Joined(chunks) == items
    ensures forall k :: 0 <= k < |chunks| ==>
      chunks[k] != [] && Slice(chunks[k], items) && Div(|items|, count) <= |chunks[k]| <= Largest(|items|, count)
  {
    hide Cut, Largest, Div, Joined, Slice, Chunks;
    chunks := [];
    JoinedMore([], []);
    var n := |items|;
    CutEnds(n, count);
    for index := 0 to count
      invariant Cut(index, n, count) <= n
      invariant Joined(chunks) == items[..Cut(index, n, count)]
      invariant chunks + Chunks(items, count, index) == Chunks(items, count, 0)
      invariant forall k :: 0 <= k < |chunks| ==>
        chunks[k] != [] && Slice(chunks[k], items) && Div(n, count) <= |chunks[k]| <= Largest(n, count)
    {
      CutSize(index, n, count);
      ChunksNext(items, count, index);
      var chunk := items[Cut(index, n, count)..Cut(index + 1, n, count)];
      if chunk != [] {
        JoinedMore(chunks, chunk);
        chunks := chunks + [chunk];
      }
    }
    ChunksEnd(items, count);
  }

  lemma ChunksNext(items: seq<nat>, count: nat, i: nat)
    requires i < count
    ensures var n := |items|;
      && Cut(i, n, count) <= Cut(i + 1, n, count) <= n
      && var chunk := items[Cut(i, n, count)..Cut(i + 1, n, count)];
         && Slice(chunk, items)
         && Chunks(items, count, i) == (if chunk != [] then [chunk] else []) + Chunks(items, count, i + 1)
         && items[..Cut(i + 1, n, count)] == items[..Cut(i, n, count)] + chunk
  {
    hide Cut;
    CutSize(i, |items|, count);
  }

  lemma ChunksEnd(items: seq<nat>, count: nat)
    requires count > 0
    ensures Chunks(items, count, count) == []
  {
  }

  lemma JoinedMore(chunks: seq<seq<nat>>, chunk: seq<nat>)
    ensures Joined([]) == [] && Joined(chunks + [chunk]) == Joined(chunks) + chunk
  {
    assert (chunks + [chunk])[..|chunks|] == chunks;
  }

  lemma CutEnds(n: nat, c: nat)
    requires c > 0
    ensures Cut(0, n, c) == 0 && Cut(c, n, c) == n
  {
    hide Div;
    Divides(0, c);
    Divides(c * n, c);
    NotAbove(Div(0, c), c);
    Between(Div(c * n, c), n, c);
  }

  lemma CutSize(i: nat, n: nat, c: nat)
    requires c > 0 && i < c
    ensures Div(n, c) <= Cut(i + 1, n, c) - Cut(i, n, c) <= Largest(n, c)
    ensures Cut(i + 1, n, c) <= n
  {
    hide Div;
    StepSize(i * n, n, c);
    assert (i + 1) * n == i * n + n;
    Scaled(i + 1, c, n);
    AtMost((i + 1) * n, n, c);
  }

  lemma Scaled(a: nat, b: nat, n: nat)
    requires a <= b
    ensures a * n <= b * n
  {
  }

  lemma AtMost(m: nat, n: nat, c: nat)
    requires c > 0 && m <= c * n
    ensures Div(m, c) <= n
  {
    hide Div;
    Divides(m, c);
    assert (Div(m, c) - n) * c == Div(m, c) * c - c * n;
    NotAbove(Div(m, c) - n, c);
  }

  lemma StepSize(m: nat, n: nat, c: nat)
    requires c > 0
    ensures Div(n, c) <= Div(m + n, c) - Div(m, c) <= Div(n + c - 1, c)
  {
    hide Div;
    var p, s, d, u := Div(m, c), Div(m + n, c), Div(n, c), Div(n + c - 1, c);
    Divides(m, c);
    Divides(m + n, c);
    Divides(n, c);
    Divides(n + c - 1, c);
    assert (d - (s - p)) * c == d * c - s * c + p * c;
    NotAbove(d - (s - p), c);
    assert (s - p - u) * c == s * c - p * c - u * c;
    NotAbove(s - p - u, c);
  }

  lemma Divides(a: nat, c: nat)
    requires c > 0
    ensures Div(a, c) * c <= a < Div(a, c) * c + c
  {
    assert a == (a / c) * c + a % c;
  }

  lemma NotAbove(d: int, c: nat)
    requires d * c < c
    ensures d <= 0
  {
  }

  lemma Between(q: nat, n: nat, c: nat)
    requires c > 0 && q * c <= c * n < q * c + c
    ensures q == n
  {
    assert (n - q) * c == c * n - q * c && (q - n) * c == q * c - c * n;
    NotAbove(n - q, c);
    NotAbove(q - n, c);
  }

  /** Chunks of at least two are smaller than the whole, and enough chunks are single steps. */
  lemma LargestIs(n: nat, count: nat)
    requires n > 1 && count >= 2
    ensures Largest(n, count) < n && (count >= n ==> Largest(n, count) == 1)
  {
    hide Div;
    var l := Largest(n, count);
    Divides(n + count - 1, count);
    assert n * count - (n + count - 1) == (n - 1) * (count - 1);
    assert (n - 1) * (count - 1) >= 1 * 1;
    assert (l - n + 1) * count == l * count - n * count + count;
    NotAbove(l - n + 1, count);
    if count >= n {
      assert (l - 1) * count == l * count - count;
      NotAbove(l - 1, count);
    }
  }

  lemma ChunksAre(kept: seq<nat>, count: nat, chunks: seq<seq<nat>>, length: nat)
    requires Steps(kept, length) && |kept| > 1 && count >= 2
    requires forall k :: 0 <= k < |chunks| ==>
      chunks[k] != [] && Slice(chunks[k], kept) && |chunks[k]| <= Largest(|kept|, count)
    ensures forall k :: 0 <= k < |chunks| ==>
      && Steps(chunks[k], length) && Elems(chunks[k]) <= Elems(kept) && |chunks[k]| < |kept|
      && (exists x :: x in kept && x in chunks[k])
      && (count >= |kept| ==> |chunks[k]| == 1)
  {
    hide Largest;
    LargestIs(|kept|, count);
    forall k | 0 <= k < |chunks|
      ensures Steps(chunks[k], length) && Elems(chunks[k]) <= Elems(kept) && chunks[k][0] in kept
    {
      var lo, hi :| 0 <= lo <= hi <= |kept| && chunks[k] == kept[lo..hi];
    }
  }

  lemma {:induction false} InSomeChunk(chunks: seq<seq<nat>>, x: nat) returns (k: nat)
    requires x in Joined(chunks)
    ensures k < |chunks| && x in chunks[k]
  {
    k := |chunks| - 1;
    if x !in chunks[k] {
      k := InSomeChunk(chunks[..|chunks| - 1], x);
    }
  }

  /** Once the chunks are single steps, what their probes said is 1-minimality. */
  lemma SinglesDecide(oracle: Oracle, recorded: Choices, length: nat, kept: seq<nat>, count: nat, chunks: seq<seq<nat>>)
    requires length <= |recorded| && Steps(kept, length) && |kept| > 1 && count >= 2 && count >= |kept|
    requires Joined(chunks) == kept
    requires forall k :: 0 <= k < |chunks| ==>
      |chunks[k]| == 1 && !oracle(Candidate(recorded, length, Elems(chunks[k])))
    requires count > 2 ==> forall k :: 0 <= k < |chunks| ==>
      Without(kept, chunks[k]) == [] || !oracle(Candidate(recorded, length, Elems(Without(kept, chunks[k]))))
    ensures OneMinimal(oracle, recorded, length, Elems(kept))
  {
    hide Without, Candidate, Joined;
    forall step | step in kept ensures !oracle(Candidate(recorded, length, Elems(kept) - {step})) {
      var other := if kept[0] == step then kept[1] else kept[0];
      if count > 2 {
        var k := InSomeChunk(chunks, step);
        Single(chunks[k], step);
        WithoutIs(kept, chunks[k], length);
        assert other in Elems(Without(kept, chunks[k]));
      } else {
        var k := InSomeChunk(chunks, other);
        Single(chunks[k], other);
        assert Elems(kept) - {step} == {other};
      }
    }
  }

  lemma Single(chunk: seq<nat>, x: nat)
    requires |chunk| == 1 && x in chunk
    ensures Elems(chunk) == {x}
  {
  }

  // ------------------------------------------------------------------
  // The result
  // ------------------------------------------------------------------

  datatype Outcome =
    | BadBudget
    | NotReproduced
    | Shrunk(originalLen: nat, choices: Choices, fifoPrefix: nat, kept: seq<nat>, oracleRuns: nat)

  /** The steps that hold a choice of their own, in order. */
  function Steered(c: Choices): seq<nat> {
    if c == [] then []
    else Steered(c[..|c| - 1]) + if c[|c| - 1] != 0 then [|c| - 1] else []
  }

  lemma {:induction false} SteeredIs(c: Choices)
    ensures Steps(Steered(c), |c|)
    ensures forall i :: i in Steered(c) <==> 0 <= i < |c| && c[i] != 0
  {
    if c != [] {
      SteeredIs(c[..|c| - 1]);
    }
  }

  function Zeros(n: nat): Choices {
    seq(n, _ => 0)
  }

  /** A trailing FIFO choice makes no difference, since FIFO is what an exhausted list falls back to. */
  ghost predicate TrailingBlind(oracle: Oracle) {
    forall c :: oracle(c + [0]) == oracle(c)
  }

  lemma {:induction false} BlindToZeros(oracle: Oracle, c: Choices, n: nat)
    requires TrailingBlind(oracle)
    ensures oracle(c + Zeros(n)) == oracle(c)
  {
    if n == 0 {
      assert c + Zeros(0) == c;
    } else {
      BlindToZeros(oracle, c, n - 1);
      assert c + Zeros(n) == c + Zeros(n - 1) + [0];
    }
  }

  function Trimmed(best: Choices): Choices {
    var kept := Steered(best);
    SteeredIs(best);
    if kept != [] then best[..kept[|kept| - 1] + 1] else []
  }

  lemma TrimmedAt(best: Choices)
    ensures var kept := Steered(best);
      && (kept != [] ==> kept[|kept| - 1] < |best|)
      && Trimmed(best) == if kept != [] then best[..kept[|kept| - 1] + 1] else []
  {
    SteeredIs(best);
  }

  lemma StepsBound(s: seq<nat>, length: nat)
    requires Steps(s, length)
    ensures forall i :: i in s ==> i <= s[|s| - 1]
  {
  }

  lemma TrimmedIs(best: Choices)
    ensures var t := Trimmed(best);
      && |t| <= |best| && best == t + Zeros(|best| - |t|) && (t != [] ==> t[|t| - 1] != 0)
      && (forall i :: i in Steered(best) <==> 0 <= i < |t| && t[i] != 0) && Steps(Steered(best), |t|)
  {
    SteeredIs(best);
    var t, kept := Trimmed(best), Steered(best);
    hide Steered, Trimmed;
    assert t == if kept != [] then best[..kept[|kept| - 1] + 1] else [] by { TrimmedAt(best); }
    StepsBound(kept, |best|);
  }

  /** Resetting one step of the returned list is dropping it from ddmin's selection. */
  lemma ResetDrops(oracle: Oracle, recorded: Choices, length: nat, kept: set<nat>, step: nat)
    requires length <= |recorded| && TrailingBlind(oracle)
    requires var t := Trimmed(Candidate(recorded, length, kept)); step < |t| && t[step] != 0
    ensures step in kept
    ensures oracle(Trimmed(Candidate(recorded, length, kept))[step := 0])
      == oracle(Candidate(recorded, length, kept - {step}))
  {
    var best := Candidate(recorded, length, kept);
    var t := Trimmed(best);
    TrimmedIs(best);
    assert Candidate(recorded, length, kept - {step}) == best[step := 0] == t[step := 0] + Zeros(|best| - |t|);
    BlindToZeros(oracle, t[step := 0], |best| - |t|);
  }

  lemma NothingKept(oracle: Oracle, recorded: Choices, length: nat)
    requires length <= |recorded| && TrailingBlind(oracle)
    ensures oracle(Candidate(recorded, length, {})) == oracle([])
  {
    assert Candidate(recorded, length, {}) == [] + Zeros(length);
    BlindToZeros(oracle, [], length);
  }

  /** A selection of several steps, none of which can be dropped, holds no FIFO step. */
  lemma SeveralSteered(oracle: Oracle, recorded: Choices, length: nat, kept: seq<nat>)
    requires length <= |recorded| && Steps(kept, length) && |kept| > 1
    requires oracle(Candidate(recorded, length, Elems(kept)))
    requires OneMinimal(oracle, recorded, length, Elems(kept))
    ensures |Steered(Candidate(recorded, length, Elems(kept)))| > 1
  {
    var best := Candidate(recorded, length, Elems(kept));
    SteeredIs(best);
    forall p | p in kept ensures p in Steered(best) {
      assert best[p] == 0 ==> Candidate(recorded, length, Elems(kept) - {p}) == best;
    }
    assert kept[0] in Steered(best) && kept[1] in Steered(best);
  }

  /** Handing any single step that is left back to FIFO stops the failure. */
  ghost predicate Irreducible(oracle: Oracle, c: Choices) {
    forall step: nat :: step < |c| && c[step] != 0 ==> !oracle(c[step := 0])
  }

  /** The list fails, as it stands or with the FIFO choices that were trimmed off its end. */
  ghost predicate Reproduces(oracle: Oracle, c: Choices) {
    && (exists n: nat :: oracle(c + Zeros(n)))
    && (TrailingBlind(oracle) ==> oracle(c))
  }

  lemma Returned(oracle: Oracle, recorded: Choices, length: nat, kept: seq<nat>)
    requires length <= |recorded| && Steps(kept, length) && oracle(Candidate(recorded, length, Elems(kept)))
    ensures var t := Trimmed(Candidate(recorded, length, Elems(kept))); Reduces(t, recorded) && Reproduces(oracle, t)
  {
    hide Trimmed;
    var best := Candidate(recorded, length, Elems(kept));
    var t := Trimmed(best);
    TrimmedIs(best);
    assert t == best[..|t|];
    assert oracle(t + Zeros(|best| - |t|));
    if TrailingBlind(oracle) {
      BlindToZeros(oracle, t, |best| - |t|);
    }
  }

  /** What ddmin proved of its selection, said of the list that is returned. */
  lemma ReturnedMinimal(oracle: Oracle, recorded: Choices, length: nat, kept: seq<nat>)
    requires length <= |recorded| && Steps(kept, length) && oracle(Candidate(recorded, length, Elems(kept)))
    requires TrailingBlind(oracle) && (|kept| > 1 ==> OneMinimal(oracle, recorded, length, Elems(kept)))
    ensures var best := Candidate(recorded, length, Elems(kept));
      Irreducible(oracle, Trimmed(best)) <==> (|Steered(best)| == 1 ==> !oracle([]))
  {
    hide Trimmed, Candidate;
    var best := Candidate(recorded, length, Elems(kept));
    var t := Trimmed(best);
    TrimmedIs(best);
    forall step: nat | step < |t| && t[step] != 0
      ensures step in kept && oracle(t[step := 0]) == oracle(Candidate(recorded, length, Elems(kept) - {step}))
    {
      ResetDrops(oracle, recorded, length, Elems(kept), step);
    }
    if |kept| > 1 {
      SeveralSteered(oracle, recorded, length, kept);
    } else {
      NothingKept(oracle, recorded, length);
      forall step | step in kept ensures Elems(kept) - {step} == {} {
      }
      SteeredSize(best, kept, t);
    }
  }

  lemma StepsRise(s: seq<nat>, length: nat)
    requires Steps(s, length)
    ensures |s| > 1 ==> s[0] < s[1]
  {
  }

  lemma SteeredSize(best: Choices, kept: seq<nat>, t: Choices)
    requires Steps(Steered(best), |t|) && |kept| <= 1
    requires forall i :: i in Steered(best) <==> 0 <= i < |t| && t[i] != 0
    requires forall i :: i in Steered(best) ==> i in kept
    ensures |Steered(best)| == 1 <==> exists step: nat :: step < |t| && t[step] != 0
  {
    var s := Steered(best);
    forall i | 0 <= i < |s| ensures |kept| == 1 && s[i] == kept[0] {
      assert s[i] in s;
    }
    StepsRise(s, |t|);
    if |s| >= 1 {
      assert s[0] in s;
    }
  }

  method ShrinkSchedule(oracle: Oracle, recorded: Choices, budget: int) returns (r: Outcome)
    ensures r == BadBudget <==> budget < 1
    ensures r == NotReproduced <==> budget >= 1 && !oracle(recorded)
    ensures r.Shrunk? ==> Reduces(r.choices, recorded) && Reproduces(oracle, r.choices)
    ensures r.Shrunk? ==> r.oracleRuns == Min(Cost(oracle, recorded), budget)
    ensures r.Shrunk? && Cost(oracle, recorded) <= budget ==> r.choices == Finished(oracle, recorded)
    ensures r.Shrunk? && TrailingBlind(oracle) && Cost(oracle, recorded) <= budget ==>
      (Irreducible(oracle, r.choices) <==> (|r.kept| == 1 ==> !oracle([])))
    ensures r.Shrunk? && TrailingBlind(oracle) && !oracle([]) && Cost(oracle, recorded) <= budget ==>
      Irreducible(oracle, r.choices)
    ensures r.Shrunk? ==>
      && r.originalLen == |recorded|
      && Steps(r.kept, |r.choices|) && (forall i :: i in r.kept <==> 0 <= i < |r.choices| && r.choices[i] != 0)
      && (r.choices != [] ==> r.choices[|r.choices| - 1] != 0)
      && r.fifoPrefix == (if r.kept == [] then 0 else r.kept[0])
  {
    hide Reduces, Reproduces, Irreducible, OneMinimal, Candidate, RankLess, Weight, Trimmed, Steered, Finished, Cost;
    if budget < 1 {
      return BadBudget;
    }
    var search := new Search(oracle, budget);
    var v := search.Probe(recorded);
    if v != Fails {
      return NotReproduced;
    }
    ghost var length, kept := search.Minimize(recorded);
    var best := search.best.value;
    Returned(oracle, recorded, length, kept);
    if Cost(oracle, recorded) <= budget && TrailingBlind(oracle) {
      ReturnedMinimal(oracle, recorded, length, kept);
    }
    TrimmedIs(best);
    var steps := Steered(best);
    r := Shrunk(|recorded|, Trimmed(best), if steps == [] then 0 else steps[0], steps, search.runs);
  }
}
