/**
  The parallel seed search: batches of seed positions go out in order, come back
  in any order, and the answer is the failure a sequential search would have
  stopped at.
*/
module Parallel {
  import opened Helpers

  /** How a seed failed. */
  datatype Crash = Crash(kind: string, message: string)

  /** What running the seed at each position comes to. */
  type Outcomes = nat -> Option<Crash>

  datatype Failure = Failure(at: nat, crash: Crash)

  /** Seed positions from `start` up to `stop`. */
  datatype Batch = Batch(start: nat, stop: nat)

  const BATCH_SIZE: nat := 16

  // ------------------------------------------------------------------
  // Sequential exploration
  // ------------------------------------------------------------------

  /** The failure a search in order stops at. */
  function Earliest(outcomes: Outcomes, lo: nat, hi: nat): Option<Failure>
    decreases hi - lo
  {
    if lo >= hi then None
    else if outcomes(lo).Some? then Some(Failure(lo, outcomes(lo).value))
    else Earliest(outcomes, lo + 1, hi)
  }

  lemma {:induction false} EarliestIs(outcomes: Outcomes, lo: nat, hi: nat)
    ensures Earliest(outcomes, lo, hi).None? <==> forall p: nat :: lo <= p < hi ==> outcomes(p).None?
    ensures var e := Earliest(outcomes, lo, hi);
      e.Some? ==>
        && lo <= e.value.at < hi && outcomes(e.value.at) == Some(e.value.crash)
        && forall p: nat :: lo <= p < e.value.at ==> outcomes(p).None?
    decreases hi - lo
  {
    if lo < hi && outcomes(lo).None? {
      EarliestIs(outcomes, lo + 1, hi);
    }
  }

  /** A worker runs its batch in order and reports the first that failed. */
  method RunBatch(outcomes: Outcomes, batch: Batch) returns (f: Option<Failure>)
    requires batch.start <= batch.stop
    ensures f == Earliest(outcomes, batch.start, batch.stop)
  {
    for p := batch.start to batch.stop
      invariant Earliest(outcomes, p, batch.stop) == Earliest(outcomes, batch.start, batch.stop)
    {
      if outcomes(p).Some? {
        return Some(Failure(p, outcomes(p).value));
      }
    }
    return None;
  }

  // ------------------------------------------------------------------
  // Batches
  // ------------------------------------------------------------------

  function BatchSize(total: nat, jobs: nat): (size: nat)
    requires jobs > 0
    ensures 1 <= size <= BATCH_SIZE && (size > 1 ==> size * (jobs * 4) <= total)
    ensures size < BATCH_SIZE ==> (size + 1) * (jobs * 4) > total
  {
    Max(1, Min(BATCH_SIZE, total / (jobs * 4)))
  }

  function Batches(start: nat, total: nat, size: nat): seq<Batch>
    requires size > 0
    decreases total - start
  {
    if start >= total then []
    else [Batch(start, Min(start + size, total))] + Batches(start + size, total, size)
  }

  /** End to end, in order, nothing left out. */
  ghost predicate Tiles(batches: seq<Batch>, lo: nat, hi: nat) {
    if batches == [] then lo >= hi
    else batches[0].start == lo && lo < batches[0].stop <= hi && Tiles(batches[1..], batches[0].stop, hi)
  }

  lemma {:induction false} BatchesTile(start: nat, total: nat, size: nat)
    requires size > 0
    ensures Tiles(Batches(start, total, size), start, total)
    ensures forall b :: b in Batches(start, total, size) ==> b.stop == b.start + size || (b.stop == total && b.start + size > total)
    decreases total - start
  {
    if start < total {
      BatchesTile(start + size, total, size);
      if start + size > total {
        assert Batches(start + size, total, size) == [];
      }
    }
  }

  lemma {:induction false} TilesFrom(batches: seq<Batch>, lo: nat, hi: nat, k: nat)
    requires Tiles(batches, lo, hi) && k < |batches|
    ensures Tiles(batches[k..], batches[k].start, hi) && lo <= batches[k].start < batches[k].stop <= hi
    ensures k + 1 < |batches| ==> batches[k + 1].start == batches[k].stop
    ensures k + 1 == |batches| ==> batches[k].stop >= hi
  {
    if k == 0 {
      assert batches[0..] == batches;
      assert |batches| > 1 ==> batches[1..][0] == batches[1];
    } else {
      TilesFrom(batches[1..], batches[0].stop, hi, k - 1);
      assert batches[1..][k - 1..] == batches[k..];
    }
  }

  // ------------------------------------------------------------------
  // The frontier
  // ------------------------------------------------------------------

  class Frontier {
    const batches: seq<Batch>
    const total: nat
    var next: nat
    var failure: Option<Failure>

    ghost predicate Valid()
      reads this
    {
      next <= |batches| && Tiles(batches, 0, total)
    }

    /** The first position no batch handed out so far has covered. */
    ghost function Edge(): nat
      requires Valid()
      reads this
    {
      if next < |batches| then batches[next].start else total
    }

    /** No position past the edge could hold an earlier failure. */
    ghost predicate Spent()
      requires Valid()
      reads this
    {
      Edge() == total || (failure.Some? && failure.value.at < Edge())
    }

    constructor (batches: seq<Batch>, total: nat)
      requires Tiles(batches, 0, total)
      ensures Valid() && this.batches == batches && this.total == total && next == 0 && failure == None
    {
      this.batches, this.total, next, failure := batches, total, 0, None;
    }

    /** A refusal means no batch still waiting could hold an earlier failure. */
    method Take() returns (b: Option<Batch>)
      requires Valid()
      modifies this`next
      ensures Valid()
      ensures b.None? ==> next == old(next) && Spent()
      ensures b.Some? ==>
        && next == old(next) + 1
        && b.value.start == old(Edge()) < b.value.stop == Edge() <= total
        && (failure.None? || b.value.start <= failure.value.at)
    {
      if next == |batches| {
        return None;
      }
      var batch := batches[next];
      if failure.Some? && batch.start > failure.value.at {
        return None;
      }
      TilesFrom(batches, 0, total, next);
      next := next + 1;
      return Some(batch);
    }

    method Record(f: Option<Failure>)
      requires Valid()
      modifies this`failure
      ensures Valid()
      ensures failure == Sooner(old(failure), f)
      ensures failure == old(failure) || failure == f
      ensures forall g <- [old(failure), f] :: g.Some? ==> failure.Some? && failure.value.at <= g.value.at
      ensures old(failure).Some? && f.Some? && f.value.at >= old(failure).value.at ==> failure == old(failure)
    {
      if f.None? {
        return;
      }
      if failure.None? || f.value.at < failure.value.at {
        failure := f;
      }
    }
  }

  function Sooner(a: Option<Failure>, b: Option<Failure>): Option<Failure> {
    if b.None? then a
    else if a.None? || b.value.at < a.value.at then b
    else a
  }

  // ------------------------------------------------------------------
  // The search
  // ------------------------------------------------------------------

  /** Every failure below `edge` is at or after the best so far, or in a batch that is still out. */
  ghost predicate Covered(outcomes: Outcomes, running: set<Batch>, best: Option<Failure>, edge: nat, total: nat) {
    && (best.Some? ==> best.value.at < total && outcomes(best.value.at) == Some(best.value.crash))
    && (forall b :: b in running ==> b.start <= b.stop <= total)
    && (forall p: nat :: p < edge && outcomes(p).Some? ==>
         (best.Some? && best.value.at <= p) || exists b :: b in running && b.start <= p < b.stop)
  }

  lemma RecordCovers(outcomes: Outcomes, running: set<Batch>, best: Option<Failure>, edge: nat, total: nat, b: Batch)
    requires Covered(outcomes, running, best, edge, total) && b in running
    ensures Covered(outcomes, running - {b}, Sooner(best, Earliest(outcomes, b.start, b.stop)), edge, total)
  {
    var found := Earliest(outcomes, b.start, b.stop);
    EarliestIs(outcomes, b.start, b.stop);
    var after := Sooner(best, found);
    forall p: nat | p < edge && outcomes(p).Some?
      ensures (after.Some? && after.value.at <= p) || exists c :: c in running - {b} && c.start <= p < c.stop
    {
      if !(best.Some? && best.value.at <= p) {
        var c :| c in running && c.start <= p < c.stop;
        assert c != b ==> c in running - {b};
      }
    }
  }

  lemma TakeCovers(outcomes: Outcomes, running: set<Batch>, best: Option<Failure>, edge: nat, total: nat, b: Batch)
    requires Covered(outcomes, running, best, edge, total) && b.start == edge < b.stop <= total
    ensures Covered(outcomes, running + {b}, best, b.stop, total)
  {
    forall p: nat | p < b.stop && outcomes(p).Some?
      ensures (best.Some? && best.value.at <= p) || exists c :: c in running + {b} && c.start <= p < c.stop
    {
      if p < edge {
        if !(best.Some? && best.value.at <= p) {
          var c :| c in running && c.start <= p < c.stop;
          assert c in running + {b};
        }
      } else {
        assert b in running + {b};
      }
    }
  }

  /** With nothing out and nothing worth taking, the best so far is the sequential answer. */
  lemma DoneIsEarliest(outcomes: Outcomes, best: Option<Failure>, edge: nat, total: nat)
    requires Covered(outcomes, {}, best, edge, total)
    requires edge == total || (best.Some? && best.value.at < edge)
    ensures best == Earliest(outcomes, 0, total)
  {
    EarliestIs(outcomes, 0, total);
  }

  /** Any number of workers, any batch size, any order of completion: the sequential answer. */
  method FindLowestFailure(outcomes: Outcomes, total: nat, jobs: nat, batchSize: Option<nat>)
    returns (f: Option<Failure>)
    requires jobs > 0 && (batchSize.Some? ==> batchSize.value > 0)
    ensures f == Earliest(outcomes, 0, total)
  {
    var size := if batchSize.Some? then batchSize.value else BatchSize(total, jobs);
    BatchesTile(0, total, size);
    var frontier := new Frontier(Batches(0, total, size), total);
    var running: set<Batch> := {};
    while true
      invariant frontier.Valid() && frontier.total == total && fresh(frontier)
      invariant Covered(outcomes, running, frontier.failure, frontier.Edge(), total)
      decreases |frontier.batches| - frontier.next, running
    {
      ghost var had, out := frontier.next, running;
      running := FillUp(outcomes, frontier, running, jobs);
      if running == {} {
        DoneIsEarliest(outcomes, frontier.failure, frontier.Edge(), total);
        return frontier.failure;
      }
      var done: set<Batch> :| done <= running && done != {};
      running := Settle(outcomes, frontier, running, done);
      assert frontier.next == had ==> running < out;
    }
  }

  /** Hand out batches until every worker is busy or the frontier refuses. */
  method FillUp(outcomes: Outcomes, frontier: Frontier, out: set<Batch>, jobs: nat) returns (running: set<Batch>)
    requires frontier.Valid() && Covered(outcomes, out, frontier.failure, frontier.Edge(), frontier.total)
    modifies frontier`next
    ensures frontier.Valid() && frontier.next >= old(frontier.next)
    ensures Covered(outcomes, running, frontier.failure, frontier.Edge(), frontier.total)
    ensures frontier.next == old(frontier.next) ==> running == out
    ensures |running| >= jobs || frontier.Spent()
  {
    running := out;
    while |running| < jobs
      invariant frontier.Valid() && frontier.next >= old(frontier.next)
      invariant Covered(outcomes, running, frontier.failure, frontier.Edge(), frontier.total)
      invariant frontier.next == old(frontier.next) ==> running == out
      decreases |frontier.batches| - frontier.next
    {
      ghost var edge := frontier.Edge();
      var batch := frontier.Take();
      if batch.None? {
        return;
      }
      TakeCovers(outcomes, running, frontier.failure, edge, frontier.total, batch.value);
      running := running + {batch.value};
    }
  }

  /** Take in what the finished batches found, in whatever order they are looked at. */
  method Settle(outcomes: Outcomes, frontier: Frontier, out: set<Batch>, finished: set<Batch>)
    returns (running: set<Batch>)
    requires frontier.Valid() && Covered(outcomes, out, frontier.failure, frontier.Edge(), frontier.total)
    requires finished <= out
    modifies frontier`failure
    ensures frontier.Valid() && Covered(outcomes, running, frontier.failure, frontier.Edge(), frontier.total)
    ensures running == out - finished
  {
    running := out;
    var done := finished;
    while done != {}
      invariant frontier.Valid() && done <= finished && running == out - (finished - done)
      invariant Covered(outcomes, running, frontier.failure, frontier.Edge(), frontier.total)
      decreases done
    {
      var b :| b in done;
      var found := RunBatch(outcomes, b);
      RecordCovers(outcomes, running, frontier.failure, frontier.Edge(), frontier.total, b);
      frontier.Record(found);
      done, running := done - {b}, running - {b};
    }
  }
}
