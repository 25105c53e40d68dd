/**
  Priority scheduling with change points: every owner draws a priority on first
  sight, the highest ready priority runs, and at a fixed set of steps the owner
  that was about to run is demoted below everything so far.
*/
module PctPolicy {
  /** When `owner` was last demoted, counting from 1; 0 if never. */
  ghost function LastDemoted(demotions: seq<int>, owner: int): nat {
    if demotions == [] then 0
    else if demotions[|demotions| - 1] == owner then |demotions|
    else LastDemoted(demotions[..|demotions| - 1], owner)
  }

  lemma {:induction false} LastDemotedIs(demotions: seq<int>, owner: int)
    ensures LastDemoted(demotions, owner) <= |demotions|
    ensures LastDemoted(demotions, owner) == 0 <==> owner !in demotions
  {
    if demotions != [] {
      var front := demotions[..|demotions| - 1];
      LastDemotedIs(front, owner);
      assert demotions == front + [demotions[|demotions| - 1]];
    }
  }

  /** Change points already passed. */
  ghost function Passed(points: set<nat>, steps: nat): set<nat> {
    set p | p in points && p < steps
  }

  lemma PassedNext(points: set<nat>, steps: nat)
    ensures |Passed(points, steps + 1)| == |Passed(points, steps)| + if steps in points then 1 else 0
  {
    if steps in points {
      assert Passed(points, steps + 1) == Passed(points, steps) + {steps};
    } else {
      assert Passed(points, steps + 1) == Passed(points, steps);
    }
  }

  lemma PassedBound(points: set<nat>, steps: nat, horizon: nat)
    requires forall p :: p in points ==> p < horizon
    ensures |Passed(points, steps)| <= |points|
    ensures steps >= horizon ==> |Passed(points, steps)| == |points|
  {
    var later := points - Passed(points, steps);
    assert points == Passed(points, steps) + later;
    assert |points| == |Passed(points, steps)| + |later|;
    if steps >= horizon {
      assert later == {};
    }
  }

  /** First draws lie in [1, 2); the n-th demotion goes to -n. */
  ghost predicate Priced(priority: real, demotions: seq<int>, owner: int) {
    if LastDemoted(demotions, owner) == 0 then 1.0 <= priority < 2.0
    else priority == -(LastDemoted(demotions, owner) as real)
  }

  /** The owner stands in the queue before place `k`. */
  ghost predicate Seen(ready: seq<int>, k: nat, owner: int) {
    exists i :: 0 <= i < k && i < |ready| && ready[i] == owner
  }

  /** Owners priced already keep their price, and those first seen before place `k` of the queue have theirs
      from the draw at their first place. */
  ghost predicate Drawn(before: map<int, real>, ready: seq<int>, draws: seq<real>, k: nat, after: map<int, real>)
    requires k <= |ready| == |draws|
  {
    && (forall o :: o in after <==> o in before || Seen(ready, k, o))
    && (forall o :: o in before ==> o in after && after[o] == before[o])
    && (forall i :: 0 <= i < k && ready[i] !in before && !Seen(ready, i, ready[i]) ==>
         ready[i] in after && after[ready[i]] == draws[i] + 1.0)
  }

  lemma DrawnFrom(before: map<int, real>, ready: seq<int>, draws: seq<real>)
    requires |draws| == |ready|
    ensures Drawn(before, ready, draws, 0, before)
  {
  }

  lemma DrawnMore(before: map<int, real>, ready: seq<int>, draws: seq<real>, k: nat, mid: map<int, real>, after: map<int, real>)
    requires k < |ready| == |draws| && Drawn(before, ready, draws, k, mid)
    requires after == mid[ready[k] := if ready[k] in mid then mid[ready[k]] else draws[k] + 1.0]
    ensures Drawn(before, ready, draws, k + 1, after)
  {
    assert forall o :: Seen(ready, k + 1, o) <==> Seen(ready, k, o) || o == ready[k] by {
      assert ready[k] == ready[k] && Seen(ready, k + 1, ready[k]);
    }
    hide Seen;
  }

  class Policy {
    const depth: nat
    const horizon: nat
    const changePoints: set<nat>
    var priorities: map<int, real>
    var floor: real
    var stepCount: nat
    /** Who was demoted, oldest first. */
    ghost var demotions: seq<int>

    ghost predicate Valid()
      reads this
    {
      && |changePoints| + 1 == depth
      && (forall p :: p in changePoints ==> p < horizon)
      && |demotions| == |Passed(changePoints, stepCount)|
      && floor == -(|demotions| as real)
      && (forall o :: o in demotions ==> o in priorities)
      && (forall o :: o in priorities ==> Priced(priorities[o], demotions, o))
    }

    constructor (depth: nat, horizon: nat, changePoints: set<nat>)
      requires depth >= 1 && |changePoints| == depth - 1 && forall p :: p in changePoints ==> p < horizon
      ensures Valid() && demotions == [] && stepCount == 0
    {
      this.depth, this.horizon, this.changePoints := depth, horizon, changePoints;
      priorities, floor, stepCount, demotions := map[], 0.0, 0, [];
      assert Passed(changePoints, 0) == {};
    }

    /** What an owner is worth, drawing on first sight. */
    method Priority(owner: int, draw: real) returns (p: real)
      requires Valid() && 0.0 <= draw < 1.0
      modifies this`priorities
      ensures Valid()
      ensures owner in priorities && priorities[owner] == p
      ensures priorities == old(priorities)[owner := p]
      ensures p == if owner in old(priorities) then old(priorities)[owner] else draw + 1.0
    {
      if owner !in priorities {
        LastDemotedIs(demotions, owner);
        priorities := priorities[owner := draw + 1.0];
      }
      p := priorities[owner];
    }

    /** Every owner in the queue is priced, in queue order, and the highest price wins; the earliest
        keeps a tie.  `draws` are the random draws for owners not seen before. */
    method Leader(ready: seq<int>, draws: seq<real>) returns (index: nat)
      requires Valid() && ready != [] && |draws| == |ready| && forall i :: 0 <= i < |draws| ==> 0.0 <= draws[i] < 1.0
      modifies this`priorities
      ensures Valid() && index < |ready|
      ensures forall i :: 0 <= i < |ready| ==> ready[i] in priorities
      ensures forall i :: 0 <= i < |ready| ==> priorities[ready[i]] <= priorities[ready[index]]
      ensures forall i :: 0 <= i < index ==> priorities[ready[i]] < priorities[ready[index]]
      ensures Drawn(old(priorities), ready, draws, |ready|, priorities)
    {
      hide Drawn;
      DrawnFrom(priorities, ready, draws);
      index := 0;
      var best := Priority(ready[0], draws[0]);
      DrawnMore(old(priorities), ready, draws, 0, old(priorities), priorities);
      for k := 1 to |ready|
        invariant Valid() && index < k
        invariant forall i :: 0 <= i < k ==> ready[i] in priorities && priorities[ready[i]] <= best
        invariant priorities[ready[index]] == best
        invariant forall i :: 0 <= i < index ==> priorities[ready[i]] < best
        invariant Drawn(old(priorities), ready, draws, k, priorities)
      {
        ghost var before := priorities;
        var p := Priority(ready[k], draws[k]);
        DrawnMore(old(priorities), ready, draws, k, before, priorities);
        assert forall i :: 0 <= i < k ==> ready[i] in before && priorities[ready[i]] == before[ready[i]];
        if p > best {
          index, best := k, p;
        }
      }
    }

    /** The highest price runs, the earliest of equals; at a change point it is then demoted below everything.
        A demoted owner runs only when every ready owner has been demoted, and then it is the one
        whose latest demotion is oldest; and in all there are never more than depth - 1 demotions. */
    method Choose(ready: seq<int>, draws: seq<real>) returns (index: nat, ghost prices: map<int, real>)
      requires Valid() && ready != [] && |draws| == |ready| && forall i :: 0 <= i < |draws| ==> 0.0 <= draws[i] < 1.0
      modifies this
      ensures Valid() && index < |ready| && stepCount == old(stepCount) + 1
      ensures Drawn(old(priorities), ready, draws, |ready|, prices) && forall i :: 0 <= i < |ready| ==> ready[i] in prices
      ensures forall i :: 0 <= i < |ready| ==> prices[ready[i]] <= prices[ready[index]]
      ensures forall i :: 0 <= i < index ==> prices[ready[i]] < prices[ready[index]]
      ensures if old(stepCount) in changePoints
        then floor == old(floor) - 1.0 && priorities == prices[ready[index] := floor]
        else floor == old(floor) && priorities == prices
      ensures demotions == old(demotions) + if old(stepCount) in changePoints then [ready[index]] else []
      ensures ready[index] in old(demotions) ==> forall i :: 0 <= i < |ready| ==>
        ready[i] in old(demotions)
        && LastDemoted(old(demotions), ready[index]) <= LastDemoted(old(demotions), ready[i])
      ensures |demotions| <= depth - 1 && (stepCount >= horizon ==> |demotions| == depth - 1)
    {
      hide Drawn;
      var step := stepCount;
      PassedNext(changePoints, step);
      index := Leader(ready, draws);
      prices := priorities;
      LeaderDiscipline(priorities, demotions, ready, index);
      stepCount := stepCount + 1;
      if step in changePoints {
        floor := floor - 1.0;
        Demoted(demotions, priorities, ready[index]);
        priorities := priorities[ready[index] := floor];
        demotions := demotions + [ready[index]];
      }
      PassedBound(changePoints, stepCount, horizon);
    }
  }

  lemma LeaderDiscipline(priorities: map<int, real>, demotions: seq<int>, ready: seq<int>, index: nat)
    requires index < |ready| && forall i :: 0 <= i < |ready| ==> ready[i] in priorities
    requires forall o :: o in priorities ==> Priced(priorities[o], demotions, o)
    requires forall i :: 0 <= i < |ready| ==> priorities[ready[i]] <= priorities[ready[index]]
    ensures ready[index] in demotions ==> forall i :: 0 <= i < |ready| ==>
      ready[i] in demotions && LastDemoted(demotions, ready[index]) <= LastDemoted(demotions, ready[i])
  {
    LastDemotedIs(demotions, ready[index]);
    forall i | 0 <= i < |ready| && ready[index] in demotions
      ensures ready[i] in demotions && LastDemoted(demotions, ready[index]) <= LastDemoted(demotions, ready[i])
    {
      LastDemotedIs(demotions, ready[i]);
    }
  }

  lemma Demoted(demotions: seq<int>, priorities: map<int, real>, owner: int)
    requires forall o :: o in priorities ==> Priced(priorities[o], demotions, o)
    ensures var d := demotions + [owner];
      forall o :: o in priorities && o != owner ==> Priced(priorities[o], d, o)
    ensures LastDemoted(demotions + [owner], owner) == |demotions| + 1
  {
    var d := demotions + [owner];
    assert d[..|d| - 1] == demotions;
  }
}
