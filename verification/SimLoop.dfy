/** The event loop and the scripted policy as the objects they are, each proved to be its model. */
module SimLoop {
  import opened Helpers
  import opened Loop
  import opened LoopRules
  import opened Replay

  const MAX_CHOICE: nat := 0xFFFF_FFFF_FFFF_FFFF

  class ScriptedPolicy {
    const script: seq<nat>
    var step: nat
    var divergedAt: Option<nat>

    constructor (script: seq<nat>)
      ensures this.script == script && step == 0 && divergedAt == None
    {
      this.script, step, divergedAt := script, 0, None;
    }

    method Choose(n: nat) returns (index: nat)
      requires n > 0
      modifies this
      ensures step == old(step) + 1
      ensures index == if old(step) < |script| then Min(script[old(step)], n - 1) else 0
      ensures old(divergedAt).Some? ==> divergedAt == old(divergedAt)
      ensures old(divergedAt).None? ==>
        divergedAt == if old(step) < |script| && script[old(step)] < n then None else Some(old(step))
      ensures index == Answer(script, old(step), n) && index < n
      ensures divergedAt ==
        if old(divergedAt).None? && Departs(script, old(step), n) then Some(old(step)) else old(divergedAt)
    {
      var at := step;
      step := step + 1;
      if at >= |script| {
        Diverge(at);
        return 0;
      }
      var choice := script[at];
      if choice >= n {
        Diverge(at);
        return n - 1;
      }
      return choice;
    }

    method Diverge(at: nat)
      modifies this`divergedAt
      ensures divergedAt == if old(divergedAt).None? then Some(at) else old(divergedAt)
    {
      if divergedAt == None {
        divergedAt := Some(at);
      }
    }
  }

  /** Only a list that could have been recorded makes a policy. */
  method FromChoices(choices: seq<int>) returns (policy: Option<ScriptedPolicy>)
    ensures policy.Some? <==> forall i :: 0 <= i < |choices| ==> 0 <= choices[i] <= MAX_CHOICE
    ensures policy.Some? ==> fresh(policy.value) && policy.value.script == choices
    ensures policy.Some? ==> policy.value.step == 0 && policy.value.divergedAt == None
  {
    var script: seq<nat> := [];
    for i := 0 to |choices|
      invariant script == choices[..i]
      invariant forall k :: 0 <= k < i ==> 0 <= choices[k] <= MAX_CHOICE
    {
      if choices[i] < 0 || choices[i] > MAX_CHOICE {
        return None;
      }
      script := script + [choices[i]];
    }
    var made := new ScriptedPolicy(script);
    return Some(made);
  }

  class EventLoop {
    var now: real
    var nextId: nat
    var ready: seq<Item>
    var timers: seq<Timer>
    var cancelled: set<nat>
    var trace: seq<Event>
    var choices: seq<nat>
    ghost var deadlines: map<nat, real>

    ghost function Snapshot(): State
      reads this
    {
      State(now, nextId, ready, timers, cancelled, trace, choices, deadlines)
    }

    constructor ()
      ensures Snapshot() == START
    {
      now, nextId, ready, timers, cancelled, trace, choices, deadlines := 0.0, 0, [], [], {}, [], [], map[];
    }

    method CallSoon(name: string, host: string, asker: string)
      modifies this
      ensures Snapshot() == Soon(old(Snapshot()), name, host, asker)
      ensures ready == old(ready) + [Item(old(nextId), name, host)] && nextId == old(nextId) + 1
      ensures trace == old(trace) + [Event(Schedule, now, old(nextId), name, asker)]
    {
      var id := nextId;
      nextId := nextId + 1;
      ready := ready + [Item(id, name, host)];
      trace := trace + [Event(Schedule, now, id, name, asker)];
    }

    /** A delay is a duration: no clock's offset touches it. */
    method CallLater(delay: real, offset: real, name: string, host: string, asker: string) returns (shown: real)
      modifies this
      ensures Snapshot() == Perform(old(Snapshot()), Action.CallLater(delay, name, host, asker))
      ensures shown == old(now) + offset + delay
      ensures Waits(old(Snapshot()), old(now) + delay, name, host, asker, Snapshot())
    {
      var when := now + delay;
      CallAtTrue(when, name, host, asker);
      return when + offset;
    }

    /** A deadline read off the caller's clock becomes true time once, here. */
    method CallAt(reading: real, offset: real, name: string, host: string, asker: string) returns (shown: real)
      modifies this
      ensures Snapshot() == Perform(old(Snapshot()), Action.CallAt(reading, offset, name, host, asker))
      ensures shown == reading
      ensures Waits(old(Snapshot()), reading - offset, name, host, asker, Snapshot())
    {
      CallAtTrue(reading - offset, name, host, asker);
      return reading;
    }

    method CallAtTrue(when: real, name: string, host: string, asker: string)
      modifies this
      ensures Snapshot() == AtTrue(old(Snapshot()), when, name, host, asker)
      ensures Waits(old(Snapshot()), when, name, host, asker, Snapshot())
    {
      PushPlaces(timers, Timer(when, Item(nextId, name, host)));
      var id := nextId;
      nextId := nextId + 1;
      timers := Push(timers, Timer(when, Item(id, name, host)));
      deadlines := deadlines[id := when];
      trace := trace + [Event(Schedule, now, id, name, asker)];
    }

    method RecordEnd(kind: Kind, item: Item)
      modifies this`trace
      ensures Snapshot() == Ended(old(Snapshot()), kind, item)
    {
      trace := trace + [Event(kind, now, item.id, item.name, item.host)];
    }

    method SweepCancelled()
      modifies this
      ensures Snapshot() == Sweep(old(Snapshot()))
    {
      while timers != [] && timers[0].item.id in cancelled
        invariant Sweep(Snapshot()) == Sweep(old(Snapshot()))
        decreases |timers|
      {
        var item := timers[0].item;
        RecordEnd(Cancel, item);
        timers := timers[1..];
      }
    }

    method CollectDue()
      modifies this
      ensures Snapshot() == Collect(old(Snapshot()))
    {
      while timers != [] && timers[0].when <= now
        invariant Collect(Snapshot()) == Collect(old(Snapshot()))
        decreases |timers|
      {
        var item := timers[0].item;
        timers := timers[1..];
        if item.id in cancelled {
          RecordEnd(Cancel, item);
        } else {
          ready := ready + [item];
        }
      }
    }

    /** With nothing ready, move to the next deadline; with nothing waiting either, give up. */
    method AdvanceClock() returns (ok: bool)
      requires ready == []
      modifies this
      ensures Snapshot() == Prepared(old(Snapshot()))
      ensures ok <==> Sweep(old(Snapshot())).timers != []
      ensures old(Inv(Snapshot())) ==> StopsAt(old(Snapshot()), Snapshot())
    {
      hide Sweep, Collect, Inv, StopsAt;
      if Inv(Snapshot()) {
        ClockStops(Snapshot());
      }
      SweepCancelled();
      SweepReady(old(Snapshot()));
      if timers == [] {
        return false;
      }
      now := if timers[0].when > now then timers[0].when else now;
      trace := trace + [Event(Advance, now, -1, "", "")];
      CollectDue();
      return true;
    }

    method Act(a: Action)
      modifies this
      ensures Snapshot() == Perform(old(Snapshot()), a)
      ensures a.CancelHandle? ==> Snapshot() == old(Snapshot()).(cancelled := old(cancelled) + {a.id})
      ensures a.CallSoon? ==> ready == old(ready) + [Item(old(nextId), a.name, a.host)] && cancelled == old(cancelled)
      ensures a.CallLater? ==> Waits(old(Snapshot()), old(now) + a.delay, a.name, a.host, a.asker, Snapshot())
      ensures a.CallAt? ==> Waits(old(Snapshot()), a.reading - a.offset, a.name, a.host, a.asker, Snapshot())
    {
      hide Waits, Push, AtTrue;
      match a {
        case CallSoon(name, host, asker) => CallSoon(name, host, asker);
        case CallLater(delay, name, host, asker) => var _ := CallLater(delay, 0.0, name, host, asker);
        case CallAt(reading, offset, name, host, asker) => var _ := CallAt(reading, offset, name, host, asker);
        case CancelHandle(id) => cancelled := cancelled + {id};
      }
    }

    method ActAll(acts: seq<Action>)
      modifies this
      ensures Snapshot() == PerformAll(old(Snapshot()), acts)
    {
      for i := 0 to |acts|
        invariant PerformAll(Snapshot(), acts[i..]) == PerformAll(old(Snapshot()), acts)
      {
        assert acts[i..][1..] == acts[i + 1..];
        Act(acts[i]);
      }
    }

    /** Take the chosen callback off the queue and run it, or skip it if it was cancelled. */
    method RunChosen(work: Workload, index: nat)
      requires index < |ready|
      modifies this
      ensures Snapshot() == Fire(work, old(Snapshot()), index)
      ensures old(ready)[index].id in old(cancelled) ==>
        TakesOff(old(Snapshot()), index, Cancel, Snapshot())
      ensures old(ready)[index].id !in old(cancelled) ==> exists m ::
        TakesOff(old(Snapshot()), index, Run, m) && Snapshot() == PerformAll(m, work(m.trace, old(ready)[index]))
    {
      FireIs(work, Snapshot(), index);
      choices := choices + [index];
      var item := ready[index];
      ready := Drop(ready, index);
      if item.id in cancelled {
        RecordEnd(Cancel, item);
        return;
      }
      RecordEnd(Run, item);
      ActAll(work(trace, item));
    }

    /** One step under a scripted policy; the policy is never shown an empty queue. */
    method StepScripted(work: Workload, policy: ScriptedPolicy) returns (ok: bool)
      requires Inv(Snapshot())
      modifies this, policy
      ensures var p := old(Prepared(Snapshot()));
        && (ok <==> p.ready != [])
        && (!ok ==> policy.step == old(policy.step) && policy.divergedAt == old(policy.divergedAt))
        && (ok ==>
              && policy.step == old(policy.step) + 1
              && Snapshot() == Step(work, old(Snapshot()), Answer(policy.script, old(policy.step), |p.ready|))
              && policy.divergedAt ==
                 if old(policy.divergedAt).None? && Departs(policy.script, old(policy.step), |p.ready|)
                 then Some(old(policy.step)) else old(policy.divergedAt))
    {
      hide Inv, Fire, Sweep, Collect;
      PreparedKeeps(Snapshot());
      SweepReady(Snapshot());
      if ready == [] {
        ok := AdvanceClock();
        NotDeadlocked(old(Snapshot()));
        if !ok {
          return;
        }
      }
      var index := policy.Choose(|ready|);
      RunChosen(work, index);
      return true;
    }

    /** Replay a script for up to `n` steps. */
    method RunScript(work: Workload, boot: seq<Action>, policy: ScriptedPolicy, n: nat) returns (ghost r: Trail)
      requires Snapshot() == START && policy.step == 0 && policy.divergedAt == None
      modifies this, policy
      ensures IsReplay(work, boot, policy.script, r) && |r.picks| <= n
      ensures |r.picks| < n ==> Prepared(r.states[|r.picks|]).ready == []
      ensures |r.picks| == n ==> Snapshot() == r.states[n]
      ensures policy.divergedAt == DivergedAt(policy.script, r, |r.picks|)
    {
      hide Inv, Step, Prepared, PerformAll;
      StartKeeps();
      ActAll(boot);
      PerformKeeps(START, boot);
      r := Trail([Snapshot()], []);
      for i := 0 to n
        invariant IsReplay(work, boot, policy.script, r) && |r.picks| == i && Snapshot() == r.states[i]
        invariant policy.step == i && policy.divergedAt == DivergedAt(policy.script, r, i)
        invariant Inv(Snapshot())
      {
        ghost var s := Snapshot();
        ghost var before := r;
        var ok := StepScripted(work, policy);
        if !ok {
          return;
        }
        ghost var pick := Answer(policy.script, i, |Prepared(s).ready|);
        StepKeeps(work, s, pick);
        r := Extended(work, boot, policy.script, r, pick);
        DivergedStays(policy.script, before, r, i);
      }
    }
  }

  lemma {:induction false} SweepReady(s: State)
    ensures Sweep(s).ready == s.ready
    decreases |s.timers|
  {
    if s.timers != [] && s.timers[0].item.id in s.cancelled {
      SweepReady(Ended(s, Cancel, s.timers[0].item).(timers := s.timers[1..]));
    }
  }

  /** After the clock has moved there is something to run. */
  lemma NotDeadlocked(s: State)
    requires Inv(s) && s.ready == []
    ensures Sweep(s).timers != [] <==> Prepared(s).ready != []
  {
    hide Inv;
    PreparedKeeps(s);
    SweepAll(s);
  }

  /** Divergence up to a step is decided by the steps before it. */
  lemma {:induction false} DivergedStays(script: seq<nat>, a: Trail, b: Trail, k: nat)
    requires k <= |a.picks| < |a.states| && k <= |b.picks| < |b.states| && a.states <= b.states
    ensures DivergedAt(script, a, k) == DivergedAt(script, b, k)
  {
    if k > 0 {
      DivergedStays(script, a, b, k - 1);
    }
  }
}
