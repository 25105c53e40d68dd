/**
  What a step of the loop does, event by event: which callbacks are run and which are
  skipped, when the clock stops, and in what order what is due becomes ready.
*/
module LoopRules {
  import opened Helpers
  import opened Loop

  // ------------------------------------------------------------------
  // One step
  // ------------------------------------------------------------------

  /** `t` is `s` with the callback at `index` off the queue, the choice logged, and one event that ends it. */
  ghost predicate TakesOff(s: State, index: nat, kind: Kind, t: State) {
    && index < |s.ready|
    && t.ready == s.ready[..index] + s.ready[index + 1..] && t.choices == s.choices + [index]
    && t.trace == s.trace + [Event(kind, s.now, s.ready[index].id, s.ready[index].name, s.ready[index].host)]
    && t.now == s.now && t.nextId == s.nextId && t.timers == s.timers
    && t.cancelled == s.cancelled && t.deadlines == s.deadlines
  }

  /** A cancelled callback is recorded as that and does nothing at all; any other is recorded as run, and
      what it asks for follows, in order. */
  lemma FireIs(work: Workload, s: State, index: nat)
    requires index < |s.ready|
    ensures s.ready[index].id in s.cancelled ==> TakesOff(s, index, Cancel, Fire(work, s, index))
    ensures s.ready[index].id !in s.cancelled ==>
      exists m :: TakesOff(s, index, Run, m) && Fire(work, s, index) == PerformAll(m, work(m.trace, s.ready[index]))
  {
    var m := Picked(s, index);
    assert s.ready[index].id !in s.cancelled ==> TakesOff(s, index, Run, m);
  }

  /** Actions are taken one after another. */
  lemma {:induction false} PerformJoin(s: State, a: seq<Action>, b: seq<Action>)
    ensures PerformAll(s, []) == s && PerformAll(s, a + b) == PerformAll(PerformAll(s, a), b)
    ensures forall x :: PerformAll(s, [x]) == Perform(s, x)
    decreases |a|
  {
    hide Perform;
    forall x ensures PerformAll(s, [x]) == Perform(s, x) {
      assert [x][1..] == [];
      assert PerformAll(Perform(s, x), []) == Perform(s, x);
    }
    if a == [] {
      assert a + b == b;
    } else {
      PerformJoin(Perform(s, a[0]), a[1..], b);
      assert (a + b)[1..] == a[1..] + b;
    }
  }

  // ------------------------------------------------------------------
  // Cancellation
  // ------------------------------------------------------------------

  /** From the `from`-th event on: what was cancelled is never run, and nothing else is skipped. */
  ghost predicate Heeds(trace: seq<Event>, from: nat, cancelled: set<nat>) {
    forall j :: from <= j < |trace| ==> HeedsAt(trace[j], cancelled)
  }

  ghost predicate HeedsAt(e: Event, cancelled: set<nat>) {
    && (e.kind == Run ==> e.id !in cancelled)
    && (e.kind == Cancel ==> e.id in cancelled)
  }

  lemma {:induction false} SweepHeeds(s: State)
    ensures var t := Sweep(s); s.trace <= t.trace && Heeds(t.trace, |s.trace|, s.cancelled) && t.cancelled == s.cancelled
    decreases |s.timers|
  {
    if s.timers != [] && s.timers[0].item.id in s.cancelled {
      SweepHeeds(Ended(s, Cancel, s.timers[0].item).(timers := s.timers[1..]));
    }
  }

  lemma {:induction false} CollectHeeds(s: State)
    ensures var t := Collect(s); s.trace <= t.trace && Heeds(t.trace, |s.trace|, s.cancelled) && t.cancelled == s.cancelled
    decreases |s.timers|
  {
    if s.timers != [] && s.timers[0].when <= s.now {
      CollectHeeds(Release(s));
    }
  }

  lemma PreparedHeeds(s: State)
    ensures var t := Prepared(s); s.trace <= t.trace && Heeds(t.trace, |s.trace|, s.cancelled) && t.cancelled == s.cancelled
  {
    hide Sweep, Collect, HeedsAt;
    if s.ready == [] {
      SweepHeeds(s);
      var swept := Sweep(s);
      if swept.timers != [] {
        assert HeedsAt(Event(Advance, Ticked(swept).now, -1, "", ""), s.cancelled) by { AdvanceHeeds(s.cancelled, Ticked(swept).now); }
        CollectHeeds(Ticked(swept));
      }
    }
  }

  lemma AdvanceHeeds(cancelled: set<nat>, now: real)
    ensures HeedsAt(Event(Advance, now, -1, "", ""), cancelled)
  {
  }

  /** Asking for things ends nothing: it only schedules, and cancels. */
  lemma {:induction false} PerformSchedules(s: State, acts: seq<Action>)
    ensures var t := PerformAll(s, acts);
      && s.trace <= t.trace && s.cancelled <= t.cancelled
      && forall j :: |s.trace| <= j < |t.trace| ==> t.trace[j].kind == Schedule
    decreases |acts|
  {
    if acts != [] {
      PerformSchedules(Perform(s, acts[0]), acts[1..]);
    }
  }

  /** Whatever a step adds to the trace, it runs nothing cancelled and skips nothing that was not. */
  lemma StepHeeds(work: Workload, s: State, index: nat)
    requires index < |Prepared(s).ready|
    ensures var t := Step(work, s, index); s.trace <= t.trace && Heeds(t.trace, |s.trace|, s.cancelled) && s.cancelled <= t.cancelled
  {
    hide Prepared, PerformAll;
    PreparedHeeds(s);
    var p, picked := Prepared(s), Picked(Prepared(s), index);
    if p.ready[index].id !in p.cancelled {
      PerformSchedules(picked, work(picked.trace, p.ready[index]));
    }
  }

  /** In every run, what a step runs had not been cancelled before the step, and what it skips had. */
  lemma RunHeeds(work: Workload, boot: seq<Action>, r: Trail, k: nat)
    requires IsRun(work, boot, r) && k < |r.picks|
    ensures r.states[k].trace <= r.states[k + 1].trace
      && Heeds(r.states[k + 1].trace, |r.states[k].trace|, r.states[k].cancelled)
      && r.states[k].cancelled <= r.states[k + 1].cancelled
  {
    hide Step, Prepared, Heeds;
    assert Moves(work, r.states[k], r.picks[k], r.states[k + 1]);
    StepHeeds(work, r.states[k], r.picks[k]);
  }

  /** Nothing runs once it has been cancelled. */
  lemma {:induction false} CancelledNeverRuns(work: Workload, boot: seq<Action>, r: Trail, i: nat, k: nat, id: nat, j: nat)
    requires IsRun(work, boot, r) && i <= k < |r.states| && id in r.states[i].cancelled
    requires |r.states[i].trace| <= j < |r.states[k].trace| && r.states[k].trace[j].kind == Run
    ensures r.states[k].trace[j].id != id && id in r.states[k].cancelled
    decreases k
  {
    hide Step, Prepared, PerformAll;
    CancelledStays(work, boot, r, i, k);
    if i < k {
      RunHeeds(work, boot, r, k - 1);
      if j < |r.states[k - 1].trace| {
        CancelledNeverRuns(work, boot, r, i, k - 1, id, j);
      } else {
        CancelledStays(work, boot, r, i, k - 1);
        assert HeedsAt(r.states[k].trace[j], r.states[k - 1].cancelled);
      }
    }
  }

  lemma {:induction false} CancelledStays(work: Workload, boot: seq<Action>, r: Trail, i: nat, k: nat)
    requires IsRun(work, boot, r) && i <= k < |r.states|
    ensures r.states[i].cancelled <= r.states[k].cancelled && r.states[i].trace <= r.states[k].trace
    decreases k
  {
    hide Step, Prepared, PerformAll, Heeds;
    if i < k {
      CancelledStays(work, boot, r, i, k - 1);
      RunHeeds(work, boot, r, k - 1);
    }
  }

  /** And whatever was skipped had been cancelled. */
  lemma {:induction false} SkippedWereCancelled(work: Workload, boot: seq<Action>, r: Trail, k: nat, j: nat)
    requires IsRun(work, boot, r) && k < |r.states| && j < |r.states[k].trace| && r.states[k].trace[j].kind == Cancel
    ensures exists i :: 0 <= i < k && |r.states[i].trace| <= j < |r.states[i + 1].trace| && r.states[k].trace[j].id in r.states[i].cancelled
    decreases k
  {
    hide Step, Prepared, PerformAll;
    if k == 0 {
      PerformSchedules(START, boot);
    } else {
      RunHeeds(work, boot, r, k - 1);
      if j < |r.states[k - 1].trace| {
        SkippedWereCancelled(work, boot, r, k - 1, j);
        var i :| 0 <= i < k - 1 && |r.states[i].trace| <= j < |r.states[i + 1].trace|
          && r.states[k - 1].trace[j].id in r.states[i].cancelled;
      } else {
        assert HeedsAt(r.states[k].trace[j], r.states[k - 1].cancelled);
      }
    }
  }

  // ------------------------------------------------------------------
  // Timers
  // ------------------------------------------------------------------

  /** `t` is `s` with one more timer, due at `when`, under the next number. */
  ghost predicate Waits(s: State, when: real, name: string, host: string, asker: string, t: State) {
    var timer := Timer(when, Item(s.nextId, name, host));
    && t.nextId == s.nextId + 1 && t.deadlines == s.deadlines[s.nextId := when]
    && multiset(t.timers) == multiset(s.timers) + multiset{timer}
    && t.trace == s.trace + [Event(Schedule, s.now, s.nextId, name, asker)]
    && t.now == s.now && t.ready == s.ready && t.cancelled == s.cancelled && t.choices == s.choices
  }

  lemma {:induction false} PushPlaces(timers: seq<Timer>, t: Timer)
    ensures multiset(Push(timers, t)) == multiset(timers) + multiset{t}
  {
    if !(timers == [] || Before(t, timers[0])) {
      PushPlaces(timers[1..], t);
      assert timers == [timers[0]] + timers[1..];
    }
  }

  // ------------------------------------------------------------------
  // The clock
  // ------------------------------------------------------------------

  ghost predicate Live(s: State, t: Timer) {
    t in s.timers && t.item.id !in s.cancelled
  }

  /** The callback is that of a timer which was not cancelled and is due by `now`. */
  ghost predicate DueLive(s: State, now: real, item: Item) {
    exists t :: Live(s, t) && t.when <= now && t.item == item
  }

  /** Callbacks of timers, in the order the timers came due. */
  ghost predicate InDueOrder(ready: seq<Item>, deadlines: map<nat, real>) {
    && (forall i :: 0 <= i < |ready| ==> ready[i].id in deadlines)
    && (forall i, j :: 0 <= i < j < |ready| ==>
         NotAfter(deadlines[ready[i].id], ready[i].id, deadlines[ready[j].id], ready[j].id))
  }

  /** Collecting at `s.now` readies exactly the live timers that are due, and leaves those that are not. */
  lemma {:induction false} CollectTakes(s: State)
    requires Sorted(s.timers)
    ensures var c := Collect(s);
      && (forall x :: x in c.ready <==> x in s.ready || DueLive(s, s.now, x))
      && (forall t :: t in c.timers <==> t in s.timers && t.when > s.now)
      && c.now == s.now && c.deadlines == s.deadlines
    decreases |s.timers|
  {
    if s.timers != [] {
      assert s.timers == [s.timers[0]] + s.timers[1..];
      if s.timers[0].when <= s.now {
        CollectTakes(Release(s));
        DueSplit(s, Release(s));
      } else {
        forall x ensures !DueLive(s, s.now, x) {
        }
      }
    }
  }

  lemma DueSplit(s: State, r: State)
    requires s.timers != [] && s.timers[0].when <= s.now && r == Release(s)
    ensures forall x :: x in s.ready || DueLive(s, s.now, x) <==> x in r.ready || DueLive(r, s.now, x)
  {
    var t := s.timers[0];
    assert s.timers == [t] + s.timers[1..];
    assert t.item.id !in s.cancelled ==> Live(s, t);
    forall x | DueLive(s, s.now, x) && x !in r.ready ensures DueLive(r, s.now, x) {
      var u :| Live(s, u) && u.when <= s.now && u.item == x;
      assert Live(r, u);
    }
    forall x | DueLive(r, s.now, x) ensures DueLive(s, s.now, x) {
      var u :| Live(r, u) && u.when <= s.now && u.item == x;
      assert Live(s, u);
    }
  }

  /** ... in the order they come due. */
  lemma {:induction false} CollectOrders(s: State)
    requires Sorted(s.timers) && Remembered(s) && InDueOrder(s.ready, s.deadlines) && ReadyFirst(s)
    ensures InDueOrder(Collect(s).ready, s.deadlines)
    decreases |s.timers|
  {
    if s.timers != [] && s.timers[0].when <= s.now {
      ReleaseOrders(s);
      CollectOrders(Release(s));
    }
  }

  ghost predicate Remembered(s: State) {
    forall i :: 0 <= i < |s.timers| ==>
      s.timers[i].item.id in s.deadlines && s.deadlines[s.timers[i].item.id] == s.timers[i].when
  }

  /** What is ready already came due no later than what is not. */
  ghost predicate ReadyFirst(s: State)
    requires InDueOrder(s.ready, s.deadlines)
  {
    forall i, j :: 0 <= i < |s.ready| && 0 <= j < |s.timers| ==>
      NotAfter(s.deadlines[s.ready[i].id], s.ready[i].id, s.timers[j].when, s.timers[j].item.id)
  }

  lemma ReleaseOrders(s: State)
    requires s.timers != [] && Sorted(s.timers) && Remembered(s) && InDueOrder(s.ready, s.deadlines) && ReadyFirst(s)
    ensures var r := Release(s);
      Sorted(r.timers) && Remembered(r) && InDueOrder(r.ready, r.deadlines) && ReadyFirst(r) && r.deadlines == s.deadlines
  {
    hide NotAfter;
    var r := Release(s);
    assert forall j :: 0 <= j < |r.timers| ==> r.timers[j] == s.timers[j + 1];
  }

  lemma {:induction false} SweepLive(s: State)
    requires Sorted(s.timers) && Remembered(s)
    ensures var w := Sweep(s);
      && Sorted(w.timers) && Remembered(w) && w.now == s.now && w.ready == s.ready
      && w.cancelled == s.cancelled && w.deadlines == s.deadlines
      && (forall t :: Live(w, t) <==> Live(s, t)) && (forall t :: t in w.timers ==> t in s.timers)
      && (w.timers != [] ==> Live(w, w.timers[0]))
    decreases |s.timers|
  {
    if s.timers != [] {
      assert s.timers == [s.timers[0]] + s.timers[1..];
      if s.timers[0].item.id in s.cancelled {
        SweepLive(Ended(s, Cancel, s.timers[0].item).(timers := s.timers[1..]));
      }
    }
  }

  /** With nothing ready the clock moves to the earliest live deadline and no further, unless that is past
      already; exactly the live timers due by then become ready, in the order of their deadlines and, within
      one deadline, of their numbers; and with no live timer at all it does not move. */
  ghost predicate StopsAt(s: State, p: State) {
    && ((forall t :: !Live(s, t)) ==> p.now == s.now && p.ready == [])
    && (forall t :: Earliest(s, t) ==> p.now == if t.when > s.now then t.when else s.now)
    && (forall x :: x in p.ready <==> DueLive(s, p.now, x))
    && (forall t :: Live(s, t) && t.when > p.now ==> t in p.timers)
    && (forall t :: t in p.timers ==> t in s.timers && t.when > p.now)
    && InDueOrder(p.ready, p.deadlines)
  }

  ghost predicate Earliest(s: State, t: Timer) {
    Live(s, t) && forall u :: Live(s, u) ==> t.when <= u.when
  }

  lemma ClockStops(s: State)
    requires Inv(s) && s.ready == []
    ensures StopsAt(s, Prepared(s))
  {
    hide Sweep, Collect, Conserved, Ordered, Timed, NotAfter;
    assert Remembered(s);
    SweepLive(s);
    var w := Sweep(s);
    if w.timers != [] {
      var t := Ticked(w);
      CollectTakes(t);
      CollectOrders(t);
      LiveSame(s, w, t);
    }
  }

  lemma LiveSame(s: State, w: State, t: State)
    requires w.timers != [] && t == Ticked(w) && w.now == s.now && w.cancelled == s.cancelled && Sorted(w.timers)
    requires (forall u :: Live(w, u) <==> Live(s, u)) && Live(w, w.timers[0])
    ensures forall now, x :: DueLive(t, now, x) <==> DueLive(s, now, x)
    ensures forall u :: Earliest(s, u) ==> t.now == if u.when > s.now then u.when else s.now
  {
  }
}
