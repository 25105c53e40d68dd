/**
  The simulated event loop: a ready queue, a timer heap, a virtual clock, a
  trace, and a log of the one ordering decision each step makes.

  The heap is a list kept in the order heap pops would come out in.  Callbacks
  are a deterministic workload: what one does when it runs is a function of the
  trace up to that point.  Host clock offsets only enter where a caller's own
  reading of the time does.
*/
module Loop {
  /** One scheduled callback: its number, its trace label, and the host it is pinned to. */
  datatype Item = Item(id: nat, name: string, host: string)

  /** A callback waiting for its deadline, which is in true time. */
  datatype Timer = Timer(when: real, item: Item)

  datatype Kind = Schedule | Run | Cancel | Advance
  datatype Event = Event(kind: Kind, time: real, id: int, name: string, host: string)

  /** What a running callback can ask of the loop.  `offset` is how far its host's clock is out. */
  datatype Action =
    | CallSoon(name: string, host: string, asker: string)
    | CallLater(delay: real, name: string, host: string, asker: string)
    | CallAt(reading: real, offset: real, name: string, host: string, asker: string)
    | CancelHandle(id: nat)

  /** What the callback does, given the trace so far. */
  type Workload = (seq<Event>, Item) -> seq<Action>

  /** `deadlines` remembers the true deadline of everything that was ever a timer. */
  datatype State = State(
    now: real,
    nextId: nat,
    ready: seq<Item>,
    timers: seq<Timer>,
    cancelled: set<nat>,
    trace: seq<Event>,
    choices: seq<nat>,
    deadlines: map<nat, real>)

  const START := State(0.0, 0, [], [], {}, [], [], map[])

  // ------------------------------------------------------------------
  // Scheduling
  // ------------------------------------------------------------------

  predicate Before(a: Timer, b: Timer) {
    a.when < b.when || (a.when == b.when && a.item.id < b.item.id)
  }

  function Push(timers: seq<Timer>, t: Timer): seq<Timer> {
    if timers == [] || Before(t, timers[0]) then [t] + timers
    else [timers[0]] + Push(timers[1..], t)
  }

  function Soon(s: State, name: string, host: string, asker: string): State {
    s.(nextId := s.nextId + 1,
       ready := s.ready + [Item(s.nextId, name, host)],
       trace := s.trace + [Event(Schedule, s.now, s.nextId, name, asker)])
  }

  function AtTrue(s: State, when: real, name: string, host: string, asker: string): State {
    s.(nextId := s.nextId + 1,
       timers := Push(s.timers, Timer(when, Item(s.nextId, name, host))),
       deadlines := s.deadlines[s.nextId := when],
       trace := s.trace + [Event(Schedule, s.now, s.nextId, name, asker)])
  }

  function Perform(s: State, a: Action): State {
    match a
    case CallSoon(name, host, asker) => Soon(s, name, host, asker)
    case CallLater(delay, name, host, asker) => AtTrue(s, s.now + delay, name, host, asker)
    case CallAt(reading, offset, name, host, asker) => AtTrue(s, reading - offset, name, host, asker)
    case CancelHandle(id) => s.(cancelled := s.cancelled + {id})
  }

  function PerformAll(s: State, acts: seq<Action>): State
    decreases |acts|
  {
    if acts == [] then s else PerformAll(Perform(s, acts[0]), acts[1..])
  }

  // ------------------------------------------------------------------
  // Advancing the clock
  // ------------------------------------------------------------------

  function Ended(s: State, kind: Kind, item: Item): State {
    s.(trace := s.trace + [Event(kind, s.now, item.id, item.name, item.host)])
  }

  /** Cancelled timers at the head of the heap go first. */
  function Sweep(s: State): State
    decreases |s.timers|
  {
    if s.timers == [] || s.timers[0].item.id !in s.cancelled then s
    else Sweep(Ended(s, Cancel, s.timers[0].item).(timers := s.timers[1..]))
  }

  /** Every timer that is due becomes ready, or is skipped if it was cancelled. */
  function Collect(s: State): State
    decreases |s.timers|
  {
    if s.timers == [] || s.timers[0].when > s.now then s
    else Collect(Release(s))
  }

  function Release(s: State): State
    requires s.timers != []
  {
    var t := s.timers[0].item;
    if t.id in s.cancelled then Ended(s, Cancel, t).(timers := s.timers[1..])
    else s.(timers := s.timers[1..], ready := s.ready + [t])
  }

  function Ticked(s: State): State
    requires s.timers != []
  {
    var now := if s.timers[0].when > s.now then s.timers[0].when else s.now;
    s.(now := now, trace := s.trace + [Event(Advance, now, -1, "", "")])
  }

  /** The state a policy is asked in; a deadlock leaves the queue empty. */
  function Prepared(s: State): State {
    if s.ready != [] then s
    else
      var swept := Sweep(s);
      if swept.timers == [] then swept else Collect(Ticked(swept))
  }

  // ------------------------------------------------------------------
  // One step
  // ------------------------------------------------------------------

  function Drop<T>(s: seq<T>, i: nat): seq<T>
    requires i < |s|
  {
    s[..i] + s[i + 1..]
  }

  function Picked(s: State, index: nat): State
    requires index < |s.ready|
  {
    var item := s.ready[index];
    Ended(s.(choices := s.choices + [index], ready := Drop(s.ready, index)),
          if item.id in s.cancelled then Cancel else Run, item)
  }

  function Fire(work: Workload, s: State, index: nat): State
    requires index < |s.ready|
  {
    var item, picked := s.ready[index], Picked(s, index);
    if item.id in s.cancelled then picked else PerformAll(picked, work(picked.trace, item))
  }

  /** One step of the loop, with the policy's answer. */
  function Step(work: Workload, s: State, index: nat): State
    requires index < |Prepared(s).ready|
  {
    Fire(work, Prepared(s), index)
  }

  // ------------------------------------------------------------------
  // Conservation
  // ------------------------------------------------------------------

  function ReadyIds(ready: seq<Item>): seq<int> {
    seq(|ready|, i requires 0 <= i < |ready| => ready[i].id)
  }

  function TimerIds(timers: seq<Timer>): seq<int> {
    seq(|timers|, i requires 0 <= i < |timers| => timers[i].item.id)
  }

  /** The callbacks with a run or cancel event, in the order of those events. */
  function Finished(trace: seq<Event>): seq<int> {
    if trace == [] then []
    else
      var e := trace[|trace| - 1];
      Finished(trace[..|trace| - 1]) + if e.kind in {Run, Cancel} then [e.id] else []
  }

  function Scheduled(trace: seq<Event>): seq<int> {
    if trace == [] then []
    else
      var e := trace[|trace| - 1];
      Scheduled(trace[..|trace| - 1]) + if e.kind == Schedule then [e.id] else []
  }

  function UpTo(n: nat): seq<int> {
    seq(n, i requires 0 <= i < n => i)
  }

  /** Everything ever scheduled is in exactly one place, once. */
  ghost predicate Conserved(s: State) {
    && multiset(ReadyIds(s.ready)) + multiset(TimerIds(s.timers)) + multiset(Finished(s.trace))
       == multiset(UpTo(s.nextId))
    && Scheduled(s.trace) == UpTo(s.nextId)
  }

  /** A callback's run or cancel event comes after its schedule event. */
  ghost predicate Ordered(trace: seq<Event>) {
    forall j :: 0 <= j < |trace| && trace[j].kind in {Run, Cancel} ==>
      0 <= trace[j].id < |Scheduled(trace[..j])|
  }

  // ------------------------------------------------------------------
  // The clock
  // ------------------------------------------------------------------

  ghost predicate Timed(trace: seq<Event>, now: real) {
    && (forall j :: 0 <= j < |trace| ==> trace[j].time <= now)
    && (forall i, j :: 0 <= i < j < |trace| ==> trace[i].time <= trace[j].time)
  }

  /** The order timers come due in: by deadline, and those of one deadline by number. */
  ghost predicate NotAfter(when: real, id: nat, later: real, other: nat) {
    when < later || (when == later && id <= other)
  }

  ghost predicate Sorted(timers: seq<Timer>) {
    forall i, j :: 0 <= i < j < |timers| ==>
      NotAfter(timers[i].when, timers[i].item.id, timers[j].when, timers[j].item.id)
  }

  /** The true deadline, if the callback is or was a timer. */
  ghost predicate Due(id: int, deadlines: map<nat, real>, now: real) {
    id >= 0 && id in deadlines ==> deadlines[id] <= now
  }

  /** No timer is ready, and none has run, before its true deadline. */
  ghost predicate Punctual(s: State) {
    && (forall i :: 0 <= i < |s.ready| ==> s.ready[i].id < s.nextId && Due(s.ready[i].id, s.deadlines, s.now))
    && (forall i :: 0 <= i < |s.timers| ==>
         s.timers[i].item.id in s.deadlines && s.deadlines[s.timers[i].item.id] == s.timers[i].when)
    && (forall j :: 0 <= j < |s.trace| && s.trace[j].kind == Run ==>
         s.trace[j].id < s.nextId && Due(s.trace[j].id, s.deadlines, s.trace[j].time))
    && (forall id :: id in s.deadlines ==> id < s.nextId)
  }

  ghost predicate Inv(s: State) {
    && Conserved(s) && Ordered(s.trace)
    && Timed(s.trace, s.now) && Sorted(s.timers) && Punctual(s)
  }

  // ------------------------------------------------------------------
  // Each move keeps the invariant
  // ------------------------------------------------------------------

  lemma Logged(trace: seq<Event>, e: Event)
    ensures Finished(trace + [e]) == Finished(trace) + if e.kind in {Run, Cancel} then [e.id] else []
    ensures Scheduled(trace + [e]) == Scheduled(trace) + if e.kind == Schedule then [e.id] else []
  {
    assert (trace + [e])[..|trace|] == trace;
  }

  lemma LoggedOrdered(trace: seq<Event>, e: Event)
    requires Ordered(trace) && (e.kind in {Run, Cancel} ==> 0 <= e.id < |Scheduled(trace)|)
    ensures Ordered(trace + [e])
  {
    var t := trace + [e];
    forall j | 0 <= j < |t| && t[j].kind in {Run, Cancel} ensures 0 <= t[j].id < |Scheduled(t[..j])| {
      assert t[..j] == trace[..j];
      assert trace[..|trace|] == trace;
    }
  }

  lemma {:induction false} PushKeeps(timers: seq<Timer>, t: Timer)
    requires Sorted(timers)
    ensures Sorted(Push(timers, t)) && forall u :: u in Push(timers, t) <==> u == t || u in timers
  {
    if !(timers == [] || Before(t, timers[0])) {
      PushKeeps(timers[1..], t);
      assert timers == [timers[0]] + timers[1..];
      var p := Push(timers[1..], t);
      forall j | 0 <= j < |p| ensures NotAfter(timers[0].when, timers[0].item.id, p[j].when, p[j].item.id) {
        assert p[j] in p;
      }
    }
  }

  lemma {:induction false} PushIds(timers: seq<Timer>, t: Timer)
    ensures multiset(TimerIds(Push(timers, t))) == multiset(TimerIds(timers)) + multiset{t.item.id}
  {
    hide TimerIds;
    if timers == [] || Before(t, timers[0]) {
      TimerIdsSplit(t, timers);
    } else {
      PushIds(timers[1..], t);
      assert timers == [timers[0]] + timers[1..];
      TimerIdsSplit(timers[0], timers[1..]);
      TimerIdsSplit(timers[0], Push(timers[1..], t));
    }
  }

  lemma TimerIdsSplit(t: Timer, timers: seq<Timer>)
    ensures TimerIds([t] + timers) == [t.item.id] + TimerIds(timers)
  {
  }

  lemma ReadyIdsAppend(ready: seq<Item>, item: Item)
    ensures ReadyIds(ready + [item]) == ReadyIds(ready) + [item.id]
  {
  }

  lemma ReadyIdsDrop(ready: seq<Item>, i: nat)
    requires i < |ready|
    ensures multiset(ReadyIds(ready)) == multiset(ReadyIds(Drop(ready, i))) + multiset{ready[i].id}
  {
    var ids := ReadyIds(ready);
    assert ids == ids[..i] + [ids[i]] + ids[i + 1..];
    assert ReadyIds(Drop(ready, i)) == ids[..i] + ids[i + 1..];
  }

  lemma UpToNext(n: nat)
    ensures UpTo(n + 1) == UpTo(n) + [n]
  {
  }

  lemma SoonConserves(s: State, name: string, host: string, asker: string)
    requires Conserved(s)
    ensures Conserved(Soon(s, name, host, asker))
  {
    Logged(s.trace, Event(Schedule, s.now, s.nextId, name, asker));
    ReadyIdsAppend(s.ready, Item(s.nextId, name, host));
    UpToNext(s.nextId);
  }

  lemma AtConserves(s: State, when: real, name: string, host: string, asker: string)
    requires Conserved(s)
    ensures Conserved(AtTrue(s, when, name, host, asker))
  {
    hide Push, TimerIds, ReadyIds, Finished, Scheduled, UpTo, Sorted;
    Logged(s.trace, Event(Schedule, s.now, s.nextId, name, asker));
    PushIds(s.timers, Timer(when, Item(s.nextId, name, host)));
    UpToNext(s.nextId);
  }

  lemma InUpTo(x: int, n: nat)
    requires x in multiset(UpTo(n))
    ensures 0 <= x < n
  {
    assert x in UpTo(n);
  }

  lemma SweptConserves(s: State)
    requires Conserved(s) && s.timers != []
    ensures Conserved(Ended(s, Cancel, s.timers[0].item).(timers := s.timers[1..]))
    ensures s.timers[0].item.id < s.nextId
  {
    hide TimerIds, ReadyIds, Finished, Scheduled, UpTo;
    var t := s.timers[0];
    assert s.timers == [t] + s.timers[1..];
    TimerIdsSplit(t, s.timers[1..]);
    Logged(s.trace, Event(Cancel, s.now, t.item.id, t.item.name, t.item.host));
    InUpTo(t.item.id, s.nextId);
  }

  lemma ReleaseConserves(s: State)
    requires Conserved(s) && s.timers != []
    ensures Conserved(Release(s))
  {
    hide TimerIds, ReadyIds, Finished, Scheduled, UpTo;
    SweptConserves(s);
    var t := s.timers[0];
    assert s.timers == [t] + s.timers[1..];
    TimerIdsSplit(t, s.timers[1..]);
    ReadyIdsAppend(s.ready, t.item);
  }

  lemma PickConserves(s: State, index: nat)
    requires Conserved(s) && index < |s.ready|
    ensures Conserved(Picked(s, index)) && s.ready[index].id < s.nextId
  {
    hide TimerIds, ReadyIds, Finished, Scheduled, UpTo, Drop;
    var item := s.ready[index];
    var kind := if item.id in s.cancelled then Cancel else Run;
    Logged(s.trace, Event(kind, s.now, item.id, item.name, item.host));
    ReadyIdsDrop(s.ready, index);
    InUpTo(item.id, s.nextId);
  }

  lemma SoonKeeps(s: State, name: string, host: string, asker: string)
    requires Inv(s)
    ensures Inv(Soon(s, name, host, asker))
  {
    hide Conserved, Ordered;
    SoonConserves(s, name, host, asker);
    LoggedOrdered(s.trace, Event(Schedule, s.now, s.nextId, name, asker));
  }

  lemma AtKeeps(s: State, when: real, name: string, host: string, asker: string)
    requires Inv(s)
    ensures Inv(AtTrue(s, when, name, host, asker))
  {
    hide Conserved, Ordered, Punctual, Push;
    AtConserves(s, when, name, host, asker);
    LoggedOrdered(s.trace, Event(Schedule, s.now, s.nextId, name, asker));
    PushKeeps(s.timers, Timer(when, Item(s.nextId, name, host)));
    AtPunctual(s, when, name, host, asker);
  }

  lemma AtPunctual(s: State, when: real, name: string, host: string, asker: string)
    requires Punctual(s) && Sorted(s.timers)
    ensures Punctual(AtTrue(s, when, name, host, asker))
  {
    hide Push;
    var t := Timer(when, Item(s.nextId, name, host));
    var h := AtTrue(s, when, name, host, asker);
    PushKeeps(s.timers, t);
    forall i | 0 <= i < |h.timers|
      ensures h.timers[i].item.id in h.deadlines && h.deadlines[h.timers[i].item.id] == h.timers[i].when
    {
      assert h.timers[i] in h.timers;
    }
  }

  lemma EndKeeps(s: State, kind: Kind, item: Item)
    requires Ordered(s.trace) && Timed(s.trace, s.now) && Conserved(s)
    requires kind in {Run, Cancel} && item.id < s.nextId
    ensures var t := Ended(s, kind, item).trace; Ordered(t) && Timed(t, s.now)
  {
    hide Ordered;
    LoggedOrdered(s.trace, Event(kind, s.now, item.id, item.name, item.host));
  }

  lemma SweptKeeps(s: State)
    requires Inv(s) && s.timers != []
    ensures Inv(Ended(s, Cancel, s.timers[0].item).(timers := s.timers[1..]))
  {
    hide Ordered, Conserved, Timed;
    SweptConserves(s);
    EndKeeps(s, Cancel, s.timers[0].item);
  }

  lemma ReleaseKeeps(s: State)
    requires Inv(s) && s.timers != [] && s.timers[0].when <= s.now
    ensures Inv(Release(s))
  {
    hide Ordered, Conserved, Timed, Punctual;
    SweptConserves(s);
    ReleaseConserves(s);
    EndKeeps(s, Cancel, s.timers[0].item);
    ReleasePunctual(s);
  }

  lemma ReleasePunctual(s: State)
    requires Punctual(s) && s.timers != [] && s.timers[0].when <= s.now
    ensures Punctual(Release(s))
  {
  }

  lemma TickKeeps(s: State)
    requires Inv(s) && s.timers != []
    ensures Inv(Ticked(s)) && Ticked(s).now >= s.now
  {
    hide Conserved, Ordered, Timed, Punctual;
    LoggedOrdered(s.trace, Event(Advance, Ticked(s).now, -1, "", ""));
    TickConserves(s);
    TickTimed(s);
    TickPunctual(s);
  }

  lemma TickConserves(s: State)
    requires Conserved(s) && s.timers != []
    ensures Conserved(Ticked(s))
  {
    hide Finished, Scheduled, ReadyIds, TimerIds, UpTo;
    Logged(s.trace, Event(Advance, Ticked(s).now, -1, "", ""));
    assert Finished(Ticked(s).trace) == Finished(s.trace);
    assert Scheduled(Ticked(s).trace) == Scheduled(s.trace);
  }

  lemma TickTimed(s: State)
    requires Timed(s.trace, s.now) && s.timers != []
    ensures Timed(Ticked(s).trace, Ticked(s).now) && Ticked(s).now >= s.now
  {
  }

  lemma TickPunctual(s: State)
    requires Punctual(s) && s.timers != []
    ensures Punctual(Ticked(s))
  {
  }

  lemma PickKeeps(s: State, index: nat)
    requires Inv(s) && index < |s.ready|
    ensures Inv(Picked(s, index))
  {
    hide Ordered, Conserved, Timed, Punctual;
    PickConserves(s, index);
    var item := s.ready[index];
    EndKeeps(s, if item.id in s.cancelled then Cancel else Run, item);
    PickPunctual(s, index);
  }

  lemma PickPunctual(s: State, index: nat)
    requires Punctual(s) && index < |s.ready|
    ensures Punctual(Picked(s, index))
  {
    hide Due;
    var h := Picked(s, index);
    forall i | 0 <= i < |h.ready| ensures h.ready[i].id < h.nextId && Due(h.ready[i].id, h.deadlines, h.now) {
      assert h.ready[i] == s.ready[if i < index then i else i + 1];
    }
  }

  // ------------------------------------------------------------------
  // Steps and runs
  // ------------------------------------------------------------------

  lemma {:induction false} SweepKeeps(s: State)
    requires Inv(s)
    ensures Inv(Sweep(s)) && Sweep(s).now == s.now && Sweep(s).ready == s.ready && s.trace <= Sweep(s).trace
    ensures Sweep(s).cancelled == s.cancelled
    ensures Sweep(s).timers == [] || Sweep(s).timers[0].item.id !in s.cancelled
    decreases |s.timers|
  {
    hide Inv;
    if s.timers != [] && s.timers[0].item.id in s.cancelled {
      SweptKeeps(s);
      SweepKeeps(Ended(s, Cancel, s.timers[0].item).(timers := s.timers[1..]));
    }
  }

  lemma {:induction false} CollectKeeps(s: State)
    requires Inv(s)
    ensures Inv(Collect(s)) && Collect(s).now == s.now && s.ready <= Collect(s).ready && s.trace <= Collect(s).trace
    decreases |s.timers|
  {
    hide Inv;
    if s.timers != [] && s.timers[0].when <= s.now {
      ReleaseKeeps(s);
      CollectKeeps(Release(s));
    }
  }

  /** Whatever the queue looked like, a policy is asked only when there is something to choose from,
      and the loop gives up only when there is nothing left at all. */
  lemma PreparedKeeps(s: State)
    requires Inv(s)
    ensures var p := Prepared(s);
      && Inv(p) && p.now >= s.now && s.trace <= p.trace && (s.ready != [] ==> p == s)
      && (p.ready == [] <==> s.ready == [] && forall i :: 0 <= i < |s.timers| ==> s.timers[i].item.id in s.cancelled)
  {
    hide Inv;
    if s.ready == [] {
      SweepKeeps(s);
      SweepAll(s);
      var swept := Sweep(s);
      if swept.timers != [] {
        TickKeeps(swept);
        ReleaseKeeps(Ticked(swept));
        CollectKeeps(Ticked(swept));
        CollectKeeps(Release(Ticked(swept)));
      }
    }
  }

  /** The sweep empties the heap exactly when everything in it was cancelled. */
  lemma {:induction false} SweepAll(s: State)
    ensures Sweep(s).timers == [] <==> forall i :: 0 <= i < |s.timers| ==> s.timers[i].item.id in s.cancelled
    decreases |s.timers|
  {
    if s.timers != [] && s.timers[0].item.id in s.cancelled {
      var rest := Ended(s, Cancel, s.timers[0].item).(timers := s.timers[1..]);
      SweepAll(rest);
      assert forall i :: 1 <= i < |s.timers| ==> s.timers[i] == rest.timers[i - 1];
      assert forall i :: 0 <= i < |rest.timers| ==> rest.timers[i] == s.timers[i + 1];
    }
  }

  lemma {:induction false} PerformKeeps(s: State, acts: seq<Action>)
    requires Inv(s)
    ensures Inv(PerformAll(s, acts)) && PerformAll(s, acts).now == s.now && s.trace <= PerformAll(s, acts).trace
    ensures PerformAll(s, acts).choices == s.choices
    decreases |acts|
  {
    hide Inv;
    if acts != [] {
      ActionKeeps(s, acts[0]);
      PerformKeeps(Perform(s, acts[0]), acts[1..]);
    }
  }

  lemma ActionKeeps(s: State, a: Action)
    requires Inv(s)
    ensures Inv(Perform(s, a))
  {
    hide Inv;
    match a
    case CallSoon(name, host, asker) => SoonKeeps(s, name, host, asker);
    case CallLater(delay, name, host, asker) => AtKeeps(s, s.now + delay, name, host, asker);
    case CallAt(reading, offset, name, host, asker) => AtKeeps(s, reading - offset, name, host, asker);
    case CancelHandle(id) => CancelKeeps(s, id);
  }

  lemma CancelKeeps(s: State, id: nat)
    requires Inv(s)
    ensures Inv(s.(cancelled := s.cancelled + {id}))
  {
  }

  lemma StepKeeps(work: Workload, s: State, index: nat)
    requires Inv(s) && index < |Prepared(s).ready|
    ensures var t := Step(work, s, index);
      Inv(t) && t.now >= s.now && s.trace <= t.trace && t.choices == s.choices + [index]
  {
    hide Inv, Prepared;
    var p := Prepared(s);
    PreparedKeeps(s);
    PreparedChoices(s);
    PickKeeps(p, index);
    var picked := Picked(p, index);
    PerformKeeps(picked, work(picked.trace, p.ready[index]));
  }

  lemma PreparedChoices(s: State)
    ensures Prepared(s).choices == s.choices
  {
    SweepChoices(s);
    if Sweep(s).timers != [] {
      CollectChoices(Ticked(Sweep(s)));
    }
  }

  lemma {:induction false} SweepChoices(s: State)
    ensures Sweep(s).choices == s.choices
    decreases |s.timers|
  {
    if s.timers != [] && s.timers[0].item.id in s.cancelled {
      SweepChoices(Ended(s, Cancel, s.timers[0].item).(timers := s.timers[1..]));
    }
  }

  lemma {:induction false} CollectChoices(s: State)
    ensures Collect(s).choices == s.choices
    decreases |s.timers|
  {
    if s.timers != [] && s.timers[0].when <= s.now {
      CollectChoices(Release(s));
    }
  }

  /** A run: what was scheduled before it started, and one legal choice after another. */
  datatype Trail = Trail(states: seq<State>, picks: seq<nat>)

  ghost predicate IsRun(work: Workload, boot: seq<Action>, r: Trail) {
    && |r.states| == |r.picks| + 1
    && r.states[0] == PerformAll(START, boot)
    && forall i :: 0 <= i < |r.picks| ==> Moves(work, r.states[i], r.picks[i], r.states[i + 1])
  }

  ghost predicate Moves(work: Workload, s: State, pick: nat, t: State) {
    pick < |Prepared(s).ready| && t == Step(work, s, pick)
  }

  /** In every run of every policy, every state conserves its callbacks, keeps its trace in order
      and its timers punctual, and remembers exactly the choices made. */
  lemma {:induction false} RunKeeps(work: Workload, boot: seq<Action>, r: Trail, k: nat)
    requires IsRun(work, boot, r) && k < |r.states|
    ensures Inv(r.states[k]) && r.states[k].choices == r.picks[..k]
  {
    hide Step, Prepared, Inv, PerformAll;
    if k == 0 {
      StartKeeps();
      PerformKeeps(START, boot);
    } else {
      RunKeeps(work, boot, r, k - 1);
      assert Moves(work, r.states[k - 1], r.picks[k - 1], r.states[k]);
      StepKeeps(work, r.states[k - 1], r.picks[k - 1]);
      assert r.picks[..k] == r.picks[..k - 1] + [r.picks[k - 1]];
    }
  }

  lemma StartKeeps()
    ensures Inv(START)
  {
  }

  /** The clock never goes back and the trace is only added to. */
  lemma {:induction false} ClockAdvances(work: Workload, boot: seq<Action>, r: Trail, i: nat, k: nat)
    requires IsRun(work, boot, r) && i <= k < |r.states|
    ensures r.states[i].now <= r.states[k].now && r.states[i].trace <= r.states[k].trace
  {
    hide Step, Prepared, Inv;
    if i < k {
      ClockAdvances(work, boot, r, i, k - 1);
      RunKeeps(work, boot, r, k - 1);
      assert Moves(work, r.states[k - 1], r.picks[k - 1], r.states[k]);
      StepKeeps(work, r.states[k - 1], r.picks[k - 1]);
    }
  }

  /** Conservation, callback by callback: it was scheduled once, and is in one place, once. */
  lemma OncePlaced(s: State, id: nat)
    requires Inv(s) && id < s.nextId
    ensures multiset(Scheduled(s.trace))[id] == 1
    ensures multiset(ReadyIds(s.ready))[id] + multiset(TimerIds(s.timers))[id] + multiset(Finished(s.trace))[id] == 1
  {
    hide ReadyIds, TimerIds, Finished, Scheduled;
    OnceIn(id, s.nextId);
  }

  lemma {:induction false} OnceIn(id: nat, n: nat)
    ensures multiset(UpTo(n))[id] == if id < n then 1 else 0
  {
    if n > 0 {
      OnceIn(id, n - 1);
      UpToNext(n - 1);
    }
  }
}
