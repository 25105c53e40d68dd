/** The queue at work: one job from its submit to its acknowledgement and its one commit. */
module JobExample {
  import opened Helpers
  import B = JobBroker
  import S = EffectStore
  import opened JobKeys
  import opened JobQueue

  lemma Walk(r: Run, s: Step) returns (q: Run)
    requires IsRun(r) && Enabled(r.states[|r.steps|], s)
    ensures q == Run(r.states + [Next(r.states[|r.steps|], s)], r.steps + [s]) && IsRun(q)
  {
    hide Enabled, Next, Initial;
    q := Run(r.states + [Next(r.states[|r.steps|], s)], r.steps + [s]);
    forall i | 0 <= i < |q.steps|
      ensures Enabled(q.states[i], q.steps[i]) && q.states[i + 1] == Next(q.states[i], q.steps[i])
    {
      if i < |r.steps| {
        assert Enabled(r.states[i], r.steps[i]) && r.states[i + 1] == Next(r.states[i], r.steps[i]);
      }
    }
  }

  function End(r: Run): System
    requires r.states != []
  {
    r.states[|r.states| - 1]
  }

  /** The job is queued, and its client knows it. */
  ghost predicate IsQueued(x: System, payload: B.Payload) {
    && x.broker.order == [1] && x.broker.limit == None && x.broker.timers == map[]
    && x.broker.jobs == map[1 := B.Job(Key("c", 1), payload, B.Queued, 0, 0, 0.0, None)]
    && x.broker.nextTimer == 0 && x.store == S.EMPTY && x.now == 0.0 && |x.calls| == 1 && x.workers == map["w" := Idle]
    && x.clients == map["c" := Client(1, map[], map[Key("c", 1) := 1])]
  }

  /** The submit is on its way to an empty broker. */
  ghost predicate IsSent(x: System, payload: B.Payload) {
    var key := Key("c", 1);
    && x.broker == B.Fresh(None, 1.0) && x.store == S.EMPTY && x.now == 0.0 && x.workers == map["w" := Idle]
    && x.calls == [Call(SubmitReq(key, payload), None)]
    && x.clients == map["c" := Client(1, map[key := Submission(payload, Some(0))], map[])]
  }

  lemma Sends(payload: B.Payload) returns (r: Run)
    ensures IsRun(r) && r.states != [] && IsSent(End(r), payload)
  {
    hide Key;
    var key := Key("c", 1);
    var x := System(B.Fresh(None, 1.0), S.EMPTY, [], map["c" := Client(0, map[], map[])], map["w" := Idle], 0.0, map[]);
    r := Run([x], []);
    r := Walk(r, Begin("c", payload));
    assert End(r).clients == map["c" := Client(1, map[key := Submission(payload, None)], map[])];
    r := Walk(r, Send("c", key));
    assert map[key := Submission(payload, None)][key := Submission(payload, Some(0))] == map[key := Submission(payload, Some(0))];
  }

  lemma Submits(payload: B.Payload) returns (r: Run)
    ensures IsRun(r) && r.states != [] && IsQueued(End(r), payload)
  {
    hide Key;
    var key := Key("c", 1);
    r := Sends(payload);
    r := Walk(r, Deliver(0));
    assert End(r).calls == [Call(SubmitReq(key, payload), Some(Submitted(1)))];
    r := Walk(r, Hear("c", key));
    assert map[key := Submission(payload, Some(0))] - {key} == map[];
    assert map[][key := 1] == map[key := 1];
  }

  /** The worker holds the job's first lease, and has told the store. */
  ghost predicate IsWorking(x: System, payload: B.Payload) {
    && x.broker.jobs == map[1 := B.Job(Key("c", 1), payload, B.Leased, 1, 1, 0.0, Some(0))]
    && x.broker.timers.Keys == {0} && x.store.committed == {} && x.store.commits == [] && x.store.newest == map[1 := 1]
    && |x.calls| == 2 && x.workers == map["w" := Working(1, 1, payload)]
  }

  lemma Starts(q: Run, payload: B.Payload) returns (r: Run)
    requires IsRun(q) && q.states != [] && IsQueued(End(q), payload)
    ensures IsRun(r) && r.states != [] && IsWorking(End(r), payload) && End(r).clients == End(q).clients
  {
    hide Key;
    r := Walk(q, Ask("w"));
    assert B.NextReady(End(r).broker.jobs, [1], 0.0) == Some(1);
    B.LeaseIs(End(r).broker, 1);
    r := Walk(r, Deliver(1));
    assert End(r).calls[1] == Call(AcquireReq, Some(Granted(1, 1, payload)));
    assert End(r).broker.jobs == map[1 := B.Job(Key("c", 1), payload, B.Leased, 1, 1, 0.0, Some(0))];
    r := Walk(r, Start("w"));
    assert End(r).store.newest == map[1 := 1];
  }

  lemma Finishes(q: Run, payload: B.Payload) returns (r: Run)
    requires IsRun(q) && q.states != [] && IsWorking(End(q), payload) && !payload.poison
    ensures IsRun(r) && r.states != [] && End(r).clients == End(q).clients
    ensures 1 in End(r).broker.jobs && End(r).broker.jobs[1].state == B.Done
    ensures End(r).store.commits == [S.Commit(1, 1, payload.value, false)]
  {
    hide Key;
    r := Walk(q, Write("w"));
    assert End(r).workers == map["w" := Finishing(1, 1)];
    r := Walk(r, Report("w"));
    assert End(r).calls[2] == Call(CompleteReq(1, 1), None);
    r := Walk(r, Deliver(2));
  }

  /** Whatever it is, as long as it is not poison, a job can be submitted, acknowledged, worked on once and
      found done, with its effect in the store. */
  lemma OneJobDone(payload: B.Payload) returns (r: Run)
    requires !payload.poison
    ensures IsRun(r) && r.states != []
    ensures var x := End(r);
      && 1 in x.broker.jobs && x.broker.jobs[1].state == B.Done
      && x.store.commits == [S.Commit(1, 1, payload.value, false)]
      && "c" in x.clients && x.clients["c"].acknowledged == map[Key("c", 1) := 1]
  {
    hide IsRun, Key;
    r := Submits(payload);
    r := Starts(r, payload);
    r := Finishes(r, payload);
  }
}
