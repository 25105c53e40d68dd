/** Every step of the job queue keeps its invariant, and what that means end to end. */
module JobProof {
  import opened Helpers
  import B = JobBroker
  import S = EffectStore
  import opened JobKeys
  import opened JobQueue

  // ------------------------------------------------------------------
  // What stays true as the history grows
  // ------------------------------------------------------------------

  ghost predicate MapGrows<K, V>(a: map<K, V>, b: map<K, V>) {
    forall k :: k in a ==> k in b && b[k] == a[k]
  }

  lemma CallStays(call: Call, b: B.Broker, c: B.Broker, s: set<nat>, t: set<nat>,
                  u: map<string, B.Payload>, v: map<string, B.Payload>)
    requires CallOk(call, b, s, u) && B.Evolves(b, c) && s <= t && MapGrows(u, v)
    ensures CallOk(call, c, t, v)
  {
  }

  lemma CallsStay(calls: seq<Call>, b: B.Broker, c: B.Broker, s: set<nat>, t: set<nat>,
                  u: map<string, B.Payload>, v: map<string, B.Payload>)
    requires CallsOk(calls, b, s, u) && B.Evolves(b, c) && s <= t && MapGrows(u, v)
    ensures CallsOk(calls, c, t, v)
  {
    hide CallOk;
    forall k | 0 <= k < |calls| ensures CallOk(calls[k], c, t, v) {
      CallStays(calls[k], b, c, s, t, u, v);
    }
  }

  /** Calls only gain members and answers. */
  ghost predicate CallsGrow(a: seq<Call>, b: seq<Call>) {
    |a| <= |b| && forall k :: 0 <= k < |a| ==> b[k].request == a[k].request
  }

  lemma WorkersStay(ws: map<string, Worker>, calls: seq<Call>, after: seq<Call>, b: B.Broker, c: B.Broker,
                    s: set<nat>, t: set<nat>)
    requires WorkersOk(ws, calls, b.jobs, s) && CallsGrow(calls, after) && B.Evolves(b, c) && s <= t
    ensures WorkersOk(ws, after, c.jobs, t)
  {
    forall w | w in ws ensures WorkerOk(ws[w], after, c.jobs, t) {
      assert WorkerOk(ws[w], calls, b.jobs, s);
    }
  }

  lemma ClientsStay(cs: map<string, Client>, calls: seq<Call>, after: seq<Call>,
                    a: map<string, nat>, b: map<string, nat>, u: map<string, B.Payload>, v: map<string, B.Payload>)
    requires ClientsOk(cs, calls, a, u) && CallsGrow(calls, after) && MapGrows(a, b) && MapGrows(u, v)
    ensures ClientsOk(cs, after, b, v)
  {
    hide Key;
    forall c | c in cs ensures ClientOk(c, cs[c], after, b, v) {
      assert ClientOk(c, cs[c], calls, a, u);
      forall k | k in cs[c].pending ensures PendingOk(c, cs[c].counter, k, cs[c].pending[k], after, v) {
        assert PendingOk(c, cs[c].counter, k, cs[c].pending[k], calls, u);
      }
    }
  }

  lemma CommitsStay(commits: seq<S.Commit>, b: B.Broker, c: B.Broker)
    requires CommitsTrue(commits, b.jobs) && B.Evolves(b, c)
    ensures CommitsTrue(commits, c.jobs)
  {
    forall i | 0 <= i < |commits| ensures CommitTrue(commits[i], c.jobs) {
      assert CommitTrue(commits[i], b.jobs);
    }
  }

  /** The parts of the invariant that follow from growth alone. */
  lemma GrowthKeeps(x: System, y: System)
    requires Inv(x) && B.Evolves(x.broker, y.broker) && x.store.committed <= y.store.committed
    requires MapGrows(x.submitted, y.submitted) && CallsGrow(x.calls, y.calls)
    ensures CallsOk(x.calls, y.broker, y.store.committed, y.submitted)
    ensures WorkersOk(x.workers, y.calls, y.broker.jobs, y.store.committed)
    ensures ClientsOk(x.clients, y.calls, y.broker.byKey, y.submitted)
    ensures CommitsTrue(x.store.commits, y.broker.jobs)
  {
    hide CallsOk, WorkersOk, ClientsOk, CommitsTrue, LeasesDiffer, JobsTrue, KeysBegun;
    CallsStay(x.calls, x.broker, y.broker, x.store.committed, y.store.committed, x.submitted, y.submitted);
    WorkersStay(x.workers, x.calls, y.calls, x.broker, y.broker, x.store.committed, y.store.committed);
    assert MapGrows(x.broker.byKey, y.broker.byKey);
    ClientsStay(x.clients, x.calls, y.calls, x.broker.byKey, y.broker.byKey, x.submitted, y.submitted);
    CommitsStay(x.store.commits, x.broker, y.broker);
  }

  lemma Still(b: B.Broker)
    ensures B.Evolves(b, b)
  {
  }

  // ------------------------------------------------------------------
  // Calls
  // ------------------------------------------------------------------

  /** A new request changes nothing but the list of calls. */
  lemma PlacedKeeps(x: System, request: Request)
    requires Inv(x) && CallOk(Call(request, None), x.broker, x.store.committed, x.submitted)
    ensures Inv(Placed(x, request))
  {
    hide CallOk, WorkersOk, ClientsOk, B.Inv, S.Inv;
    var y := Placed(x, request);
    Still(x.broker);
    GrowthKeeps(x, y);
    PlacedDiffers(x.calls, request);
  }

  lemma PlacedDiffers(calls: seq<Call>, request: Request)
    requires LeasesDiffer(calls)
    ensures LeasesDiffer(calls + [Call(request, None)])
  {
  }

  lemma WorkerPut(ws: map<string, Worker>, w: string, me: Worker, calls: seq<Call>, jobs: B.Jobs, committed: set<nat>)
    requires WorkersOk(ws, calls, jobs, committed) && WorkerOk(me, calls, jobs, committed)
    ensures WorkersOk(ws[w := me], calls, jobs, committed)
  {
  }

  lemma ClientPut(cs: map<string, Client>, c: string, me: Client, calls: seq<Call>, byKey: map<string, nat>,
                  submitted: map<string, B.Payload>)
    requires ClientsOk(cs, calls, byKey, submitted) && ClientOk(c, me, calls, byKey, submitted)
    ensures ClientsOk(cs[c := me], calls, byKey, submitted)
  {
  }

  // ------------------------------------------------------------------
  // Clients
  // ------------------------------------------------------------------

  lemma BegunStays(submitted: map<string, B.Payload>, cs: map<string, Client>, c: string, me: Client)
    requires KeysBegun(submitted, cs) && c in cs && cs[c].counter <= me.counter
    ensures KeysBegun(submitted, cs[c := me])
  {
    forall k | k in submitted ensures BegunBy(k, cs[c := me]) {
      assert BegunBy(k, cs);
      var d, n: nat :| d in cs && 0 < n <= cs[d].counter && k == Key(d, n);
      assert d in cs[c := me] && 0 < n <= cs[c := me][d].counter;
    }
  }

  /** A new logical submit gets a key nobody has used. */
  lemma KeyIsNew(submitted: map<string, B.Payload>, cs: map<string, Client>, c: string)
    requires KeysBegun(submitted, cs) && c in cs
    ensures Key(c, cs[c].counter + 1) !in submitted
  {
    var k := Key(c, cs[c].counter + 1);
    if k in submitted {
      assert BegunBy(k, cs);
      var d, n: nat :| d in cs && 0 < n <= cs[d].counter && k == Key(d, n);
      KeysDiffer(c, cs[c].counter + 1, d, n);
    }
  }

  lemma BeginKeeps(x: System, c: string, payload: B.Payload)
    requires Inv(x) && Enabled(x, Begin(c, payload))
    ensures Inv(Next(x, Begin(c, payload)))
  {
    hide CallsOk, WorkersOk, ClientsOk, CommitsTrue, LeasesDiffer, JobsTrue, KeysBegun, B.Inv, S.Inv, Key;
    var y := Next(x, Begin(c, payload));
    var me := y.clients[c];
    KeyIsNew(x.submitted, x.clients, c);
    Still(x.broker);
    GrowthKeeps(x, y);
    BegunStays(x.submitted, x.clients, c, me);
    BegunAdds(x.submitted, y.clients, c, payload);
    JobsStayTrue(x.broker.jobs, x.store.committed, x.submitted, y.submitted);
    ClientAt(x, c);
    ClientBegins(c, x.clients[c], payload, x.calls, x.broker.byKey, x.submitted);
    ClientPut(x.clients, c, me, x.calls, x.broker.byKey, y.submitted);
  }

  /** Another submit joins those under way. */
  lemma ClientBegins(name: string, c: Client, payload: B.Payload, calls: seq<Call>, byKey: map<string, nat>,
                     submitted: map<string, B.Payload>)
    requires ClientOk(name, c, calls, byKey, submitted) && Key(name, c.counter + 1) !in submitted
    ensures var key := Key(name, c.counter + 1);
      ClientOk(name, c.(counter := c.counter + 1, pending := c.pending[key := Submission(payload, None)]), calls, byKey,
               submitted[key := payload])
  {
    hide Key;
    var key := Key(name, c.counter + 1);
    var d := c.(counter := c.counter + 1, pending := c.pending[key := Submission(payload, None)]);
    forall k | k in d.pending ensures PendingOk(name, d.counter, k, d.pending[k], calls, submitted[key := payload]) {
      if k != key {
        assert PendingOk(name, c.counter, k, c.pending[k], calls, submitted);
      }
    }
  }

  lemma ClientAt(x: System, c: string)
    requires Inv(x) && c in x.clients
    ensures ClientOk(c, x.clients[c], x.calls, x.broker.byKey, x.submitted)
  {
  }

  lemma BegunAdds(submitted: map<string, B.Payload>, cs: map<string, Client>, c: string, payload: B.Payload)
    requires KeysBegun(submitted, cs) && c in cs && cs[c].counter > 0
    ensures KeysBegun(submitted[Key(c, cs[c].counter) := payload], cs)
  {
    hide Key;
    assert BegunBy(Key(c, cs[c].counter), cs);
  }

  lemma JobsStayTrue(jobs: B.Jobs, committed: set<nat>, u: map<string, B.Payload>, v: map<string, B.Payload>)
    requires JobsTrue(jobs, committed, u) && MapGrows(u, v)
    ensures JobsTrue(jobs, committed, v)
  {
  }

  lemma SendKeeps(x: System, c: string, key: string)
    requires Inv(x) && Enabled(x, Send(c, key))
    ensures Inv(Next(x, Send(c, key)))
  {
    hide CallsOk, WorkersOk, ClientsOk, CommitsTrue, LeasesDiffer, JobsTrue, KeysBegun, B.Inv, S.Inv, Key;
    var me := x.clients[c];
    ClientAt(x, c);
    assert PendingOk(c, me.counter, key, me.pending[key], x.calls, x.submitted);
    var request := SubmitReq(key, me.pending[key].payload);
    PlacedKeeps(x, request);
    var y := Placed(x, request);
    ClientAt(y, c);
    var you := Next(x, Send(c, key)).clients[c];
    forall k | k in you.pending ensures PendingOk(c, you.counter, k, you.pending[k], y.calls, y.submitted) {
      assert PendingOk(c, me.counter, k, me.pending[k], y.calls, y.submitted);
    }
    ClientPut(y.clients, c, you, y.calls, y.broker.byKey, y.submitted);
    BegunStays(y.submitted, y.clients, c, you);
  }

  lemma HearKeeps(x: System, c: string, key: string)
    requires Inv(x) && Enabled(x, Hear(c, key))
    ensures Inv(Next(x, Hear(c, key)))
  {
    hide WorkersOk, ClientsOk, CommitsTrue, LeasesDiffer, JobsTrue, KeysBegun, B.Inv, S.Inv, Key;
    ClientAt(x, c);
    var me, you := x.clients[c], Next(x, Hear(c, key)).clients[c];
    assert PendingOk(c, me.counter, key, me.pending[key], x.calls, x.submitted);
    assert CallOk(x.calls[me.pending[key].waiting.value], x.broker, x.store.committed, x.submitted);
    ClientPut(x.clients, c, you, x.calls, x.broker.byKey, x.submitted);
    BegunStays(x.submitted, x.clients, c, you);
  }

  lemma GiveUpKeeps(x: System, c: string, key: string)
    requires Inv(x) && c in x.clients
    ensures Inv(Next(x, GiveUp(c, key)))
  {
    hide CallsOk, WorkersOk, ClientsOk, CommitsTrue, LeasesDiffer, JobsTrue, KeysBegun, B.Inv, S.Inv, Key;
    ClientAt(x, c);
    var you := x.clients[c].(pending := x.clients[c].pending - {key});
    ClientPut(x.clients, c, you, x.calls, x.broker.byKey, x.submitted);
    BegunStays(x.submitted, x.clients, c, you);
  }

  // ------------------------------------------------------------------
  // The broker
  // ------------------------------------------------------------------

  /** What a request's handling does: the broker evolves, and the answer is true. */
  lemma HandleKeeps(x: System, k: nat)
    requires Inv(x) && k < |x.calls| && x.calls[k].reply.None?
    ensures var (b, reply) := Handle(x.broker, x.calls[k].request, x.now);
      && B.Inv(b) && B.Evolves(x.broker, b)
      && CallOk(x.calls[k].(reply := Some(reply)), b, x.store.committed, x.submitted)
      && JobsTrue(b.jobs, x.store.committed, x.submitted)
      && (reply.Granted? ==> reply.job in x.broker.jobs && reply.token == x.broker.jobs[reply.job].token + 1)
  {
    assert CallOk(x.calls[k], x.broker, x.store.committed, x.submitted);
    match x.calls[k].request
    case SubmitReq(key, payload) => HandleSubmit(x, key, payload);
    case AcquireReq => HandleAcquire(x);
    case RenewReq(job, token) => HandleRenew(x, job, token);
    case CompleteReq(job, token) => HandleComplete(x, job, token);
  }

  lemma HandleSubmit(x: System, key: string, payload: B.Payload)
    requires Inv(x) && key in x.submitted && x.submitted[key] == payload
    ensures var (b, job) := B.Submit(x.broker, key, payload);
      && B.Inv(b) && B.Evolves(x.broker, b) && key in b.byKey && b.byKey[key] == job
      && JobsTrue(b.jobs, x.store.committed, x.submitted)
  {
    hide B.Inv, S.Inv, CallsOk, WorkersOk, ClientsOk, CommitsTrue, LeasesDiffer, KeysBegun;
    B.SubmitKeeps(x.broker, key, payload);
  }

  lemma HandleAcquire(x: System)
    requires Inv(x)
    ensures var (b, reply) := Handle(x.broker, AcquireReq, x.now);
      && B.Inv(b) && B.Evolves(x.broker, b) && JobsTrue(b.jobs, x.store.committed, x.submitted)
      && (reply.Granted? ==>
            && LeaseOk(b.jobs, reply.job, reply.token, reply.payload)
            && reply.job in x.broker.jobs && reply.token == x.broker.jobs[reply.job].token + 1)
  {
    hide B.Inv, S.Inv, CallsOk, WorkersOk, ClientsOk, CommitsTrue, LeasesDiffer, KeysBegun, B.Progress;
    Still(x.broker);
    B.NextReadyIs(x.broker.jobs, x.broker.order, x.now);
    var ready := B.NextReady(x.broker.jobs, x.broker.order, x.now);
    if ready.Some? {
      B.LeaseKeeps(x.broker, ready.value);
      JobsSettle(x, B.Lease(x.broker, ready.value));
    }
  }

  /** Jobs stay true as long as none becomes done. */
  lemma JobsSettle(x: System, b: B.Broker)
    requires JobsTrue(x.broker.jobs, x.store.committed, x.submitted) && B.Evolves(x.broker, b)
    requires b.jobs.Keys == x.broker.jobs.Keys
    requires forall id :: id in b.jobs && b.jobs[id].state == B.Done ==>
      x.broker.jobs[id].state == B.Done || id in x.store.committed
    ensures JobsTrue(b.jobs, x.store.committed, x.submitted)
  {
    forall id | id in b.jobs ensures
      && b.jobs[id].key in x.submitted && x.submitted[b.jobs[id].key] == b.jobs[id].payload
      && (b.jobs[id].state == B.Done ==> id in x.store.committed)
    {
      assert B.JobMoves(x.broker.jobs[id], b.jobs[id]);
    }
  }

  lemma HandleRenew(x: System, job: nat, token: nat)
    requires Inv(x)
    ensures var (b, ok) := B.Renew(x.broker, job, token);
      B.Inv(b) && B.Evolves(x.broker, b) && JobsTrue(b.jobs, x.store.committed, x.submitted)
  {
    hide B.Inv, S.Inv, CallsOk, WorkersOk, ClientsOk, CommitsTrue, LeasesDiffer, KeysBegun, B.Renew;
    B.RenewKeeps(x.broker, job, token);
    JobsSettle(x, B.Renew(x.broker, job, token).0);
  }

  lemma HandleComplete(x: System, job: nat, token: nat)
    requires Inv(x) && job in x.store.committed
    ensures var (b, ok) := B.Complete(x.broker, job, token);
      B.Inv(b) && B.Evolves(x.broker, b) && JobsTrue(b.jobs, x.store.committed, x.submitted)
  {
    hide B.Inv, S.Inv, CallsOk, WorkersOk, ClientsOk, CommitsTrue, LeasesDiffer, KeysBegun, B.Progress;
    B.CompleteKeeps(x.broker, job, token);
    JobsSettle(x, B.Complete(x.broker, job, token).0);
  }

  lemma DeliverKeeps(x: System, k: nat)
    requires Inv(x) && Enabled(x, Deliver(k))
    ensures Inv(Next(x, Deliver(k)))
  {
    hide B.Inv, S.Inv, WorkersOk, ClientsOk, CommitsTrue, LeasesDiffer, JobsTrue, KeysBegun, Handle, CallOk;
    var y := Next(x, Deliver(k));
    HandleKeeps(x, k);
    GrowthKeeps(x, y);
    GrantDiffers(x, k, y.calls[k].reply.value);
  }

  /** A fresh lease's token is past every one granted for that job before. */
  lemma GrantDiffers(x: System, k: nat, reply: Reply)
    requires Inv(x) && k < |x.calls| && x.calls[k].reply.None?
    requires reply.Granted? ==> reply.job in x.broker.jobs && reply.token == x.broker.jobs[reply.job].token + 1
    requires reply.Granted? ==> x.calls[k].request.AcquireReq?
    ensures LeasesDiffer(x.calls[k := x.calls[k].(reply := Some(reply))])
  {
    hide B.Inv, S.Inv, WorkersOk, ClientsOk, CommitsTrue, JobsTrue, KeysBegun;
    var calls := x.calls[k := x.calls[k].(reply := Some(reply))];
    forall i, j, job, token | 0 <= i < j < |calls| && Grants(calls[i], job, token)
      ensures !Grants(calls[j], job, token)
    {
      if i == k {
        assert CallOk(x.calls[j], x.broker, x.store.committed, x.submitted);
      } else if j == k {
        assert CallOk(x.calls[i], x.broker, x.store.committed, x.submitted);
      }
    }
  }

  lemma TimeOutKeeps(x: System, k: nat)
    requires Inv(x) && Enabled(x, TimeOut(k))
    ensures Inv(Next(x, TimeOut(k)))
  {
    hide B.Inv, S.Inv, WorkersOk, ClientsOk, CommitsTrue, LeasesDiffer, JobsTrue, KeysBegun;
    var y := Next(x, TimeOut(k));
    Still(x.broker);
    GrowthKeeps(x, y);
    GrantDiffers(x, k, Nothing);
  }

  lemma ExpiryKeeps(x: System, t: nat)
    requires Inv(x) && Enabled(x, Expiry(t))
    ensures Inv(Next(x, Expiry(t)))
  {
    hide B.Inv, S.Inv, CallsOk, WorkersOk, ClientsOk, CommitsTrue, LeasesDiffer, JobsTrue, KeysBegun, B.Progress;
    var y := Next(x, Expiry(t));
    B.ExpireKeeps(x.broker, t, x.now);
    GrowthKeeps(x, y);
    JobsSettle(x, y.broker);
  }

  // ------------------------------------------------------------------
  // Workers and the store
  // ------------------------------------------------------------------

  lemma WorkerAt(x: System, w: string)
    requires Inv(x) && w in x.workers
    ensures WorkerOk(x.workers[w], x.calls, x.broker.jobs, x.store.committed)
  {
  }

  lemma AskKeeps(x: System, w: string)
    requires Inv(x) && Enabled(x, Ask(w))
    ensures Inv(Next(x, Ask(w)))
  {
    hide B.Inv, S.Inv, CallsOk, WorkersOk, ClientsOk, CommitsTrue, LeasesDiffer, JobsTrue, KeysBegun;
    PlacedKeeps(x, AcquireReq);
    var y := Placed(x, AcquireReq);
    WorkerPut(y.workers, w, Asking(|x.calls|), y.calls, y.broker.jobs, y.store.committed);
  }

  lemma StartKeeps(x: System, w: string)
    requires Inv(x) && Enabled(x, Start(w))
    ensures Inv(Next(x, Start(w)))
  {
    hide B.Inv, S.Inv, WorkersOk, ClientsOk, CommitsTrue, LeasesDiffer, JobsTrue, KeysBegun, S.BeginWork;
    var y := Next(x, Start(w));
    var k := x.workers[w].call;
    WorkerAt(x, w);
    assert CallOk(x.calls[k], x.broker, x.store.committed, x.submitted);
    S.BeginKeeps(x.store, x.calls[k].reply.value.job, x.calls[k].reply.value.token);
    WorkerPut(x.workers, w, y.workers[w], x.calls, x.broker.jobs, x.store.committed);
  }

  lemma WriteKeeps(x: System, w: string)
    requires Inv(x) && Enabled(x, Write(w))
    ensures Inv(Next(x, Write(w)))
  {
    hide B.Inv, S.Inv, CallsOk, WorkersOk, ClientsOk, LeasesDiffer, JobsTrue, KeysBegun, S.CommitWork, S.Committed;
    var y := Next(x, Write(w));
    var me := x.workers[w];
    WorkerAt(x, w);
    S.CommitKeeps(x.store, me.job, me.token, me.payload.value);
    Still(x.broker);
    GrowthKeeps(x, y);
    WorkerPut(x.workers, w, y.workers[w], x.calls, x.broker.jobs, y.store.committed);
    MoreCommitted(x.broker.jobs, x.store.committed, y.store.committed, x.submitted);
  }

  lemma MoreCommitted(jobs: B.Jobs, s: set<nat>, t: set<nat>, submitted: map<string, B.Payload>)
    requires JobsTrue(jobs, s, submitted) && s <= t
    ensures JobsTrue(jobs, t, submitted)
  {
  }

  lemma ReportKeeps(x: System, w: string)
    requires Inv(x) && (Enabled(x, Report(w)) || Enabled(x, Heartbeat(w)))
    ensures Enabled(x, Report(w)) ==> Inv(Next(x, Report(w)))
    ensures Enabled(x, Heartbeat(w)) ==> Inv(Next(x, Heartbeat(w)))
  {
    hide B.Inv, S.Inv, CallsOk, WorkersOk, ClientsOk, CommitsTrue, LeasesDiffer, JobsTrue, KeysBegun;
    WorkerAt(x, w);
    if Enabled(x, Report(w)) {
      PlacedKeeps(x, CompleteReq(x.workers[w].job, x.workers[w].token));
    }
    PlacedKeeps(x, RenewReq(x.workers[w].job, x.workers[w].token));
  }

  lemma LeaveKeeps(x: System, w: string)
    requires Inv(x) && w in x.workers
    ensures Inv(Next(x, Leave(w)))
  {
    hide B.Inv, S.Inv, CallsOk, ClientsOk, CommitsTrue, LeasesDiffer, JobsTrue, KeysBegun;
    WorkerPut(x.workers, w, Idle, x.calls, x.broker.jobs, x.store.committed);
  }

  // ------------------------------------------------------------------
  // Runs
  // ------------------------------------------------------------------

  lemma StepKeeps(x: System, s: Step)
    requires Inv(x) && Enabled(x, s)
    ensures Inv(Next(x, s))
  {
    hide Inv;
    match s
    case Begin(c, payload) => BeginKeeps(x, c, payload);
    case Send(c, key) => SendKeeps(x, c, key);
    case Hear(c, key) => HearKeeps(x, c, key);
    case GiveUp(c, key) => GiveUpKeeps(x, c, key);
    case Deliver(k) => DeliverKeeps(x, k);
    case TimeOut(k) => TimeOutKeeps(x, k);
    case Expiry(t) => ExpiryKeeps(x, t);
    case Pass(span) => PassKeeps(x, span);
    case Ask(w) => AskKeeps(x, w);
    case Start(w) => StartKeeps(x, w);
    case Heartbeat(w) => ReportKeeps(x, w);
    case Write(w) => WriteKeeps(x, w);
    case Report(w) => ReportKeeps(x, w);
    case Leave(w) => LeaveKeeps(x, w);
  }

  lemma PassKeeps(x: System, span: real)
    requires Inv(x) && span >= 0.0
    ensures Inv(Next(x, Pass(span)))
  {
  }

  lemma InitialInv(x: System)
    requires Initial(x)
    ensures Inv(x)
  {
  }

  lemma {:induction false} RunKeeps(r: Run, k: nat)
    requires IsRun(r) && k < |r.states|
    ensures Inv(r.states[k])
  {
    hide Inv, Next, Enabled;
    if k == 0 {
      InitialInv(r.states[0]);
    } else {
      RunKeeps(r, k - 1);
      StepKeeps(r.states[k - 1], r.steps[k - 1]);
    }
  }

  // ------------------------------------------------------------------
  // End to end
  // ------------------------------------------------------------------

  /** Over any run the broker answers every request as the state it finds demands; so no lease ever passes
      over a due job that stands earlier in the queue. */
  lemma BrokerAnswers(r: Run, k: nat)
    requires IsRun(r) && k < |r.steps| && r.steps[k].Deliver? && r.steps[k].call < |r.states[k].calls|
    ensures r.steps[k].call < |r.states[k + 1].calls| && r.states[k + 1].calls[r.steps[k].call].reply.Some?
    ensures var x, y, call := r.states[k], r.states[k + 1], r.steps[k].call;
      Answers(x.broker, x.calls[call].request, x.now, y.broker, y.calls[call].reply.value)
  {
    hide Inv, Handle, Answers;
    RunKeeps(r, k);
    var x, call := r.states[k], r.steps[k].call;
    assert r.states[k + 1] == Next(x, r.steps[k]);
    BooksBalance(x);
    HandleAnswers(x.broker, x.calls[call].request, x.now);
  }

  lemma BooksBalance(x: System)
    requires Inv(x)
    ensures B.Inv(x.broker)
  {
  }

  /** Over any run a timer that goes off ends its lease by the clock of that moment. */
  lemma LeaseLapses(r: Run, k: nat)
    requires IsRun(r) && k < |r.steps| && r.steps[k].Expiry?
    ensures B.Lapses(r.states[k].broker, r.steps[k].timer, r.states[k].now, r.states[k + 1].broker)
  {
    hide Inv, B.Lapses, B.Expire;
    RunKeeps(r, k);
    assert r.states[k + 1] == Next(r.states[k], r.steps[k]);
    BooksBalance(r.states[k]);
    B.ExpireIs(r.states[k].broker, r.steps[k].timer, r.states[k].now);
  }

  /** A worker that was told its job is complete will find it so at any later time. */
  lemma ToldDone(r: Run, i: nat, k: nat)
    requires IsRun(r) && i < k < |r.states| && r.steps[i].Deliver? && r.steps[i].call < |r.states[i].calls|
    requires r.states[i].calls[r.steps[i].call].request.CompleteReq?
    requires r.steps[i].call < |r.states[i + 1].calls| && r.states[i + 1].calls[r.steps[i].call].reply == Some(Answered(true))
    ensures var job := r.states[i].calls[r.steps[i].call].request.job;
      job in r.states[k].broker.jobs && r.states[k].broker.jobs[job].state == B.Done
  {
    assert |r.states| == |r.steps| + 1;
    hide IsRun;
    BrokerAnswers(r, i);
    JobsEndure(r, i + 1, k, r.states[i].calls[r.steps[i].call].request.job);
  }

  /** The commits a job has. */
  ghost function CommitsOf(x: System, job: nat): set<nat> {
    set i | 0 <= i < |x.store.commits| && x.store.commits[i].job == job
  }

  /** The jobs made for one logical submit. */
  ghost function JobsOf(x: System, client: string, n: nat): set<nat> {
    set job | job in x.broker.jobs && x.broker.jobs[job].key == Key(client, n)
  }

  lemma AtMostOne(s: set<nat>)
    requires forall a, b :: a in s && b in s ==> a == b
    ensures |s| <= 1
  {
    if s != {} {
      var a :| a in s;
      assert s == {a};
    }
  }

  /** However often a submit is retried, it makes at most one job, no other submit shares it,
      and whatever the client was told is that job. */
  lemma SubmitOnce(r: Run, k: nat, c: string, n: nat, d: string, m: nat)
    requires IsRun(r) && k < |r.states|
    ensures |JobsOf(r.states[k], c, n)| <= 1
    ensures (c, n) != (d, m) ==> JobsOf(r.states[k], c, n) !! JobsOf(r.states[k], d, m)
    ensures c in r.states[k].clients && Key(d, m) in r.states[k].clients[c].acknowledged ==>
      r.states[k].clients[c].acknowledged[Key(d, m)] in JobsOf(r.states[k], d, m)
  {
    hide IsRun, Key, S.Inv, CallsOk, WorkersOk, CommitsTrue, LeasesDiffer, JobsTrue, KeysBegun;
    RunKeeps(r, k);
    var x := r.states[k];
    AtMostOne(JobsOf(x, c, n));
    if job :| job in JobsOf(x, c, n) && job in JobsOf(x, d, m) {
      KeysDiffer(c, n, d, m);
    }
    if c in x.clients {
      ClientAt(x, c);
    }
  }

  /** Exactly once: a job's effect is applied at most once, under a token its broker granted and with
      the value its client submitted, and a job that is done has been applied. */
  lemma ExactlyOnce(r: Run, k: nat, job: nat)
    requires IsRun(r) && k < |r.states| && job in r.states[k].broker.jobs
    ensures var x := r.states[k];
      && |CommitsOf(x, job)| <= 1
      && (x.broker.jobs[job].state == B.Done ==> |CommitsOf(x, job)| == 1)
      && x.broker.jobs[job].key in x.submitted
      && (x.submitted[x.broker.jobs[job].key].poison ==> CommitsOf(x, job) == {} && x.broker.jobs[job].state != B.Done)
      && (forall i :: i in CommitsOf(x, job) ==>
            && x.store.commits[i].value == x.submitted[x.broker.jobs[job].key].value
            && 0 < x.store.commits[i].token <= x.broker.jobs[job].token && !x.store.commits[i].stale)
  {
    hide IsRun, B.Inv, CallsOk, WorkersOk, ClientsOk, LeasesDiffer, KeysBegun;
    RunKeeps(r, k);
    var x := r.states[k];
    AtMostOne(CommitsOf(x, job));
    forall i | i in CommitsOf(x, job)
      ensures CommitTrue(x.store.commits[i], x.broker.jobs) && !x.submitted[x.broker.jobs[job].key].poison
    {
    }
    if job in x.store.committed {
      assert S.Committed(x.store, job);
      var i :| 0 <= i < |x.store.commits| && x.store.commits[i].job == job;
      assert i in CommitsOf(x, job);
    }
  }

  /** Fencing: once the store has seen a token for a job it accepts nothing for it under a lower one. */
  lemma TokensFenced(r: Run, k: nat, i: nat, j: nat)
    requires IsRun(r) && k < |r.states|
    requires i < j < |r.states[k].store.seen| && r.states[k].store.seen[i].job == r.states[k].store.seen[j].job
    ensures r.states[k].store.seen[i].token <= r.states[k].store.seen[j].token
  {
    RunKeeps(r, k);
  }

  /** A token is granted to one holder only. */
  lemma LeaseHeldOnce(r: Run, k: nat, i: nat, j: nat)
    requires IsRun(r) && k < |r.states| && i < j < |r.states[k].calls|
    requires r.states[k].calls[i].reply.Some? && r.states[k].calls[i].reply.value.Granted?
    requires r.states[k].calls[j].reply.Some? && r.states[k].calls[j].reply.value.Granted?
    requires r.states[k].calls[i].reply.value.job == r.states[k].calls[j].reply.value.job
    ensures r.states[k].calls[i].reply.value.token != r.states[k].calls[j].reply.value.token
  {
    RunKeeps(r, k);
    var c := r.states[k].calls[i];
    assert Grants(c, c.reply.value.job, c.reply.value.token);
  }

  // ------------------------------------------------------------------
  // The broker over whole runs
  // ------------------------------------------------------------------

  /** What one step does to the broker: jobs keep who they are, and settled jobs stay as they are. */
  lemma StepEvolves(x: System, s: Step)
    requires Inv(x) && Enabled(x, s)
    ensures B.Evolves(x.broker, Next(x, s).broker)
  {
    hide B.Evolves, B.Inv, S.Inv, CallsOk, WorkersOk, ClientsOk, CommitsTrue, LeasesDiffer, JobsTrue, KeysBegun, Handle, B.Progress;
    Still(x.broker);
    match s
    case Deliver(k) => HandleKeeps(x, k);
    case Expiry(t) => B.ExpireKeeps(x.broker, t, x.now);
    case _ =>
  }

  /** A job keeps its key and payload, its token never falls, and done and dead are for good. */
  ghost predicate Endures(a: B.Job, b: B.Job) {
    && b.key == a.key && b.payload == a.payload && a.token <= b.token
    && (a.state in {B.Done, B.Dead} ==> b == a)
  }

  lemma {:induction false} JobsEndure(r: Run, i: nat, k: nat, job: nat)
    requires IsRun(r) && i <= k < |r.states| && job in r.states[i].broker.jobs
    ensures job in r.states[k].broker.jobs && Endures(r.states[i].broker.jobs[job], r.states[k].broker.jobs[job])
  {
    hide Inv, Next, Enabled;
    if i < k {
      JobsEndure(r, i, k - 1, job);
      RunKeeps(r, k - 1);
      StepEvolves(r.states[k - 1], r.steps[k - 1]);
      assert B.JobMoves(r.states[k - 1].broker.jobs[job], r.states[k].broker.jobs[job]);
    }
  }

  /** In every run the broker's queue, timers, tokens and attempts agree. */
  lemma BrokerSound(r: Run, k: nat)
    requires IsRun(r) && k < |r.states|
    ensures B.Inv(r.states[k].broker)
  {
    RunKeeps(r, k);
  }
}
