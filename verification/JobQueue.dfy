/**
  The job queue as one distributed machine: retrying clients, stateless workers,
  the broker and the store, with calls that may be delayed, lost, answered late or
  retried without bound, and workers that may crash anywhere.

  A call is one request on a connection of its own.  The broker handles it at
  most once; whoever made it may have stopped waiting by then.
*/
module JobQueue {
  import opened Helpers
  import B = JobBroker
  import S = EffectStore
  import opened JobKeys

  datatype Request =
    | SubmitReq(key: string, payload: B.Payload)
    | AcquireReq
    | RenewReq(job: nat, token: nat)
    | CompleteReq(job: nat, token: nat)

  datatype Reply =
    | Submitted(job: nat)
    | Granted(job: nat, token: nat, payload: B.Payload)
    | Nothing
    | Answered(ok: bool)

  datatype Call = Call(request: Request, reply: Option<Reply>)

  /** One logical submit under way: what it submits, and the call it waits on, if any. */
  datatype Submission = Submission(payload: B.Payload, waiting: Option<nat>)

  /** A client may have any number of submits under way at once, each under its own key. */
  datatype Client = Client(
    counter: nat,
    pending: map<string, Submission>,
    acknowledged: map<string, nat>)

  datatype Worker =
    | Idle
    | Asking(call: nat)
    | Working(job: nat, token: nat, payload: B.Payload)
    | Finishing(job: nat, token: nat)

  /** `submitted` remembers every logical submit ever begun. */
  datatype System = System(
    broker: B.Broker,
    store: S.Store,
    calls: seq<Call>,
    clients: map<string, Client>,
    workers: map<string, Worker>,
    now: real,
    submitted: map<string, B.Payload>)

  datatype Step =
    | Begin(client: string, payload: B.Payload)   // a client starts a logical submit
    | Send(client: string, key: string)           // ... and tries it, or tries it again
    | Hear(client: string, key: string)           // ... and reads an answer
    | GiveUp(client: string, key: string)
    | Deliver(call: nat)                          // the broker handles a request
    | TimeOut(call: nat)                          // ... or an acquire's wait runs out
    | Expiry(timer: nat)
    | Pass(span: real)                            // time passes
    | Ask(worker: string)                         // a worker asks for work
    | Start(worker: string)                       // ... reads its lease and announces it to the store
    | Heartbeat(worker: string)
    | Write(worker: string)                       // ... having executed it, commits its effect
    | Report(worker: string)                      // ... tells the broker, or tells it again
    | Leave(worker: string)                       // ... moves on, abandons a poison job, or crashes

  predicate Enabled(x: System, s: Step) {
    match s
    case Begin(c, payload) => c in x.clients
    case Send(c, key) => c in x.clients && key in x.clients[c].pending
    case Hear(c, key) =>
      && c in x.clients && key in x.clients[c].pending && x.clients[c].pending[key].waiting.Some?
      && x.clients[c].pending[key].waiting.value < |x.calls|
      && x.calls[x.clients[c].pending[key].waiting.value].reply.Some?
      && x.calls[x.clients[c].pending[key].waiting.value].reply.value.Submitted?
    case GiveUp(c, key) => c in x.clients
    case Deliver(k) => k < |x.calls| && x.calls[k].reply.None?
    case TimeOut(k) => k < |x.calls| && x.calls[k].reply.None? && x.calls[k].request.AcquireReq?
    case Expiry(t) => t in x.broker.timers
    case Pass(span) => span >= 0.0
    case Ask(w) => w in x.workers && (x.workers[w].Idle? || x.workers[w].Asking?)
    case Start(w) =>
      && w in x.workers && x.workers[w].Asking? && x.workers[w].call < |x.calls|
      && x.calls[x.workers[w].call].reply.Some? && x.calls[x.workers[w].call].reply.value.Granted?
    case Heartbeat(w) => w in x.workers && (x.workers[w].Working? || x.workers[w].Finishing?)
    case Write(w) => w in x.workers && x.workers[w].Working? && !x.workers[w].payload.poison
    case Report(w) => w in x.workers && x.workers[w].Finishing?
    case Leave(w) => w in x.workers
  }

  function Placed(x: System, request: Request): System {
    x.(calls := x.calls + [Call(request, None)])
  }

  /** The broker's whole answer to one request. */
  function Handle(b: B.Broker, request: Request, now: real): (B.Broker, Reply) {
    match request
    case SubmitReq(key, payload) =>
      var (c, job) := B.Submit(b, key, payload);
      (c, Submitted(job))
    case AcquireReq =>
      var ready := B.NextReady(b.jobs, b.order, now);
      if ready.None? || ready.value !in b.jobs then (b, Nothing)
      else
        var c := B.Lease(b, ready.value);
        (c, Granted(ready.value, c.jobs[ready.value].token, c.jobs[ready.value].payload))
    case RenewReq(job, token) =>
      var (c, ok) := B.Renew(b, job, token);
      (c, Answered(ok))
    case CompleteReq(job, token) =>
      var (c, ok) := B.Complete(b, job, token);
      (c, Answered(ok))
  }

  /** What each request is answered: the job of the key, the first due job there is, whether the lease was
      held, and whether the job is done. */
  ghost predicate Answers(b: B.Broker, request: Request, now: real, c: B.Broker, reply: Reply) {
    match request
    case SubmitReq(key, payload) => reply.Submitted? && key in c.byKey && c.byKey[key] == reply.job
    case AcquireReq =>
      && (reply == Nothing <==> forall i :: 0 <= i < |b.order| ==> !B.Due(b.jobs, b.order[i], now))
      && (reply == Nothing ==> c == b)
      && (reply != Nothing ==>
           && reply.Granted? && B.LeasedAs(b.jobs, b.timers, b.nextTimer, (reply.job, reply.token, reply.payload), c.jobs, c.timers)
           && exists k: nat :: B.TakenFirst(b.jobs, b.order, now, k, reply.job, c.order))
    case RenewReq(job, token) =>
      reply == Answered(job in b.jobs && b.jobs[job].state == B.Leased && b.jobs[job].token == token)
    case CompleteReq(job, token) => reply == Answered(job in c.jobs && c.jobs[job].state == B.Done)
  }

  lemma HandleAnswers(b: B.Broker, request: Request, now: real)
    requires B.Inv(b)
    ensures var (c, reply) := Handle(b, request, now); Answers(b, request, now, c, reply)
  {
    hide B.Inv, B.FirstDue, B.LeasedAs, B.Evolves, B.Progress;
    match request
    case SubmitReq(key, payload) => B.SubmitKeeps(b, key, payload);
    case AcquireReq => AcquireAnswers(b, now);
    case RenewReq(job, token) => B.RenewKeeps(b, job, token);
    case CompleteReq(job, token) => B.CompleteKeeps(b, job, token);
  }

  lemma AcquireAnswers(b: B.Broker, now: real)
    requires B.Inv(b)
    ensures var (c, reply) := Handle(b, AcquireReq, now); Answers(b, AcquireReq, now, c, reply)
  {
    hide B.Inv, B.LeasedAs, B.Lease, B.Due;
    B.NextReadyIs(b.jobs, b.order, now);
    var k := B.NextReadyFirst(b.jobs, b.order, now);
    var ready := B.NextReady(b.jobs, b.order, now);
    if ready.Some? {
      B.LeaseIs(b, ready.value);
      B.OrderOnce(b, k);
      LeaseTold(b, ready.value);
      assert B.TakenFirst(b.jobs, b.order, now, k, ready.value, B.Lease(b, ready.value).order);
    }
  }

  lemma LeaseTold(b: B.Broker, id: nat)
    requires id in b.jobs
    ensures var c := B.Lease(b, id); id in c.jobs && c.jobs[id].token == b.jobs[id].token + 1 && c.jobs[id].payload == b.jobs[id].payload
  {
  }

  function Next(x: System, s: Step): System
    requires Enabled(x, s)
  {
    match s
    case Begin(c, payload) =>
      var me := x.clients[c];
      var key := Key(c, me.counter + 1);
      x.(clients := x.clients[c := me.(counter := me.counter + 1,
                                       pending := me.pending[key := Submission(payload, None)])],
         submitted := x.submitted[key := payload])
    case Send(c, key) =>
      var me := x.clients[c];
      Placed(x, SubmitReq(key, me.pending[key].payload))
        .(clients := x.clients[c := me.(pending := me.pending[key := me.pending[key].(waiting := Some(|x.calls|))])])
    case Hear(c, key) =>
      var me := x.clients[c];
      var job := x.calls[me.pending[key].waiting.value].reply.value.job;
      x.(clients := x.clients[c := me.(pending := me.pending - {key}, acknowledged := me.acknowledged[key := job])])
    case GiveUp(c, key) =>
      x.(clients := x.clients[c := x.clients[c].(pending := x.clients[c].pending - {key})])
    case Deliver(k) =>
      var (b, reply) := Handle(x.broker, x.calls[k].request, x.now);
      x.(broker := b, calls := x.calls[k := x.calls[k].(reply := Some(reply))])
    case TimeOut(k) => x.(calls := x.calls[k := x.calls[k].(reply := Some(Nothing))])
    case Expiry(t) => x.(broker := B.Expire(x.broker, t, x.now))
    case Pass(span) => x.(now := x.now + span)
    case Ask(w) => Placed(x, AcquireReq).(workers := x.workers[w := Asking(|x.calls|)])
    case Start(w) =>
      var lease := x.calls[x.workers[w].call].reply.value;
      var (t, ok) := S.BeginWork(x.store, lease.job, lease.token);
      x.(store := t, workers := x.workers[w := if ok then Working(lease.job, lease.token, lease.payload) else Idle])
    case Heartbeat(w) => Placed(x, RenewReq(x.workers[w].job, x.workers[w].token))
    case Write(w) =>
      var me := x.workers[w];
      var (t, v) := S.CommitWork(x.store, me.job, me.token, me.payload.value);
      x.(store := t, workers := x.workers[w := if v == S.Stale then Idle else Finishing(me.job, me.token)])
    case Report(w) => Placed(x, CompleteReq(x.workers[w].job, x.workers[w].token))
    case Leave(w) => x.(workers := x.workers[w := Idle])
  }

  ghost predicate Initial(x: System) {
    && x.broker == B.Fresh(x.broker.limit, x.broker.backoff)
    && x.store == S.EMPTY && x.calls == [] && x.submitted == map[]
    && (forall c :: c in x.clients ==> x.clients[c] == Client(0, map[], map[]))
    && (forall w :: w in x.workers ==> x.workers[w] == Idle)
  }

  datatype Run = Run(states: seq<System>, steps: seq<Step>)

  ghost predicate IsRun(r: Run) {
    && |r.states| == |r.steps| + 1
    && Initial(r.states[0])
    && forall i :: 0 <= i < |r.steps| ==>
         Enabled(r.states[i], r.steps[i]) && r.states[i + 1] == Next(r.states[i], r.steps[i])
  }

  // ------------------------------------------------------------------
  // The invariant
  // ------------------------------------------------------------------

  /** The broker did grant this lease, at this token. */
  ghost predicate LeaseOk(jobs: B.Jobs, job: nat, token: nat, payload: B.Payload) {
    job in jobs && 0 < token <= jobs[job].token && jobs[job].payload == payload
  }

  /** A complete request is only ever sent once the job's effect is in the store. */
  ghost predicate CallOk(call: Call, b: B.Broker, committed: set<nat>, submitted: map<string, B.Payload>) {
    match call.request
    case SubmitReq(key, payload) =>
      && key in submitted && submitted[key] == payload
      && (call.reply.Some? ==>
            call.reply.value.Submitted? && key in b.byKey && b.byKey[key] == call.reply.value.job)
    case AcquireReq =>
      call.reply.Some? && call.reply.value.Granted? ==>
        LeaseOk(b.jobs, call.reply.value.job, call.reply.value.token, call.reply.value.payload)
    case RenewReq(_, _) => call.reply.Some? ==> call.reply.value.Answered?
    case CompleteReq(job, _) => job in committed && (call.reply.Some? ==> call.reply.value.Answered?)
  }

  ghost predicate CallsOk(calls: seq<Call>, b: B.Broker, committed: set<nat>, submitted: map<string, B.Payload>) {
    forall k :: 0 <= k < |calls| ==> CallOk(calls[k], b, committed, submitted)
  }

  ghost predicate Grants(call: Call, job: nat, token: nat) {
    call.reply.Some? && call.reply.value.Granted? && call.reply.value.job == job && call.reply.value.token == token
  }

  /** No two leases are alike: a token names one holder. */
  ghost predicate LeasesDiffer(calls: seq<Call>) {
    forall i, k, job, token :: (0 <= i < k < |calls| && Grants(calls[i], job, token)) ==> !Grants(calls[k], job, token)
  }

  ghost predicate WorkerOk(w: Worker, calls: seq<Call>, jobs: B.Jobs, committed: set<nat>) {
    match w
    case Idle => true
    case Asking(k) => k < |calls| && calls[k].request.AcquireReq?
    case Working(job, token, payload) => LeaseOk(jobs, job, token, payload)
    case Finishing(job, _) => job in committed
  }

  ghost predicate WorkersOk(workers: map<string, Worker>, calls: seq<Call>, jobs: B.Jobs, committed: set<nat>) {
    forall w :: w in workers ==> WorkerOk(workers[w], calls, jobs, committed)
  }

  /** Every job was submitted, as it stands, under its key; and a done job's effect is in the store. */
  ghost predicate JobsTrue(jobs: B.Jobs, committed: set<nat>, submitted: map<string, B.Payload>) {
    forall job :: job in jobs ==>
      && jobs[job].key in submitted && submitted[jobs[job].key] == jobs[job].payload
      && (jobs[job].state == B.Done ==> job in committed)
  }

  ghost predicate CommitsTrue(commits: seq<S.Commit>, jobs: B.Jobs) {
    forall i :: 0 <= i < |commits| ==> CommitTrue(commits[i], jobs)
  }

  ghost predicate CommitTrue(c: S.Commit, jobs: B.Jobs) {
    && c.job in jobs && 0 < c.token <= jobs[c.job].token
    && c.value == jobs[c.job].payload.value && !jobs[c.job].payload.poison
  }

  ghost predicate ClientOk(name: string, c: Client, calls: seq<Call>, byKey: map<string, nat>, submitted: map<string, B.Payload>) {
    && (forall k :: k in c.pending ==> PendingOk(name, c.counter, k, c.pending[k], calls, submitted))
    && (forall k :: k in c.acknowledged ==> k in byKey && byKey[k] == c.acknowledged[k])
  }

  /** A submit under way is one this client began, and waits on a call that carries it. */
  ghost predicate PendingOk(name: string, counter: nat, key: string, s: Submission, calls: seq<Call>, submitted: map<string, B.Payload>) {
    && (exists n: nat :: 0 < n <= counter && key == Key(name, n))
    && key in submitted && submitted[key] == s.payload
    && (s.waiting.Some? ==> s.waiting.value < |calls| && calls[s.waiting.value].request == SubmitReq(key, s.payload))
  }

  ghost predicate ClientsOk(clients: map<string, Client>, calls: seq<Call>, byKey: map<string, nat>, submitted: map<string, B.Payload>) {
    forall c :: c in clients ==> ClientOk(c, clients[c], calls, byKey, submitted)
  }

  /** Keys in use are those of logical submits that have begun. */
  ghost predicate KeysBegun(submitted: map<string, B.Payload>, clients: map<string, Client>) {
    forall k :: k in submitted ==> BegunBy(k, clients)
  }

  ghost predicate BegunBy(key: string, clients: map<string, Client>) {
    exists c, n: nat :: c in clients && 0 < n <= clients[c].counter && key == Key(c, n)
  }

  ghost predicate Inv(x: System) {
    && B.Inv(x.broker) && S.Inv(x.store)
    && CallsOk(x.calls, x.broker, x.store.committed, x.submitted) && LeasesDiffer(x.calls)
    && WorkersOk(x.workers, x.calls, x.broker.jobs, x.store.committed)
    && JobsTrue(x.broker.jobs, x.store.committed, x.submitted)
    && CommitsTrue(x.store.commits, x.broker.jobs)
    && ClientsOk(x.clients, x.calls, x.broker.byKey, x.submitted)
    && KeysBegun(x.submitted, x.clients)
  }
}
