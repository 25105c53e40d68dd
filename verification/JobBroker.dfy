/**
  The broker: single authority for the job state machine, with fencing on.

  A job is queued, leased, done or dead.  A lease carries a fencing token and is
  backed by one expiry timer; time is the only failure detector.  Job and timer
  handles are numbers.
*/
module JobBroker {
  import opened Helpers

  datatype Payload = Payload(value: string, duration: real, poison: bool)

  datatype JobState = Queued | Leased | Done | Dead

  datatype Job = Job(
    key: string,
    payload: Payload,
    state: JobState,
    attempts: nat,
    token: nat,
    readyAt: real,
    expiry: Option<nat>)

  /** An armed expiry timer: which lease it ends. */
  datatype Timer = Timer(job: nat, token: nat)

  type Jobs = map<nat, Job>
  type Timers = map<nat, Timer>

  datatype Broker = Broker(
    limit: Option<nat>,
    backoff: real,
    jobs: Jobs,
    byKey: map<string, nat>,
    order: seq<nat>,
    nextId: nat,
    timers: Timers,
    nextTimer: nat)

  function Fresh(limit: Option<nat>, backoff: real): Broker {
    Broker(limit, backoff, map[], map[], [], 0, map[], 0)
  }

  // ------------------------------------------------------------------
  // Operations
  // ------------------------------------------------------------------

  /** A key the broker knows names the job it already has. */
  function Submit(b: Broker, key: string, payload: Payload): (Broker, nat) {
    if key in b.byKey then (b, b.byKey[key])
    else
      var id := b.nextId + 1;
      (b.(nextId := id,
          jobs := b.jobs[id := Job(key, payload, Queued, 0, 0, 0.0, None)],
          byKey := b.byKey[key := id],
          order := b.order + [id]), id)
  }

  /** The first job in queue order that is due. */
  function NextReady(jobs: Jobs, order: seq<nat>, now: real): Option<nat> {
    if order == [] then None
    else if order[0] in jobs && jobs[order[0]].state == Queued && jobs[order[0]].readyAt <= now then Some(order[0])
    else NextReady(jobs, order[1..], now)
  }

  function Remove(order: seq<nat>, id: nat): seq<nat> {
    if order == [] then []
    else if order[0] == id then order[1..]
    else [order[0]] + Remove(order[1..], id)
  }

  function Arm(b: Broker, id: nat): Broker
    requires id in b.jobs
  {
    var job := b.jobs[id];
    b.(jobs := b.jobs[id := job.(expiry := Some(b.nextTimer))],
       timers := b.timers[b.nextTimer := Timer(id, job.token)],
       nextTimer := b.nextTimer + 1)
  }

  function Lease(b: Broker, id: nat): Broker
    requires id in b.jobs
  {
    var job := b.jobs[id];
    Arm(b.(jobs := b.jobs[id := job.(state := Leased, token := job.token + 1, attempts := job.attempts + 1)],
           order := Remove(b.order, id)), id)
  }

  function Pow2(n: nat): real {
    if n == 0 then 1.0 else 2.0 * Pow2(n - 1)
  }

  /** Exponential backoff: base, twice the base, four times... */
  function Backoff(base: real, attempts: nat): real {
    if attempts == 0 then base * 0.5 else base * Pow2(attempts - 1)
  }

  predicate Spent(b: Broker, job: Job) {
    b.limit.Some? && job.attempts >= b.limit.value
  }

  /** A timer goes off: the lease it was armed for ends, unless it has ended already. */
  function Expire(b: Broker, timer: nat, now: real): Broker
    requires timer in b.timers
  {
    var id, token := b.timers[timer].job, b.timers[timer].token;
    var c := b.(timers := b.timers - {timer});
    if id !in c.jobs || c.jobs[id].state != Leased || c.jobs[id].token != token then c
    else
      var job := c.jobs[id];
      if Spent(c, job) then c.(jobs := c.jobs[id := job.(state := Dead)])
      else
        c.(jobs := c.jobs[id := job.(state := Queued, readyAt := now + Backoff(c.backoff, job.attempts))], order := c.order + [id])
  }

  function Disarm(b: Broker, job: Job): Broker {
    if job.expiry.Some? then b.(timers := b.timers - {job.expiry.value}) else b
  }

  predicate Holds(b: Broker, id: nat, token: nat) {
    id in b.jobs && b.jobs[id].state == Leased && b.jobs[id].token == token
  }

  function Renew(b: Broker, id: nat, token: nat): (Broker, bool) {
    if !Holds(b, id, token) then (b, false)
    else (Arm(Disarm(b, b.jobs[id]), id), true)
  }

  function Complete(b: Broker, id: nat, token: nat): (Broker, bool) {
    if id !in b.jobs || b.jobs[id].state == Dead then (b, false)
    else if b.jobs[id].state == Done then (b, true)
    else if !Holds(b, id, token) then (b, false)
    else
      var c := Disarm(b, b.jobs[id]);
      (c.(jobs := c.jobs[id := c.jobs[id].(state := Done)]), true)
  }

  // ------------------------------------------------------------------
  // The invariant
  // ------------------------------------------------------------------

  /** The queue lists exactly the queued jobs, once each. */
  ghost predicate OrderOk(order: seq<nat>, jobs: Jobs) {
    && (forall i, j :: 0 <= i < j < |order| ==> order[i] != order[j])
    && (forall id :: id in order <==> id in jobs && jobs[id].state == Queued)
  }

  /** Live timers and leased jobs belong to each other, one to one. */
  ghost predicate TimersOk(timers: Timers, jobs: Jobs) {
    && (forall t :: t in timers ==>
         Armed(timers[t].job, timers[t].token, jobs) && jobs[timers[t].job].expiry == Some(t))
    && (forall id :: id in jobs && jobs[id].state == Leased ==>
         jobs[id].expiry.Some? && jobs[id].expiry.value in timers && timers[jobs[id].expiry.value].job == id)
  }

  ghost predicate Armed(id: nat, token: nat, jobs: Jobs) {
    id in jobs && jobs[id].state == Leased && jobs[id].token == token
  }

  ghost function Most(limit: Option<nat>): nat
    requires limit.Some?
  {
    if limit.value == 0 then 1 else limit.value
  }

  /** The token counts the attempts, and the attempts stay within the limit. */
  ghost predicate JobOk(job: Job, limit: Option<nat>) {
    && job.token == job.attempts
    && (job.state == Leased ==> job.attempts > 0)
    && (limit.Some? ==> job.attempts <= Most(limit))
    && (limit.Some? && job.state == Queued ==> job.attempts < Most(limit))
  }

  ghost predicate JobsOk(jobs: Jobs, limit: Option<nat>) {
    forall id :: id in jobs ==> JobOk(jobs[id], limit)
  }

  /** A key and its job name each other. */
  ghost predicate KeysOk(byKey: map<string, nat>, jobs: Jobs) {
    && (forall k :: k in byKey ==> byKey[k] in jobs && jobs[byKey[k]].key == k)
    && (forall id :: id in jobs ==> jobs[id].key in byKey && byKey[jobs[id].key] == id)
  }

  ghost predicate Numbered(b: Broker) {
    (forall id :: id in b.jobs ==> id <= b.nextId) && (forall t :: t in b.timers ==> t < b.nextTimer)
  }

  ghost predicate Inv(b: Broker) {
    && OrderOk(b.order, b.jobs) && TimersOk(b.timers, b.jobs) && JobsOk(b.jobs, b.limit)
    && KeysOk(b.byKey, b.jobs) && Numbered(b)
  }

  // ------------------------------------------------------------------
  // What every operation does to every job
  // ------------------------------------------------------------------

  /** How far a job is from being settled. */
  ghost function Rank(job: Job, limit: Option<nat>): int
    requires limit.Some?
  {
    match job.state
    case Queued => 2 * (Most(limit) - job.attempts) + 1
    case Leased => 2 * (Most(limit) - job.attempts) + 2
    case Done => 0
    case Dead => 0
  }

  /** A job keeps its identity, its token only rises, and done and dead are final. */
  ghost predicate JobMoves(a: Job, b: Job) {
    && b.key == a.key && b.payload == a.payload && a.token <= b.token
    && (a.state in {Done, Dead} ==> b == a)
    && (b.state == Leased && a.state != Leased ==> b.token == a.token + 1)
    && (b.state != Leased || a.state == Leased ==> b.token == a.token)
  }

  ghost predicate Evolves(a: Broker, b: Broker) {
    && b.limit == a.limit && a.jobs.Keys <= b.jobs.Keys
    && (forall id :: id in a.jobs ==> JobMoves(a.jobs[id], b.jobs[id]))
    && (forall k :: k in a.byKey ==> k in b.byKey && b.byKey[k] == a.byKey[k])
  }

  /** Exactly one job moved, and it moved closer to being settled. */
  ghost predicate Progress(a: Broker, b: Broker, id: nat)
    requires a.limit.Some? && b.limit == a.limit
  {
    && id in a.jobs && b.jobs.Keys == a.jobs.Keys
    && 0 <= Rank(b.jobs[id], a.limit) < Rank(a.jobs[id], a.limit)
    && (forall k :: k in a.jobs && k != id ==> b.jobs[k] == a.jobs[k])
  }

  // ------------------------------------------------------------------
  // Proofs
  // ------------------------------------------------------------------

  lemma {:induction false} NextReadyIs(jobs: Jobs, order: seq<nat>, now: real)
    ensures var r := NextReady(jobs, order, now);
      && (r.Some? ==> r.value in order && r.value in jobs
                      && jobs[r.value].state == Queued && jobs[r.value].readyAt <= now)
      && (r.None? ==> forall id :: id in order && id in jobs && jobs[id].state == Queued ==> jobs[id].readyAt > now)
  {
    if order != [] {
      NextReadyIs(jobs, order[1..], now);
      assert order == [order[0]] + order[1..];
    }
  }

  /** The job is queued and its backoff is over. */
  ghost predicate Due(jobs: Jobs, id: nat, now: real) {
    id in jobs && jobs[id].state == Queued && jobs[id].readyAt <= now
  }

  /** The k-th in the queue is due, and nothing before it is. */
  ghost predicate FirstDue(jobs: Jobs, order: seq<nat>, now: real, k: nat) {
    k < |order| && Due(jobs, order[k], now) && forall i :: 0 <= i < k ==> !Due(jobs, order[i], now)
  }

  lemma {:induction false} NextReadyFirst(jobs: Jobs, order: seq<nat>, now: real) returns (k: nat)
    ensures var r := NextReady(jobs, order, now);
      && (r.Some? ==> FirstDue(jobs, order, now, k) && order[k] == r.value)
      && (r.None? ==> forall i :: 0 <= i < |order| ==> !Due(jobs, order[i], now))
  {
    k := 0;
    if order != [] && !Due(jobs, order[0], now) {
      var j := NextReadyFirst(jobs, order[1..], now);
      k := j + 1;
      assert forall i :: 1 <= i < |order| ==> order[i] == order[1..][i - 1];
    }
  }

  /** Taking a job out of the queue leaves the others in their order. */
  lemma {:induction false} RemoveAt(order: seq<nat>, k: nat)
    requires k < |order| && forall i :: 0 <= i < k ==> order[i] != order[k]
    ensures Remove(order, order[k]) == order[..k] + order[k + 1..]
  {
    if k > 0 {
      RemoveAt(order[1..], k - 1);
      assert order[1..][..k - 1] == order[1..k] && order[1..][k..] == order[k + 1..];
      assert order[..k] == [order[0]] + order[1..k];
    }
  }

  /** The first requeue waits the base, and every further one twice as long as the one before. */
  lemma BackoffDoubles(base: real, attempts: nat)
    ensures Backoff(base, 1) == base && Backoff(base, attempts + 1) == 2.0 * Backoff(base, attempts)
  {
  }

  lemma {:induction false} RemoveIs(order: seq<nat>, id: nat)
    requires forall i, j :: 0 <= i < j < |order| ==> order[i] != order[j]
    ensures var r := Remove(order, id);
      && (forall i, j :: 0 <= i < j < |r| ==> r[i] != r[j])
      && (forall k :: k in r <==> k in order && k != id)
  {
    if order != [] {
      assert order == [order[0]] + order[1..];
      assert order[0] !in order[1..];
      RemoveIs(order[1..], id);
    }
  }

  lemma SubmitKeeps(b: Broker, key: string, payload: Payload)
    requires Inv(b)
    ensures var (c, id) := Submit(b, key, payload);
      && Inv(c) && Evolves(b, c) && key in c.byKey && c.byKey[key] == id && id in c.jobs
      && (key in b.byKey ==> c == b) && (key !in b.byKey ==> id !in b.jobs && c.jobs[id].payload == payload)
      && c.jobs.Keys == b.jobs.Keys + {id} && c.jobs[id].key == key
  {
    hide OrderOk, KeysOk, TimersOk, JobsOk;
    if key !in b.byKey {
      var c, id := Submit(b, key, payload).0, b.nextId + 1;
      assert id !in b.jobs;
      SubmitOrder(b.order, b.jobs, id, c.jobs[id]);
      SubmitTimers(b.timers, b.jobs, id, c.jobs[id]);
      SubmitKeys(b.byKey, b.jobs, id, c.jobs[id]);
      SubmitJobs(b.jobs, b.limit, id, c.jobs[id]);
    } else {
      KnownKey(b, key);
      EvolvesSame(b);
    }
  }

  lemma KnownKey(b: Broker, key: string)
    requires KeysOk(b.byKey, b.jobs) && key in b.byKey
    ensures b.byKey[key] in b.jobs && b.jobs[b.byKey[key]].key == key
  {
  }

  lemma EvolvesSame(b: Broker)
    ensures Evolves(b, b)
  {
  }

  lemma SubmitOrder(order: seq<nat>, jobs: Jobs, id: nat, job: Job)
    requires OrderOk(order, jobs) && id !in jobs && job.state == Queued
    ensures OrderOk(order + [id], jobs[id := job])
  {
    forall k ensures k in order + [id] <==> k in jobs[id := job] && jobs[id := job][k].state == Queued {
      assert k in order + [id] <==> k in order || k == id;
    }
  }

  lemma SubmitTimers(timers: Timers, jobs: Jobs, id: nat, job: Job)
    requires TimersOk(timers, jobs) && id !in jobs && job.state == Queued
    ensures TimersOk(timers, jobs[id := job])
  {
  }

  lemma SubmitKeys(byKey: map<string, nat>, jobs: Jobs, id: nat, job: Job)
    requires KeysOk(byKey, jobs) && id !in jobs && job.key !in byKey
    ensures KeysOk(byKey[job.key := id], jobs[id := job])
  {
  }

  lemma SubmitJobs(jobs: Jobs, limit: Option<nat>, id: nat, job: Job)
    requires JobsOk(jobs, limit) && job.state == Queued && job.attempts == job.token == 0
    ensures JobsOk(jobs[id := job], limit)
  {
  }

  /** Changing what a job is at, not who it is, leaves the key index alone. */
  lemma KeysStay(byKey: map<string, nat>, jobs: Jobs, after: Jobs)
    requires KeysOk(byKey, jobs) && after.Keys == jobs.Keys
    requires forall id :: id in jobs ==> after[id].key == jobs[id].key
    ensures KeysOk(byKey, after)
  {
  }

  lemma OrderStays(order: seq<nat>, jobs: Jobs, after: Jobs)
    requires OrderOk(order, jobs) && after.Keys == jobs.Keys
    requires forall id :: id in jobs ==> (after[id].state == Queued <==> jobs[id].state == Queued)
    ensures OrderOk(order, after)
  {
  }

  /** The waiting loop's answer: a lease on the first due job, or nothing. */
  lemma LeaseKeeps(b: Broker, id: nat)
    requires Inv(b) && id in b.jobs && b.jobs[id].state == Queued
    ensures var c := Lease(b, id);
      && Inv(c) && Evolves(b, c) && (b.limit.Some? ==> Progress(b, c, id))
      && c.jobs[id].token == b.jobs[id].token + 1 && c.jobs.Keys == b.jobs.Keys
  {
    hide OrderOk, KeysOk, TimersOk;
    var c := Lease(b, id);
    LeaseOrder(b, id);
    LeaseTimers(b, id);
    KeysStay(b.byKey, b.jobs, c.jobs);
  }

  /** A lease stays within the attempt limit exactly when the limit allows any attempt at all. */
  lemma LeaseWithinLimit(b: Broker, id: nat)
    requires Inv(b) && id in b.jobs && b.jobs[id].state == Queued && b.limit.Some?
    ensures Lease(b, id).jobs[id].attempts <= b.limit.value <==> b.limit.value >= 1
  {
  }

  lemma LeaseOrder(b: Broker, id: nat)
    requires OrderOk(b.order, b.jobs) && id in b.jobs && b.jobs[id].state == Queued
    ensures var c := Lease(b, id); OrderOk(c.order, c.jobs)
  {
    RemoveIs(b.order, id);
  }

  lemma LeaseTimers(b: Broker, id: nat)
    requires Inv(b) && id in b.jobs && b.jobs[id].state == Queued
    ensures var c := Lease(b, id); TimersOk(c.timers, c.jobs)
  {
    hide OrderOk, KeysOk, JobsOk;
  }

  lemma ExpireKeeps(b: Broker, timer: nat, now: real)
    requires Inv(b) && timer in b.timers
    ensures var c, id := Expire(b, timer, now), b.timers[timer].job;
      && Inv(c) && Evolves(b, c) && (b.limit.Some? ==> Progress(b, c, id)) && c.jobs.Keys == b.jobs.Keys
      && timer !in c.timers && id in b.jobs && b.jobs[id].state == Leased
      && c.jobs[id].state == (if Spent(b, b.jobs[id]) then Dead else Queued)
      && (forall k :: k in b.jobs && k != id ==> c.jobs[k] == b.jobs[k])
  {
    assert Armed(b.timers[timer].job, b.timers[timer].token, b.jobs);
    hide OrderOk, KeysOk, TimersOk, JobsOk, Backoff, Evolves, Progress, Numbered;
    var c := Expire(b, timer, now);
    ExpireOrder(b, timer, now);
    ExpireTimers(b, timer, now);
    ExpireMoves(b, timer, now);
    KeysStay(b.byKey, b.jobs, c.jobs);
  }

  lemma ExpireMoves(b: Broker, timer: nat, now: real)
    requires timer in b.timers && Armed(b.timers[timer].job, b.timers[timer].token, b.jobs)
    requires JobsOk(b.jobs, b.limit) && Numbered(b)
    ensures var c := Expire(b, timer, now);
      && JobsOk(c.jobs, c.limit) && Numbered(c) && Evolves(b, c)
      && (b.limit.Some? ==> Progress(b, c, b.timers[timer].job))
  {
    hide Backoff;
  }

  lemma ExpireTimers(b: Broker, timer: nat, now: real)
    requires TimersOk(b.timers, b.jobs) && timer in b.timers
    ensures var c := Expire(b, timer, now); TimersOk(c.timers, c.jobs)
  {
    hide Backoff;
  }

  lemma ExpireOrder(b: Broker, timer: nat, now: real)
    requires Inv(b) && timer in b.timers
    ensures var c := Expire(b, timer, now); OrderOk(c.order, c.jobs)
  {
    hide KeysOk, JobsOk, Backoff;
    var c, id := Expire(b, timer, now), b.timers[timer].job;
    assert Armed(id, b.timers[timer].token, b.jobs);
    if Spent(b, b.jobs[id]) {
      OrderStays(b.order, b.jobs, c.jobs);
    } else {
      assert id !in b.order;
    }
  }

  lemma RenewKeeps(b: Broker, id: nat, token: nat)
    requires Inv(b)
    ensures var (c, ok) := Renew(b, id, token);
      && Inv(c) && Evolves(b, c) && (ok <==> Holds(b, id, token)) && (!ok ==> c == b)
      && c.jobs.Keys == b.jobs.Keys
      && forall k :: k in b.jobs ==> c.jobs[k] == b.jobs[k].(expiry := c.jobs[k].expiry)
  {
    hide OrderOk, KeysOk, TimersOk, JobsOk, Evolves;
    EvolvesSame(b);
    if Holds(b, id, token) {
      var c := Renew(b, id, token).0;
      RenewTimers(b, id, token);
      RenewMoves(b, id, token);
      OrderStays(b.order, b.jobs, c.jobs);
      KeysStay(b.byKey, b.jobs, c.jobs);
    }
  }

  lemma RenewMoves(b: Broker, id: nat, token: nat)
    requires JobsOk(b.jobs, b.limit) && Holds(b, id, token)
    ensures var c := Renew(b, id, token).0; JobsOk(c.jobs, c.limit) && Evolves(b, c)
  {
  }

  lemma RenewTimers(b: Broker, id: nat, token: nat)
    requires TimersOk(b.timers, b.jobs) && Numbered(b) && Holds(b, id, token)
    ensures var c := Renew(b, id, token).0; TimersOk(c.timers, c.jobs)
  {
  }

  lemma CompleteKeeps(b: Broker, id: nat, token: nat)
    requires Inv(b)
    ensures var (c, ok) := Complete(b, id, token);
      && Inv(c) && Evolves(b, c) && (ok <==> id in c.jobs && c.jobs[id].state == Done)
      && (c != b ==> ok && Holds(b, id, token) && (b.limit.Some? ==> Progress(b, c, id)))
      && c.jobs.Keys == b.jobs.Keys
  {
    hide OrderOk, KeysOk, TimersOk, JobsOk, Progress, Evolves;
    EvolvesSame(b);
    if Holds(b, id, token) {
      var c := Complete(b, id, token).0;
      CompleteTimers(b, id, token);
      CompleteMoves(b, id, token);
      OrderStays(b.order, b.jobs, c.jobs);
      KeysStay(b.byKey, b.jobs, c.jobs);
    }
  }

  lemma CompleteMoves(b: Broker, id: nat, token: nat)
    requires JobsOk(b.jobs, b.limit) && Holds(b, id, token)
    ensures var c := Complete(b, id, token).0;
      JobsOk(c.jobs, c.limit) && Evolves(b, c) && (b.limit.Some? ==> Progress(b, c, id))
  {
  }

  lemma CompleteTimers(b: Broker, id: nat, token: nat)
    requires TimersOk(b.timers, b.jobs) && Holds(b, id, token)
    ensures var c := Complete(b, id, token).0; TimersOk(c.timers, c.jobs)
  {
  }

  // ------------------------------------------------------------------
  // The object
  // ------------------------------------------------------------------

  class LiveBroker {
    const limit: Option<nat>
    const backoff: real
    var jobs: Jobs
    var byKey: map<string, nat>
    var order: seq<nat>
    var nextId: nat
    var timers: Timers
    var nextTimer: nat

    ghost function Snapshot(): Broker
      reads this
    {
      Broker(limit, backoff, jobs, byKey, order, nextId, timers, nextTimer)
    }

    constructor (limit: Option<nat>, backoff: real)
      ensures Snapshot() == Fresh(limit, backoff)
    {
      this.limit, this.backoff := limit, backoff;
      jobs, byKey, order, nextId, timers, nextTimer := map[], map[], [], 0, map[], 0;
    }

    /** One key, one job, whatever the payload says the next time. */
    method SubmitJob(key: string, payload: Payload) returns (id: nat)
      requires Inv(Snapshot())
      modifies this
      ensures Inv(Snapshot()) && (Snapshot(), id) == Submit(old(Snapshot()), key, payload)
      ensures id in jobs && jobs[id].key == key && forall k :: k in jobs && jobs[k].key == key ==> k == id
      ensures key in old(byKey) ==> Snapshot() == old(Snapshot())
      ensures key !in old(byKey) ==>
        && id !in old(jobs) && order == old(order) + [id] && byKey == old(byKey)[key := id]
        && jobs == old(jobs)[id := Job(key, payload, Queued, 0, 0, 0.0, None)]
    {
      hide Inv, Evolves;
      SubmitKeeps(Snapshot(), key, payload);
      KeyNames(Submit(Snapshot(), key, payload).0, key);
      if key in byKey {
        return byKey[key];
      }
      nextId := nextId + 1;
      id := nextId;
      jobs := jobs[id := Job(key, payload, Queued, 0, 0, 0.0, None)];
      byKey := byKey[key := id];
      order := order + [id];
    }

    method FindReady(now: real) returns (id: Option<nat>)
      ensures id.Some? ==> exists k: nat :: FirstDue(jobs, order, now, k) && order[k] == id.value
      ensures id.None? ==> forall i :: 0 <= i < |order| ==> !Due(jobs, order[i], now)
      ensures id == NextReady(jobs, order, now)
    {
      ghost var k := NextReadyFirst(jobs, order, now);
      for i := 0 to |order|
        invariant NextReady(jobs, order[i..], now) == NextReady(jobs, order, now)
      {
        assert order[i..][1..] == order[i + 1..];
        if order[i] in jobs {
          var job := jobs[order[i]];
          if job.state == Queued && job.readyAt <= now {
            return Some(order[i]);
          }
        }
      }
      return None;
    }

    /** One turn of the acquire loop: lease the first due job, or report that there is none yet. */
    method Acquire(now: real) returns (lease: Option<(nat, nat, Payload)>)
      requires Inv(Snapshot())
      modifies this
      ensures Inv(Snapshot())
      ensures var ready := NextReady(old(jobs), old(order), now);
        && (lease.None? <==> ready.None?) && (ready.None? ==> Snapshot() == old(Snapshot()))
        && (ready.Some? ==>
              && ready.value in old(jobs) && Snapshot() == Lease(old(Snapshot()), ready.value)
              && lease.value == (ready.value, jobs[ready.value].token, jobs[ready.value].payload))
      ensures lease.None? ==> forall i :: 0 <= i < |old(order)| ==> !Due(old(jobs), old(order)[i], now)
      ensures lease.Some? ==> exists k: nat :: TakenFirst(old(jobs), old(order), now, k, lease.value.0, order)
      ensures lease.Some? ==> LeasedAs(old(jobs), old(timers), old(nextTimer), lease.value, jobs, timers)
    {
      hide Inv, Due, LeasedAs, Remove;
      NextReadyIs(jobs, order, now);
      var found := FindReady(now);
      if found.None? {
        return None;
      }
      var id := found.value;
      LeaseKeeps(Snapshot(), id);
      ghost var k := NextReadyFirst(jobs, order, now);
      OrderOnce(Snapshot(), k);
      LeaseIs(Snapshot(), id);
      var job := jobs[id];
      jobs := jobs[id := job.(state := Leased, token := job.token + 1, attempts := job.attempts + 1)];
      order := Remove(order, id);
      ArmTimer(id);
      assert TakenFirst(old(jobs), old(order), now, k, id, order);
      return Some((id, jobs[id].token, jobs[id].payload));
    }

    method ArmTimer(id: nat)
      requires id in jobs
      modifies this`jobs, this`timers, this`nextTimer
      ensures Snapshot() == Arm(old(Snapshot()), id)
    {
      timers := timers[nextTimer := Timer(id, jobs[id].token)];
      jobs := jobs[id := jobs[id].(expiry := Some(nextTimer))];
      nextTimer := nextTimer + 1;
    }

    /** The lease behind a live timer ends, and only that one: its job is queued again, or dies with
        its attempts spent. */
    method OnExpiry(timer: nat, now: real)
      requires Inv(Snapshot()) && timer in timers
      modifies this
      ensures Inv(Snapshot()) && Snapshot() == Expire(old(Snapshot()), timer, now)
      ensures var id := old(timers)[timer].job;
        && timer !in timers && id in jobs && id in old(jobs) && jobs.Keys == old(jobs).Keys
        && jobs[id].state == (if limit.Some? && old(jobs)[id].attempts >= limit.value then Dead else Queued)
        && (forall k :: k in old(jobs) && k != id ==> jobs[k] == old(jobs)[k])
      ensures Lapses(old(Snapshot()), timer, now, Snapshot())
    {
      hide Inv, Backoff, Lapses;
      ExpireKeeps(Snapshot(), timer, now);
      ExpireIs(Snapshot(), timer, now);
      var id, token := timers[timer].job, timers[timer].token;
      timers := timers - {timer};
      if id !in jobs || jobs[id].state != Leased || jobs[id].token != token {
        return;
      }
      var job := jobs[id];
      if limit.Some? && job.attempts >= limit.value {
        jobs := jobs[id := job.(state := Dead)];
        return;
      }
      var delay := Backoff(backoff, job.attempts);
      jobs := jobs[id := job.(state := Queued, readyAt := now + delay)];
      order := order + [id];
    }

    /** Only the holder renews, and its lease is then backed by one live timer, a new one. */
    method RenewLease(id: nat, token: nat) returns (ok: bool)
      requires Inv(Snapshot())
      modifies this
      ensures Inv(Snapshot()) && (Snapshot(), ok) == Renew(old(Snapshot()), id, token)
      ensures ok <==> id in old(jobs) && old(jobs)[id].state == Leased && old(jobs)[id].token == token
      ensures !ok ==> Snapshot() == old(Snapshot())
      ensures ok ==> forall t :: t in timers && timers[t].job == id ==> t == old(nextTimer)
      ensures jobs.Keys == old(jobs).Keys
      ensures forall k :: k in jobs ==> jobs[k] == old(jobs)[k].(expiry := jobs[k].expiry)
    {
      hide Inv, Evolves;
      RenewKeeps(Snapshot(), id, token);
      OneTimer(Renew(Snapshot(), id, token).0, id);
      if id !in jobs || jobs[id].state != Leased {
        return false;
      }
      if token != jobs[id].token {
        return false;
      }
      if jobs[id].expiry.Some? {
        timers := timers - {jobs[id].expiry.value};
      }
      ArmTimer(id);
      return true;
    }

    /** The answer is yes exactly for a job that is done, and a done job has no timer to bring it back. */
    method CompleteJob(id: nat, token: nat) returns (ok: bool)
      requires Inv(Snapshot())
      modifies this
      ensures Inv(Snapshot()) && (Snapshot(), ok) == Complete(old(Snapshot()), id, token)
      ensures ok <==> id in jobs && jobs[id].state == Done
      ensures ok ==> forall t :: t in timers ==> timers[t].job != id
      ensures Snapshot() != old(Snapshot()) ==> Holds(old(Snapshot()), id, token)
      ensures ok ==> jobs == old(jobs)[id := old(jobs)[id].(state := Done)] && order == old(order)
    {
      hide Inv, Evolves, Progress;
      CompleteKeeps(Snapshot(), id, token);
      NoTimer(Complete(Snapshot(), id, token).0, id);
      if id !in jobs || jobs[id].state == Dead {
        return false;
      }
      if jobs[id].state == Done {
        return true;
      }
      if jobs[id].state != Leased || token != jobs[id].token {
        return false;
      }
      if jobs[id].expiry.Some? {
        timers := timers - {jobs[id].expiry.value};
      }
      jobs := jobs[id := jobs[id].(state := Done)];
      return true;
    }
  }

  /** The lease behind the timer is over: its job is dead, or queued last again and due after its backoff. */
  ghost predicate Lapses(b: Broker, timer: nat, now: real, c: Broker) {
    && timer in b.timers && b.timers[timer].job in b.jobs
    && var id := b.timers[timer].job;
       var job := b.jobs[id];
       var dead := b.limit.Some? && job.attempts >= b.limit.value;
       && c.timers == b.timers - {timer}
       && c.jobs == b.jobs[id :=
            if dead then job.(state := Dead) else job.(state := Queued, readyAt := now + Backoff(b.backoff, job.attempts))]
       && c.order == b.order + if dead then [] else [id]
  }

  lemma ExpireIs(b: Broker, timer: nat, now: real)
    requires Inv(b) && timer in b.timers
    ensures Lapses(b, timer, now, Expire(b, timer, now))
  {
    hide OrderOk, KeysOk, JobsOk, Backoff;
    assert Armed(b.timers[timer].job, b.timers[timer].token, b.jobs);
  }

  /** The first due job left the queue, which is otherwise as it was. */
  ghost predicate TakenFirst(jobs: Jobs, order: seq<nat>, now: real, k: nat, id: nat, after: seq<nat>) {
    FirstDue(jobs, order, now, k) && order[k] == id && after == order[..k] + order[k + 1..]
  }

  /** One more attempt under one more token, and a timer armed for it; nothing else changed. */
  ghost predicate LeasedAs(jobs: Jobs, timers: Timers, timer: nat, lease: (nat, nat, Payload), after: Jobs, armed: Timers) {
    var (id, token, payload) := lease;
    && id in jobs && token == jobs[id].token + 1 && payload == jobs[id].payload
    && after == jobs[id := jobs[id].(state := Leased, token := token, attempts := jobs[id].attempts + 1, expiry := Some(timer))]
    && armed == timers[timer := Timer(id, token)]
  }

  lemma LeaseIs(b: Broker, id: nat)
    requires id in b.jobs
    ensures var c := Lease(b, id);
      LeasedAs(b.jobs, b.timers, b.nextTimer, (id, b.jobs[id].token + 1, b.jobs[id].payload), c.jobs, c.timers)
      && c.order == Remove(b.order, id)
  {
  }

  lemma OrderOnce(b: Broker, k: nat)
    requires Inv(b) && k < |b.order|
    ensures Remove(b.order, b.order[k]) == b.order[..k] + b.order[k + 1..]
  {
    RemoveAt(b.order, k);
  }

  lemma KeyNames(b: Broker, key: string)
    requires Inv(b)
    ensures forall k :: k in b.jobs && b.jobs[k].key == key ==> key in b.byKey && k == b.byKey[key]
  {
    hide OrderOk, TimersOk, JobsOk;
  }

  lemma OneTimer(b: Broker, id: nat)
    requires Inv(b)
    ensures forall t :: t in b.timers && b.timers[t].job == id ==> id in b.jobs && b.jobs[id].expiry == Some(t)
  {
    hide OrderOk, KeysOk, JobsOk;
  }

  lemma NoTimer(b: Broker, id: nat)
    requires Inv(b)
    ensures id in b.jobs && b.jobs[id].state != Leased ==> forall t :: t in b.timers ==> b.timers[t].job != id
  {
    hide OrderOk, KeysOk, JobsOk;
  }
}
