/** The broker's front door and a worker's job, as they call the objects behind them. */
module JobServices {
  import opened Helpers
  import B = JobBroker
  import S = EffectStore
  import opened JobQueue

  /** Every request the broker can be sent, each through its own method: the answer and the new state are
      those of the distributed machine, and the broker's books balance before and after. */
  method Serve(broker: B.LiveBroker, request: Request, now: real) returns (reply: Reply)
    requires B.Inv(broker.Snapshot())
    modifies broker
    ensures B.Inv(broker.Snapshot()) && (broker.Snapshot(), reply) == Handle(old(broker.Snapshot()), request, now)
    ensures B.Evolves(old(broker.Snapshot()), broker.Snapshot())
    ensures Answers(old(broker.Snapshot()), request, now, broker.Snapshot(), reply)
  {
    hide Answers, B.Inv, B.Submit, B.Renew, B.Complete, B.Lease, B.Evolves;
    ghost var b := broker.Snapshot();
    B.EvolvesSame(b);
    HandleAnswers(b, request, now);
    match request {
      case SubmitReq(key, payload) =>
        B.SubmitKeeps(b, key, payload);
        var job := broker.SubmitJob(key, payload);
        reply := Submitted(job);
      case AcquireReq =>
        B.NextReadyIs(b.jobs, b.order, now);
        var ready := B.NextReady(b.jobs, b.order, now);
        if ready.Some? {
          B.LeaseKeeps(b, ready.value);
        }
        var lease := broker.Acquire(now);
        reply := if lease.None? then Nothing else Granted(lease.value.0, lease.value.1, lease.value.2);
      case RenewReq(job, token) =>
        B.RenewKeeps(b, job, token);
        var ok := broker.RenewLease(job, token);
        reply := Answered(ok);
      case CompleteReq(job, token) =>
        B.CompleteKeeps(b, job, token);
        var ok := broker.CompleteJob(job, token);
        reply := Answered(ok);
    }
  }

  // ------------------------------------------------------------------
  // The worker
  // ------------------------------------------------------------------

  /** What another worker does to the store. */
  datatype StoreCall = Announces(job: nat, token: nat) | Commits(job: nat, token: nat, value: string)

  function After(s: S.Store, c: StoreCall): S.Store {
    match c
    case Announces(job, token) => S.BeginWork(s, job, token).0
    case Commits(job, token, value) => S.CommitWork(s, job, token, value).0
  }

  function AfterAll(s: S.Store, calls: seq<StoreCall>): S.Store {
    if calls == [] then s else After(AfterAll(s, calls[..|calls| - 1]), calls[|calls| - 1])
  }

  /** Whatever is called, the store's books balance, and it forgets nothing it has seen or accepted. */
  lemma {:induction false} AfterAllKeeps(s: S.Store, calls: seq<StoreCall>)
    requires S.Inv(s)
    ensures var t := AfterAll(s, calls);
      S.Inv(t) && s.seen <= t.seen && s.commits <= t.commits && s.committed <= t.committed
  {
    hide S.Inv;
    if calls != [] {
      var front, last := AfterAll(s, calls[..|calls| - 1]), calls[|calls| - 1];
      AfterAllKeeps(s, calls[..|calls| - 1]);
      match last {
        case Announces(job, token) => S.BeginKeeps(front, job, token);
        case Commits(job, token, value) => S.CommitKeeps(front, job, token, value);
      }
    }
  }

  /** The other workers' turn. */
  method Others(store: S.Effects, calls: seq<StoreCall>)
    requires S.Inv(store.Snapshot())
    modifies store
    ensures S.Inv(store.Snapshot()) && store.Snapshot() == AfterAll(old(store.Snapshot()), calls)
  {
    hide S.Inv, S.BeginWork, S.CommitWork;
    for i := 0 to |calls|
      invariant S.Inv(store.Snapshot()) && store.Snapshot() == AfterAll(old(store.Snapshot()), calls[..i])
    {
      assert calls[..i + 1][..i] == calls[..i];
      match calls[i] {
        case Announces(job, token) => var _ := store.Begin(job, token);
        case Commits(job, token, value) => var _ := store.Write(job, token, value);
      }
    }
    assert calls[..|calls|] == calls;
  }

  /** The store as the worker leaves its execution: what it announced, and what others did since. */
  ghost function Executed(s: S.Store, job: nat, token: nat, meanwhile: seq<StoreCall>): S.Store {
    var (t, begun) := S.BeginWork(s, job, token);
    if begun then AfterAll(t, meanwhile) else t
  }

  /** A worker with a lease, while other workers announce and write as they please.  It reports the job
      complete exactly if the payload is sound and no newer lease of the job has been seen, and then the
      job's effect is in the store; it adds at most one commit to what the others added, its own, and
      none once the job has one. */
  method Work(store: S.Effects, job: nat, token: nat, payload: B.Payload, meanwhile: seq<StoreCall>) returns (report: bool)
    requires S.Inv(store.Snapshot())
    modifies store
    ensures S.Inv(store.Snapshot())
    ensures report <==> !payload.poison && forall i :: 0 <= i < |store.seen| && store.seen[i].job == job ==> store.seen[i].token <= token
    ensures report ==> job in store.committed && S.Committed(store.Snapshot(), job)
    ensures var executed := Executed(old(store.Snapshot()), job, token, meanwhile);
      store.commits == executed.commits +
        if report && job !in executed.committed then [S.Commit(job, token, payload.value, false)] else []
    ensures !report ==> store.committed == Executed(old(store.Snapshot()), job, token, meanwhile).committed
  {
    hide S.Inv, S.Committed, AfterAll;
    ghost var s := store.Snapshot();
    var begun := store.Begin(job, token);
    if !begun {
      return false;
    }
    AfterAllKeeps(store.Snapshot(), meanwhile);
    Others(store, meanwhile);
    if payload.poison {
      return false;
    }
    var verdict := store.Write(job, token, payload.value);
    return verdict != S.Stale;
  }
}
