/**
  Fenced, idempotent external storage: a token older than the newest seen for a
  job is refused, and a job's effect is applied once.
*/
module EffectStore {
  import opened Helpers

  /** One accepted effect; `stale` would mark a write from a superseded lease. */
  datatype Commit = Commit(job: nat, token: nat, value: string, stale: bool)

  /** What the store has accepted, in order: announcements and writes. */
  datatype Seen = Began(job: nat, token: nat) | Wrote(job: nat, token: nat)

  datatype Why = StaleBegin | StaleWrite | DuplicateWrite
  datatype Refusal = Refusal(job: nat, token: nat, why: Why)

  datatype Verdict = Accepted | Stale | Duplicate

  datatype Store = Store(
    newest: map<nat, nat>,
    committed: set<nat>,
    begun: seq<(nat, nat)>,
    commits: seq<Commit>,
    rejected: seq<Refusal>,
    seen: seq<Seen>)

  const EMPTY := Store(map[], {}, [], [], [], [])

  function Newest(newest: map<nat, nat>, job: nat): nat {
    if job in newest then newest[job] else 0
  }

  function BeginWork(s: Store, job: nat, token: nat): (Store, bool) {
    var newest := Newest(s.newest, job);
    if token < newest then (s.(rejected := s.rejected + [Refusal(job, token, StaleBegin)]), false)
    else
      (s.(newest := s.newest[job := Max(newest, token)], begun := s.begun + [(job, token)],
          seen := s.seen + [Began(job, token)]), true)
  }

  function CommitWork(s: Store, job: nat, token: nat, value: string): (Store, Verdict) {
    var newest := Newest(s.newest, job);
    if token < newest then (s.(rejected := s.rejected + [Refusal(job, token, StaleWrite)]), Stale)
    else if job in s.committed then (s.(rejected := s.rejected + [Refusal(job, token, DuplicateWrite)]), Duplicate)
    else
      (s.(newest := s.newest[job := Max(newest, token)], committed := s.committed + {job},
          commits := s.commits + [Commit(job, token, value, token < newest)],
          seen := s.seen + [Wrote(job, token)]), Accepted)
  }

  // ------------------------------------------------------------------
  // The invariant
  // ------------------------------------------------------------------

  /** Each job has at most one commit, and exactly the committed jobs have one. */
  ghost predicate OnceEach(s: Store) {
    && (forall i, j :: 0 <= i < j < |s.commits| ==> s.commits[i].job != s.commits[j].job)
    && (forall i :: 0 <= i < |s.commits| ==> s.commits[i].job in s.committed && !s.commits[i].stale)
    && (forall job :: job in s.committed ==> Committed(s, job))
  }

  ghost predicate Committed(s: Store, job: nat) {
    exists i :: 0 <= i < |s.commits| && s.commits[i].job == job
  }

  /** Nothing is accepted for a job under a token below one already seen for it. */
  ghost predicate Fenced(seen: seq<Seen>, newest: map<nat, nat>) {
    && (forall i, j :: 0 <= i < j < |seen| && seen[i].job == seen[j].job ==> seen[i].token <= seen[j].token)
    && (forall i :: 0 <= i < |seen| ==> seen[i].token <= Newest(newest, seen[i].job))
  }

  /** The record of what was seen holds every commit and every announcement. */
  ghost predicate Logged(s: Store) {
    && (forall i :: 0 <= i < |s.commits| ==> Wrote(s.commits[i].job, s.commits[i].token) in s.seen)
    && (forall i :: 0 <= i < |s.begun| ==> Began(s.begun[i].0, s.begun[i].1) in s.seen)
  }

  /** The newest token of a job was really seen. */
  ghost predicate NewestSeen(s: Store) {
    forall j :: j in s.newest && s.newest[j] > 0 ==> SeenAt(s.seen, j, s.newest[j])
  }

  ghost predicate SeenAt(seen: seq<Seen>, job: nat, token: nat) {
    exists i :: 0 <= i < |seen| && seen[i].job == job && seen[i].token == token
  }

  ghost predicate Inv(s: Store) {
    OnceEach(s) && Fenced(s.seen, s.newest) && Logged(s) && NewestSeen(s)
  }

  lemma BeginKeeps(s: Store, job: nat, token: nat)
    requires Inv(s)
    ensures var (t, ok) := BeginWork(s, job, token);
      && Inv(t) && t.commits == s.commits && t.committed == s.committed
      && (ok <==> forall i :: 0 <= i < |s.seen| && s.seen[i].job == job ==> s.seen[i].token <= token)
  {
    hide NewestSeen;
    BeginSeen(s, job, token);
    if token < Newest(s.newest, job) {
      NewestWasSeen(s, job);
    }
  }

  lemma NewestWasSeen(s: Store, job: nat)
    requires NewestSeen(s) && Newest(s.newest, job) > 0
    ensures SeenAt(s.seen, job, Newest(s.newest, job))
  {
  }

  lemma BeginSeen(s: Store, job: nat, token: nat)
    requires NewestSeen(s)
    ensures NewestSeen(BeginWork(s, job, token).0)
  {
    var t := BeginWork(s, job, token).0;
    assert s.seen <= t.seen;
    forall j | j in t.newest && t.newest[j] > 0 ensures SeenAt(t.seen, j, t.newest[j]) {
      if j == job && token >= Newest(s.newest, job) {
        assert t.seen[|s.seen|] == Began(job, token);
      } else {
        SeenStays(s.seen, t.seen, j, t.newest[j]);
      }
    }
  }

  lemma SeenStays(a: seq<Seen>, b: seq<Seen>, job: nat, token: nat)
    requires a <= b && SeenAt(a, job, token)
    ensures SeenAt(b, job, token)
  {
    var i :| 0 <= i < |a| && a[i].job == job && a[i].token == token;
    assert b[i] == a[i];
  }

  /** A commit is accepted exactly when its job has none yet and no newer token has been seen for it. */
  lemma CommitKeeps(s: Store, job: nat, token: nat, value: string)
    requires Inv(s)
    ensures var (t, v) := CommitWork(s, job, token, value);
      && Inv(t)
      && (v == Stale <==> exists i :: 0 <= i < |s.seen| && s.seen[i].job == job && s.seen[i].token > token)
      && (v != Stale ==> job in t.committed && Committed(t, job))
      && (v == Accepted <==> t.commits == s.commits + [Commit(job, token, value, false)])
      && (v != Accepted ==> t.commits == s.commits && t.committed == s.committed)
      && s.committed <= t.committed
  {
    hide Committed, NewestSeen, OnceEach;
    var (t, v) := CommitWork(s, job, token, value);
    if v == Stale {
      NewestWasSeen(s, job);
    }
    CommitOnce(s, job, token, value);
    CommitSeen(s, job, token, value);
  }

  lemma CommitOnce(s: Store, job: nat, token: nat, value: string)
    requires OnceEach(s)
    ensures var (t, v) := CommitWork(s, job, token, value);
      OnceEach(t) && (v != Stale ==> job in t.committed && Committed(t, job))
  {
    var (t, v) := CommitWork(s, job, token, value);
    if v == Accepted {
      assert t.commits[|s.commits|].job == job;
      forall j | j in t.committed ensures Committed(t, j) {
        if j != job {
          var i :| 0 <= i < |s.commits| && s.commits[i].job == j;
          assert t.commits[i].job == j;
        }
      }
    }
  }

  lemma CommitSeen(s: Store, job: nat, token: nat, value: string)
    requires NewestSeen(s)
    ensures NewestSeen(CommitWork(s, job, token, value).0)
  {
    var t := CommitWork(s, job, token, value).0;
    assert s.seen <= t.seen;
    forall j | j in t.newest && t.newest[j] > 0 ensures SeenAt(t.seen, j, t.newest[j]) {
      if t.seen != s.seen && j == job {
        assert t.seen[|s.seen|] == Wrote(job, token);
      } else {
        SeenStays(s.seen, t.seen, j, t.newest[j]);
      }
    }
  }

  // ------------------------------------------------------------------
  // The object
  // ------------------------------------------------------------------

  class Effects {
    var newest: map<nat, nat>
    var committed: set<nat>
    var begun: seq<(nat, nat)>
    var commits: seq<Commit>
    var rejected: seq<Refusal>
    ghost var seen: seq<Seen>

    ghost function Snapshot(): Store
      reads this
    {
      Store(newest, committed, begun, commits, rejected, seen)
    }

    constructor ()
      ensures Snapshot() == EMPTY && Inv(Snapshot())
    {
      newest, committed, begun, commits, rejected, seen := map[], {}, [], [], [], [];
    }

    /** An announcement is taken exactly when no newer lease of the job has announced or written. */
    method Begin(job: nat, token: nat) returns (ok: bool)
      requires Inv(Snapshot())
      modifies this
      ensures Inv(Snapshot()) && (Snapshot(), ok) == BeginWork(old(Snapshot()), job, token)
      ensures ok <==> forall i :: 0 <= i < |old(seen)| && old(seen)[i].job == job ==> old(seen)[i].token <= token
      ensures commits == old(commits) && committed == old(committed)
      ensures begun == old(begun) + (if ok then [(job, token)] else [])
        && rejected == old(rejected) + if ok then [] else [Refusal(job, token, StaleBegin)]
    {
      hide Inv;
      BeginKeeps(Snapshot(), job, token);
      var latest := if job in newest then newest[job] else 0;
      if token < latest {
        rejected := rejected + [Refusal(job, token, StaleBegin)];
        return false;
      }
      newest := newest[job := Max(latest, token)];
      begun := begun + [(job, token)];
      seen := seen + [Began(job, token)];
      return true;
    }

    /** A write is accepted once a job, never after a newer lease was seen, and unless it was stale the
        job's effect is in the store afterwards. */
    method Write(job: nat, token: nat, value: string) returns (v: Verdict)
      requires Inv(Snapshot())
      modifies this
      ensures Inv(Snapshot()) && (Snapshot(), v) == CommitWork(old(Snapshot()), job, token, value)
      ensures v == Stale <==> exists i :: 0 <= i < |old(seen)| && old(seen)[i].job == job && old(seen)[i].token > token
      ensures v == Accepted ==> job !in old(committed) && commits == old(commits) + [Commit(job, token, value, false)]
      ensures v != Accepted ==> commits == old(commits)
      ensures begun == old(begun) && rejected == old(rejected) +
        if v == Stale then [Refusal(job, token, StaleWrite)]
        else if v == Duplicate then [Refusal(job, token, DuplicateWrite)] else []
      ensures v != Stale ==> job in committed && Committed(Snapshot(), job)
    {
      hide Inv, Committed;
      CommitKeeps(Snapshot(), job, token, value);
      var latest := if job in newest then newest[job] else 0;
      if token < latest {
        rejected := rejected + [Refusal(job, token, StaleWrite)];
        return Stale;
      }
      if job in committed {
        rejected := rejected + [Refusal(job, token, DuplicateWrite)];
        return Duplicate;
      }
      newest := newest[job := Max(latest, token)];
      committed := committed + {job};
      commits := commits + [Commit(job, token, value, token < latest)];
      seen := seen + [Wrote(job, token)];
      return Accepted;
    }
  }
}
