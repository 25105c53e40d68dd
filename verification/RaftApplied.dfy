/**
  What the state machines have seen: every accepted append leaves its entries in the
  log, every entry below the apply cursor that says something has been applied, once
  and in order, and of any two state machines one has seen what the other has and
  perhaps more.
*/
module RaftApplied {
  import opened Helpers
  import opened RaftLog
  import opened RaftCore
  import opened RaftActions
  import opened RaftPeer
  import opened RaftRules
  import opened RaftCluster
  import opened RaftShadow
  import opened RaftSim
  import opened RaftReplicate
  import opened RaftSafety
  import opened RaftTheorems
  import opened RaftPrompt
  import opened RaftMarks

  // ------------------------------------------------------------------
  // Appends that are accepted
  // ------------------------------------------------------------------

  /** In any run, an append that is accepted leaves every entry it brought at its index, word for word. */
  lemma AcceptedInPlace(r: Run, k: nat)
    requires IsRun(r) && k < |r.steps| && Accepts(r.states[k], r.steps[k])
    ensures var call := r.states[k].calls[r.steps[k].call];
      && call.callee in r.states[k + 1].peers && call.request.AppendEntries?
      && Holds(r.states[k + 1].peers[call.callee].log, call.request.prev, call.request.entries)
  {
    assert |r.states| == |r.steps| + 1 && r.states[k + 1] == Next(r.states[k], r.steps[k]);
    hide IsRun, Next, Inv, Mirrors, LedOk, Follows, Stamped, Accepts;
    var xs := ShadowRun(r, k);
    StepInPlace(r.states[k], xs[k], r.steps[k], r.states[k + 1]);
  }

  ghost predicate Holds(log: Log, at: nat, entries: seq<Entry>) {
    at + |entries| <= |log| && log[at..at + |entries|] == entries
  }

  lemma StepInPlace(c: Cluster, x: Shadow, s: Step, d: Cluster)
    requires Sim(c, x) && Accepts(c, s) && d == Next(c, s)
    ensures s.HandleAppend? && s.call < |c.calls|
    ensures var call := c.calls[s.call];
      call.callee in d.peers && call.request.AppendEntries? && Holds(d.peers[call.callee].log, call.request.prev, call.request.entries)
  {
    hide Sim, OnAppendEntries, Merge, ApplyEvents;
    var call := c.calls[s.call];
    var p := c.peers[call.callee];
    var o := AppendMarks(p, call.request);
    var sent := AppendArrives(c, x, s.call);
    assert d.peers[call.callee].log == o.log == Adopted(p.log, sent.log);
    TailInPlace(sent.log, o.log, call.request.prev);
  }

  lemma TailInPlace(whole: Log, log: Log, at: nat)
    requires at <= |whole| && whole <= log
    ensures Holds(log, at, whole[at..])
  {
  }

  // ------------------------------------------------------------------
  // The apply cursor
  // ------------------------------------------------------------------

  /** What was applied is what the log says up to the cursor, and the cursor is within the mark. */
  ghost predicate AppliedOk(p: Peer) {
    && p.appliedIndex <= p.commitIndex && p.appliedIndex <= |p.log|
    && p.applied == VisibleIn(p.log, 0, p.appliedIndex)
  }

  lemma {:induction false} VisibleSplit(log: Log, lo: nat, mid: nat, hi: nat)
    requires lo <= mid <= hi <= |log|
    ensures VisibleIn(log, lo, hi) == VisibleIn(log, lo, mid) + VisibleIn(log, mid, hi)
    decreases mid - lo
  {
    hide VisibleIn;
    if lo < mid {
      VisibleSplit(log, lo + 1, mid, hi);
      VisibleNext(log, lo, hi);
      VisibleNext(log, lo, mid);
      Regroup(if log[lo].command != "" then [log[lo]] else [], VisibleIn(log, lo + 1, mid), VisibleIn(log, mid, hi));
    } else {
      NoneVisible(log, lo);
      assert [] + VisibleIn(log, mid, hi) == VisibleIn(log, mid, hi);
    }
  }

  lemma NoneVisible(log: Log, lo: nat)
    requires lo <= |log|
    ensures VisibleIn(log, lo, lo) == []
  {
  }

  lemma Regroup(a: seq<Entry>, b: seq<Entry>, c: seq<Entry>)
    ensures a + (b + c) == (a + b) + c
  {
  }

  /** What is visible depends on the entries alone. */
  lemma VisibleSame(a: Log, b: Log, hi: nat)
    requires hi <= |a| && hi <= |b| && a[..hi] == b[..hi]
    ensures VisibleIn(a, 0, hi) == VisibleIn(b, 0, hi)
  {
    assert a[0..hi] == a[..hi] == b[0..hi];
  }

  lemma ApplyOk(o: Peer)
    requires o.appliedIndex <= |o.log| && o.applied == VisibleIn(o.log, 0, o.appliedIndex) && o.appliedIndex <= o.commitIndex
    ensures AppliedOk(ApplyCommitted(o))
  {
    hide Visible;
    var hi := ApplyLimit(o);
    if o.appliedIndex < hi {
      VisibleSplit(o.log, 0, o.appliedIndex, hi);
    }
  }

  /** Nothing more was applied, and nothing applied was lost, or the machine started afresh. */
  ghost predicate Steady(p: Peer, q: Peer) {
    || (q.applied == [] && q.appliedIndex == 0)
    || (q.applied == p.applied && q.appliedIndex == p.appliedIndex && p.commitIndex <= q.commitIndex && p.log <= q.log)
  }

  lemma SteadyOk(p: Peer, q: Peer)
    requires AppliedOk(p) && Steady(p, q)
    ensures AppliedOk(q)
  {
    if q.appliedIndex == p.appliedIndex && p.log <= q.log {
      VisibleSame(p.log, q.log, p.appliedIndex);
    }
  }

  // ------------------------------------------------------------------
  // Every step
  // ------------------------------------------------------------------

  lemma SteadyStep(c: Cluster, s: Step, n: Name)
    requires Enabled(c, s) && n in c.peers && !s.HandleAppend? && !s.PushReply?
    ensures n in Next(c, s).peers && Steady(c.peers[n], Next(c, s).peers[n])
  {
    hide OnRequestVote, OnVoteReply, OnAppendReply, AppendRequest;
    match s {
      case HandleVote(call) => VoteSteady(c.peers[c.calls[call].callee], c.calls[call].request);
      case CountVote(m, peer) => CountSteady(c.peers[m], peer, c.calls[c.peers[m].solicitors[peer].call].reply.value);
      case PushTimeout(m, peer) => TimeoutSteady(c.peers[m], peer, c.calls[c.peers[m].pushers[peer].call].request);
      case _ =>
    }
  }

  lemma VoteSteady(p: Peer, m: Request)
    requires m.RequestVote?
    ensures Steady(p, OnRequestVote(p, m).0)
  {
  }

  lemma CountSteady(p: Peer, from: Name, reply: Reply)
    requires reply.Voted?
    ensures Steady(p, OnVoteReply(p, from, reply))
  {
  }

  lemma TimeoutSteady(p: Peer, from: Name, m: Request)
    requires m.AppendEntries? && p.pushTerm.Some? && from in p.nextIndex
    ensures Steady(p, OnAppendReply(p, from, m, None).0)
  {
  }

  /** A leader applies what its scan commits. */
  lemma ReplyOk(p: Peer, from: Name, m: Request, reply: Option<Reply>)
    requires AppliedOk(p) && m.AppendEntries? && p.pushTerm.Some? && from in p.nextIndex
    requires reply.Some? ==> reply.value.Appended?
    ensures AppliedOk(OnAppendReply(p, from, m, reply).0)
  {
    hide AdvanceCommit, VisibleIn;
    if reply.Some? && reply.value.ok && p.role == Leader && p.term == p.pushTerm.value && reply.value.term <= p.term {
      var held := m.prev + |m.entries|;
      AdvanceOk(p.(pushers := p.pushers[from := Idle], matchIndex := p.matchIndex[from := held],
                   nextIndex := p.nextIndex[from := held + 1]), p.pushTerm.value);
    }
  }

  lemma AdvanceOk(o: Peer, term: nat)
    requires AppliedOk(o)
    ensures AppliedOk(AdvanceCommit(o, term).0)
  {
    hide Scan, VisibleIn, ApplyCommitted;
    var to := Scan(o, term, |o.log|);
    if to > o.commitIndex {
      ApplyOk(o.(commitIndex := to));
    }
  }

  /** A follower that is not cut short keeps what it has applied, and applies what it is told is committed. */
  lemma AppendOk(p: Peer, m: Request)
    requires AppliedOk(p) && m.AppendEntries? && p.commitIndex <= |p.log|
    requires OnAppendEntries(p, m).1.ok ==> !Conflicts(p, m)
    ensures AppliedOk(OnAppendEntries(p, m).0)
  {
    hide Merge, VisibleIn, Conflicts, ApplyCommitted, ApplyEvents, OnAppendEntries;
    if p.term <= m.term && Matches(p.log, m.prev, m.prevTerm) {
      AppendTakes(p, m);
      ConflictCuts(p, m);
      var o := Taken(p, m);
      assert o.log[..p.appliedIndex] == p.log[..p.appliedIndex] by { assert p.log[..p.commitIndex] <= o.log; }
      VisibleSame(p.log, o.log, p.appliedIndex);
      ApplyOk(o);
    } else {
      RefusedSteady(p, m);
      SteadyOk(p, OnAppendEntries(p, m).0);
    }
  }

  lemma RefusedSteady(p: Peer, m: Request)
    requires m.AppendEntries? && !(p.term <= m.term && Matches(p.log, m.prev, m.prevTerm))
    ensures Steady(p, OnAppendEntries(p, m).0)
  {
    hide Merge, ApplyCommitted, ApplyEvents;
  }

  ghost predicate AllApplied(c: Cluster) {
    forall n :: n in c.peers ==> AppliedOk(c.peers[n])
  }

  lemma StepApplied(c: Cluster, x: Shadow, s: Step, d: Cluster)
    requires Enabled(c, s) && d == Next(c, s) && AllSettled(c, x) && AllApplied(c) && !Cuts(c, s)
    ensures AllApplied(d)
  {
    hide Next, Enabled, AppliedOk, AllSettled, Cuts;
    StepPeers(c, s);
    forall n | n in d.peers ensures AppliedOk(d.peers[n]) {
      PeerApplied(c, x, s, d, n);
    }
  }

  lemma PeerApplied(c: Cluster, x: Shadow, s: Step, d: Cluster, n: Name)
    requires n in c.peers && n in d.peers
    requires Enabled(c, s) && d == Next(c, s) && AllSettled(c, x) && AllApplied(c) && !Cuts(c, s)
    ensures AppliedOk(d.peers[n])
  {
    hide AppliedOk, OnAppendEntries, OnAppendReply, OnRequestVote, OnVoteReply, AppendRequest, Conflicts, Steady, Settled;
    var p := c.peers[n];
    if s.HandleAppend? && n == c.calls[s.call].callee {
      assert PeerSettled(p, x.core);
      Reaches(x.core, p.log, p.commitIndex);
      AppendOk(p, c.calls[s.call].request);
    } else if s.PushReply? && n == s.n {
      var k := c.calls[p.pushers[s.peer].call];
      ReplyOk(p, s.peer, k.request, k.reply);
    } else if !s.HandleAppend? && !s.PushReply? {
      SteadyStep(c, s, n);
      SteadyOk(p, d.peers[n]);
    }
  }

  // ------------------------------------------------------------------
  // Runs
  // ------------------------------------------------------------------

  lemma {:induction false} RunApplied(r: Run, xs: seq<Shadow>, k: nat)
    requires IsRun(r) && k < |r.states| && Shadowed(r, xs, |r.steps|) && NothingCut(r, k)
    ensures AllApplied(r.states[k])
  {
    hide Sim, Enabled, Next, AllSettled, LedOk, Follows, Stamped, Cuts, AppliedOk;
    if k == 0 {
      StartApplied(r.states[0]);
    } else {
      RunApplied(r, xs, k - 1);
      RunExact(r, xs, k - 1);
      StepApplied(r.states[k - 1], xs[k - 1], r.steps[k - 1], r.states[k]);
    }
  }

  lemma StartApplied(c: Cluster)
    requires Initial(c)
    ensures AllApplied(c)
  {
    forall n | n in c.peers ensures AppliedOk(c.peers[n]) {
      assert c.peers[n] == Booted(n, c.peers[n].peers, 0, None, []);
    }
  }

  /** As long as nothing committed was cut, every state machine has seen what its log says up to the apply
      cursor, and of two of them one has seen all that the other has, in the same order, and perhaps more. */
  lemma MachinesAgree(r: Run, k: nat, m: Name, n: Name)
    requires IsRun(r) && k < |r.states| && NothingCut(r, k) && m in r.states[k].peers && n in r.states[k].peers
    requires r.states[k].peers[m].appliedIndex <= r.states[k].peers[n].appliedIndex
    ensures r.states[k].peers[m].applied <= r.states[k].peers[n].applied
    ensures AppliedOk(r.states[k].peers[m]) && AppliedOk(r.states[k].peers[n])
  {
    assert |r.states| == |r.steps| + 1;
    hide IsRun, Inv, LedOk, Mirrors, Follows, Stamped, NothingCut, AllSettled, AppliedOk;
    var xs := ShadowRun(r, |r.steps|);
    RunExact(r, xs, k);
    RunApplied(r, xs, k);
    assert AllSettled(r.states[k], xs[k]);
    PeersAgree(r.states[k], xs[k], m, n);
  }

  lemma PeersAgree(c: Cluster, x: Shadow, m: Name, n: Name)
    requires Inv(x.core) && AllSettled(c, x) && AllApplied(c) && m in c.peers && n in c.peers
    requires c.peers[m].appliedIndex <= c.peers[n].appliedIndex
    ensures c.peers[m].applied <= c.peers[n].applied
  {
    hide Inv, Settled, VisibleIn;
    var p, q := c.peers[m], c.peers[n];
    assert PeerSettled(p, x.core) && PeerSettled(q, x.core);
    Reaches(x.core, p.log, p.commitIndex);
    Reaches(x.core, q.log, q.commitIndex);
    if p.commitIndex <= q.commitIndex {
      SettledAgree(x.core, p.log, q.log, p.commitIndex, q.commitIndex);
      assert p.log[..p.appliedIndex] == p.log[..p.commitIndex][..p.appliedIndex] == q.log[..p.appliedIndex];
    } else {
      SettledAgree(x.core, q.log, p.log, q.commitIndex, p.commitIndex);
      assert q.log[..p.appliedIndex] == q.log[..q.commitIndex][..p.appliedIndex] == p.log[..p.appliedIndex];
    }
    VisibleSame(p.log, q.log, p.appliedIndex);
    VisibleSplit(q.log, 0, p.appliedIndex, q.appliedIndex);
  }
}
