/** The four safety claims, over every run. */
module RaftTheorems {
  import opened Helpers
  import opened RaftLog
  import opened RaftCore
  import opened RaftActions
  import opened RaftPeer
  import opened RaftCluster
  import opened RaftShadow
  import opened RaftSim
  import opened RaftReplicate
  import opened RaftSafety
  import opened RaftCommit

  lemma ShadowAt(r: Run, k: nat) returns (x: Shadow)
    requires IsRun(r) && k < |r.states|
    ensures Sim(r.states[k], x) && LedOk(r.states[k].events, x.core.reigns)
  {
    hide Sim, LedOk, IsRun;
    var xs := ShadowRun(r, k);
    x := xs[k];
  }

  // ------------------------------------------------------------------
  // Election safety
  // ------------------------------------------------------------------

  /** At most one node becomes leader in any term, and never twice. */
  lemma ElectionSafety(r: Run, k: nat, i: nat, j: nat)
    requires IsRun(r) && k < |r.states|
    requires i < j < |r.states[k].events| && r.states[k].events[i].Led? && r.states[k].events[j].Led?
    ensures r.states[k].events[i].term != r.states[k].events[j].term
  {
    hide Sim, IsRun;
    var x := ShadowAt(r, k);
  }

  /** At some moment of the run so far, `v` was in `term` with its vote, on disk, given to `n`. */
  ghost predicate VotedBy(r: Run, k: nat, v: Name, term: nat, n: Name) {
    exists j :: 0 <= j <= k && j < |r.states| && VoteStands(r.states[j], v, term, n)
  }

  ghost predicate VoteStands(c: Cluster, v: Name, term: nat, n: Name) {
    v in c.peers && c.peers[v].term == term && c.peers[v].votedFor == Some(n)
  }

  /** Every win rests on the votes of a majority of distinct nodes. */
  lemma WinHasMajority(r: Run, k: nat, n: Name) returns (voters: set<Name>)
    requires IsRun(r) && k < |r.steps| && r.steps[k] == Win(n)
    ensures voters <= r.states[k].peers.Keys && |voters| >= Quorum(|r.states[k].peers|)
    ensures n in r.states[k].peers && n in voters
    ensures forall v :: v in voters ==> VotedBy(r, k, v, r.states[k].peers[n].term, n)
  {
    hide Sim, Next, VotedBy;
    var c := r.states[k];
    var xs := ShadowRun(r, k);
    assert Enabled(c, Win(n));
    voters := WinVoters(c, xs[k], n);
    forall v | v in voters ensures VotedBy(r, k, v, c.peers[n].term, n) {
      BallotWasCast(r, xs, k, v, c.peers[n].term, n);
    }
  }

  lemma WinVoters(c: Cluster, x: Shadow, n: Name) returns (voters: set<Name>)
    requires Sim(c, x) && Enabled(c, Win(n))
    ensures voters <= c.peers.Keys && |voters| >= Quorum(|c.peers|) && n in voters
    ensures forall v :: v in voters ==> VotedFor(x.core.ballots, c.peers[n].term, v, n)
  {
    assert PeerOk(n, c.peers[n], c.calls, x);
    voters := x.counted[n];
    PeersCount(c.peers.Keys, n, c.peers[n].peers);
    assert |c.peers| == |c.peers.Keys|;
  }

  /** A ballot on record was a vote once. */
  lemma {:induction false} BallotWasCast(r: Run, xs: seq<Shadow>, k: nat, v: Name, term: nat, n: Name)
    requires IsRun(r) && k < |r.states| && k < |xs|
    requires forall i :: 0 <= i <= k ==> Sim(r.states[i], xs[i])
    requires forall i :: 0 <= i < k ==> Follows(xs[i], xs[i + 1])
    requires VotedFor(xs[k].core.ballots, term, v, n)
    ensures VotedBy(r, k, v, term, n)
  {
    hide Sim, Next, Enabled, IsRun, Grows;
    var b := Ballot(term, v);
    StartsInitial(r);
    NoBallotAtStart(r.states[0], xs[0], b);
    if b in xs[k - 1].core.ballots {
      BallotSame(xs[k - 1], xs[k], b);
      BallotWasCast(r, xs, k - 1, v, term, n);
    } else {
      BallotIsNew(xs[k - 1], xs[k], b);
      BallotShows(r.states[k], xs[k], v, term, n);
      assert VoteStands(r.states[k], v, term, n);
    }
  }

  lemma BallotSame(x: Shadow, y: Shadow, b: Ballot)
    requires Follows(x, y) && b in x.core.ballots
    ensures b in y.core.ballots && y.core.ballots[b] == x.core.ballots[b]
  {
  }

  lemma StartsInitial(r: Run)
    requires IsRun(r)
    ensures Initial(r.states[0])
  {
  }

  lemma BallotIsNew(x: Shadow, y: Shadow, b: Ballot)
    requires Follows(x, y) && b in y.core.ballots && b !in x.core.ballots
    ensures b.voter in y.core.members && y.core.members[b.voter].term == b.term
  {
  }

  lemma NoBallotAtStart(c: Cluster, x: Shadow, b: Ballot)
    requires Initial(c) && Sim(c, x)
    ensures b !in x.core.ballots
  {
    assert b in x.core.ballots ==> b.voter in c.peers && b.term == 0;
    assert b.voter in c.peers ==> PeerOk(b.voter, c.peers[b.voter], c.calls, x);
  }

  lemma BallotShows(c: Cluster, x: Shadow, v: Name, term: nat, n: Name)
    requires Sim(c, x) && VotedFor(x.core.ballots, term, v, n)
    requires v in x.core.members && x.core.members[v].term == term
    ensures VoteStands(c, v, term, n)
  {
    MemberAt(c, x, v);
    assert PeerOk(v, c.peers[v], c.calls, x);
  }

  /** A vote, once given, stands for the rest of its term, through crashes and reboots. */
  lemma {:induction false} VoteDurable(r: Run, i: nat, k: nat, v: Name)
    requires IsRun(r) && i <= k < |r.states| && v in r.states[i].peers && v in r.states[k].peers
    requires r.states[i].peers[v].term == r.states[k].peers[v].term && r.states[i].peers[v].votedFor.Some?
    ensures r.states[k].peers[v].votedFor == r.states[i].peers[v].votedFor
    decreases k
  {
    hide Next, Enabled, Initial;
    if i < k {
      PeersConstant(r, k);
      PeersConstant(r, k - 1);
      TermsRise(r, i, k - 1, v);
      assert r.states[k] == Next(r.states[k - 1], r.steps[k - 1]);
      StepStill(r.states[k - 1], r.steps[k - 1], v);
      VoteDurable(r, i, k - 1, v);
    }
  }

  /** Terms never fall, and a node that stands in its term after a step stood there before
      it with the same log, unless the step opened the candidacy; a vote stands for its term. */
  ghost predicate Still(p: Peer, q: Peer) {
    && p.term <= q.term
    && (q.role == Candidate && q.term == p.term ==> p.role == Candidate && p.log == q.log)
    && (q.term == p.term && p.votedFor.Some? ==> q.votedFor == p.votedFor)
  }

  lemma StepStill(c: Cluster, s: Step, n: Name)
    requires Enabled(c, s) && n in c.peers
    ensures n in Next(c, s).peers && Still(c.peers[n], Next(c, s).peers[n])
  {
    hide OnRequestVote, OnVoteReply, OnAppendEntries, OnAppendReply, AppendRequest, Merge, LastTerm;
    match s {
      case HandleVote(call) => VoteStill(c.peers[c.calls[call].callee], c.calls[call].request);
      case CountVote(m, peer) =>
        CountStill(c.peers[m], peer, c.calls[c.peers[m].solicitors[peer].call].reply.value);
      case HandleAppend(call) => AppendStill(c.peers[c.calls[call].callee], c.calls[call].request);
      case PushReply(m, peer) =>
        var k := c.calls[c.peers[m].pushers[peer].call];
        ReplyStill(c.peers[m], peer, k.request, k.reply);
      case PushTimeout(m, peer) =>
        ReplyStill(c.peers[m], peer, c.calls[c.peers[m].pushers[peer].call].request, None);
      case _ =>
    }
  }

  lemma VoteStill(p: Peer, m: Request)
    requires m.RequestVote?
    ensures Still(p, OnRequestVote(p, m).0)
  {
  }

  lemma CountStill(p: Peer, from: Name, reply: Reply)
    requires reply.Voted?
    ensures Still(p, OnVoteReply(p, from, reply))
  {
  }

  lemma AppendStill(p: Peer, m: Request)
    requires m.AppendEntries?
    ensures Still(p, OnAppendEntries(p, m).0)
  {
    AppendOutcome(p, m);
  }

  lemma ReplyStill(p: Peer, from: Name, m: Request, reply: Option<Reply>)
    requires m.AppendEntries? && p.pushTerm.Some? && from in p.nextIndex && from in p.pushers
    requires reply.Some? ==> reply.value.Appended?
    ensures Still(p, OnAppendReply(p, from, m, reply).0)
  {
    ReplyGoes(p, from, m, reply);
  }

  lemma StepPeers(c: Cluster, s: Step)
    requires Enabled(c, s)
    ensures Next(c, s).peers.Keys == c.peers.Keys
  {
  }

  lemma {:induction false} PeersConstant(r: Run, k: nat)
    requires IsRun(r) && k < |r.states|
    ensures r.states[k].peers.Keys == r.states[0].peers.Keys
  {
    hide Next, Enabled, Initial;
    if k > 0 {
      PeersConstant(r, k - 1);
      assert r.states[k] == Next(r.states[k - 1], r.steps[k - 1]);
      StepPeers(r.states[k - 1], r.steps[k - 1]);
    }
  }

  /** A candidate's log does not change from any request of its term to its win. */
  lemma {:induction false} CandidateLogFixed(r: Run, i: nat, k: nat, n: Name)
    requires IsRun(r) && i <= k < |r.states| && n in r.states[i].peers && n in r.states[k].peers
    requires r.states[k].peers[n].role == Candidate && r.states[i].peers[n].term == r.states[k].peers[n].term
    ensures r.states[i].peers[n].role == Candidate && r.states[i].peers[n].log == r.states[k].peers[n].log
    decreases k
  {
    hide Next, Enabled, Initial;
    if i < k {
      PeersConstant(r, k);
      PeersConstant(r, k - 1);
      TermsRise(r, i, k - 1, n);
      assert r.states[k] == Next(r.states[k - 1], r.steps[k - 1]);
      StepStill(r.states[k - 1], r.steps[k - 1], n);
      CandidateLogFixed(r, i, k - 1, n);
    }
  }

  lemma {:induction false} TermsRise(r: Run, i: nat, k: nat, n: Name)
    requires IsRun(r) && i <= k < |r.states| && n in r.states[0].peers
    ensures n in r.states[i].peers && n in r.states[k].peers
    ensures r.states[i].peers[n].term <= r.states[k].peers[n].term
    decreases k
  {
    hide Next, Enabled, Initial;
    PeersConstant(r, i);
    PeersConstant(r, k);
    if i < k {
      TermsRise(r, i, k - 1, n);
      assert r.states[k] == Next(r.states[k - 1], r.steps[k - 1]);
      StepStill(r.states[k - 1], r.steps[k - 1], n);
    }
  }

  // ------------------------------------------------------------------
  // Log matching
  // ------------------------------------------------------------------

  /** Two logs with the same term at an index are identical up to it. */
  lemma LogMatching(r: Run, k: nat, a: Name, b: Name, i: nat)
    requires IsRun(r) && k < |r.states| && a in r.states[k].peers && b in r.states[k].peers
    requires i < |r.states[k].peers[a].log| && i < |r.states[k].peers[b].log|
    requires r.states[k].peers[a].log[i].term == r.states[k].peers[b].log[i].term
    ensures r.states[k].peers[a].log[..i + 1] == r.states[k].peers[b].log[..i + 1]
  {
    hide IsRun;
    var x := ShadowAt(r, k);
    MemberAt(r.states[k], x, a);
    MemberAt(r.states[k], x, b);
    Matching(x.core.reigns, r.states[k].peers[a].log, r.states[k].peers[b].log, i);
  }

  /** Every log's terms never decrease, and a leader's never exceed its own term. */
  lemma LogsSorted(r: Run, k: nat, n: Name)
    requires IsRun(r) && k < |r.states| && n in r.states[k].peers
    ensures NonDecreasing(r.states[k].peers[n].log)
    ensures r.states[k].peers[n].role == Leader ==>
      forall i :: 0 <= i < |r.states[k].peers[n].log| ==> r.states[k].peers[n].log[i].term <= r.states[k].peers[n].term
  {
    hide IsRun;
    var x := ShadowAt(r, k);
    var p := r.states[k].peers[n];
    MemberAt(r.states[k], x, n);
    GoodSorted(x.core.reigns, p.log);
    if p.role == Leader {
      assert ReignShape(p.term, x.core.reigns[p.term]);
    }
  }

  /** So on every run the scan finds exactly the greatest index a majority holds. */
  lemma ScanExact(r: Run, k: nat, n: Name)
    requires IsRun(r) && k < |r.states| && n in r.states[k].peers && r.states[k].peers[n].role == Leader
    ensures var p := r.states[k].peers[n];
      var to := Scan(p, p.term, |p.log|);
      && (to == p.commitIndex || Committable(p, p.term, to))
      && (forall i: nat :: Committable(p, p.term, i) ==> i <= to)
  {
    var p := r.states[k].peers[n];
    LogsSorted(r, k, n);
    ScanFinds(p, p.term, |p.log|);
    ScanIsGreatest(p, p.term, |p.log|);
  }

  // ------------------------------------------------------------------
  // Leader completeness
  // ------------------------------------------------------------------

  lemma {:induction false} FollowsFar(xs: seq<Shadow>, i: nat, j: nat)
    requires i <= j < |xs| && forall k :: 0 <= k < |xs| - 1 ==> Follows(xs[k], xs[k + 1])
    ensures Grows(xs[i].core, xs[j].core)
    decreases j
  {
    if i < j {
      FollowsFar(xs, i, j - 1);
      GrowsTransitive(xs[i].core, xs[j - 1].core, xs[j].core);
    }
  }

  /** Every leader of a later term -- elected before or after the commit is counted -- opens
      with the committing leader's log through the index it committed. */
  lemma LeaderCompleteness(r: Run, i: nat, k: nat, e: Event)
    requires IsRun(r) && i < |r.steps| && Commits(r.states[i], r.steps[i])
    requires k < |r.states| && e in r.states[k].events && e.Led? && e.term > r.states[i].peers[r.steps[i].n].term
    ensures var p := r.states[i + 1].peers[r.steps[i].n]; p.commitIndex <= |p.log| && p.log[..p.commitIndex] <= e.log
  {
    hide Inv, Mirrors, Next, Commits, Enabled, LedOk, Grows, Initial, Stamped, ChosenIn;
    var far := if i + 1 <= k then k else i + 1;
    var xs := ShadowRun(r, far);
    FollowsFar(xs, i + 1, far);
    FollowsFar(xs, k, far);
    var n := CommitsAt(r.states[i], r.steps[i], r.states[i + 1], xs[i + 1]);
    CompleteAt(r.states[i + 1].peers[n], xs[i + 1].core, r.states[k].events, xs[k].core, xs[far].core, e);
  }

  /** Where the commit took place, and that the leader's log is fixed through its mark. */
  lemma CommitsAt(c: Cluster, s: Step, d: Cluster, y: Shadow) returns (n: Name)
    requires Commits(c, s) && d == Next(c, s) && Sim(d, y)
    ensures s.PushReply? && n == s.n && n in c.peers && n in d.peers
    ensures d.peers[n].term == c.peers[n].term && ChosenIn(y.core, d.peers[n])
  {
    hide Sim, ChosenIn;
    n := s.n;
    CommitIsChosen(c, s, d, y);
  }

  lemma CompleteAt(p: Peer, g: Core, events: seq<Event>, h: Core, far: Core, e: Event)
    requires ChosenIn(g, p) && LedOk(events, h.reigns)
    requires Inv(far) && Grows(g, far) && Grows(h, far)
    requires e in events && e.Led? && e.term > p.term
    ensures p.commitIndex <= |p.log| && p.log[..p.commitIndex] <= e.log
  {
    hide Inv, Grows, LedOk, Chosen;
    ChosenStays(g, far, p.term, p.commitIndex);
    LedOpens(events, h, far, e);
    ChosenSurvives(far, p.term, p.commitIndex, e.term);
  }

  lemma LedOpens(events: seq<Event>, g: Core, h: Core, e: Event)
    requires LedOk(events, g.reigns) && Grows(g, h) && e in events && e.Led?
    ensures e.term in h.reigns && h.reigns[e.term].start <= e.log
  {
    assert LedBy(e, g.reigns);
    assert ReignGrows(g.reigns[e.term], h.reigns[e.term]);
  }
}
