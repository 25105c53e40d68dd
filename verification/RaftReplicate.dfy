/** Replication steps as moves of the consensus core. */
module RaftReplicate {
  import opened Helpers
  import opened RaftLog
  import opened RaftCore
  import opened RaftActions
  import opened RaftPeer
  import opened RaftCluster
  import opened RaftShadow
  import opened RaftSim

  // ------------------------------------------------------------------
  // The follower's loop takes over the sender's whole log
  // ------------------------------------------------------------------

  /** Log matching between two logs. */
  ghost predicate Matched(a: Log, b: Log) {
    forall k :: 0 <= k < |a| && k < |b| && a[k].term == b[k].term ==> a[..k + 1] == b[..k + 1]
  }

  lemma {:induction false} MergeAdopts(mine: Log, theirs: Log, at: nat)
    requires at <= |mine| && at <= |theirs| && mine[..at] == theirs[..at] && Matched(mine, theirs)
    ensures Merge(mine, at, theirs[at..]) == Adopted(mine, theirs)
    decreases |theirs| - at
  {
    var rest := theirs[at..];
    if rest == [] {
      assert theirs == theirs[..at];
    } else {
      assert rest[0] == theirs[at] && rest[1..] == theirs[at + 1..];
      if at < |mine| && mine[at].term == theirs[at].term {
        MergeAdopts(mine, theirs, at + 1);
      } else {
        var cut := theirs[..at + 1];
        assert mine[..at] + [theirs[at]] == cut;
        assert at == |mine| ==> mine == mine[..at];
        MergeAdopts(cut, theirs, at + 1);
        assert Adopted(cut, theirs) == theirs;
        assert !(theirs <= mine);
      }
    }
  }

  lemma AppendAdopts(reigns: Reigns, mine: Log, s: Log, m: Request)
    requires Good(mine, reigns) && Good(s, reigns)
    requires m.AppendEntries? && Carries(m, s) && Matches(mine, m.prev, m.prevTerm)
    ensures Merge(mine, m.prev, m.entries) == Adopted(mine, s)
  {
    forall k | 0 <= k < |mine| && k < |s| && mine[k].term == s[k].term
      ensures mine[..k + 1] == s[..k + 1]
    {
      Matching(reigns, mine, s, k);
    }
    MergeAdopts(mine, s, m.prev);
  }

  // ------------------------------------------------------------------
  // Push
  // ------------------------------------------------------------------

  lemma PushSends(c: Cluster, x: Shadow, n: Name, peer: Name) returns (y: Shadow)
    requires Sim(c, x) && Enabled(c, Push(n, peer)) && c.peers[n].nextIndex[peer] <= |c.peers[n].log| + 1
    ensures Sim(Next(c, Push(n, peer)), y) && Follows(x, y)
    ensures n in x.core.members && x.core.members[n] == MemberOf(c.peers[n])
    ensures y.sent == x.sent + [Some(SentBy(x.core, n))]
  {
    MemberAt(c, x, n);
    var h := SendKeeps(x.core, n);
    y := x.(core := h, sent := x.sent + [Some(SentBy(x.core, n))]);
    PushPlaces(c, x, y, n, peer);
  }

  lemma PushDies(c: Cluster, x: Shadow, n: Name, peer: Name)
    requires Mirrors(c, x) && Enabled(c, Push(n, peer)) && c.peers[n].nextIndex[peer] > |c.peers[n].log| + 1
    ensures Mirrors(Next(c, Push(n, peer)), x)
  {
    hide PeerOk, CallOk, Grows;
    NothingGrows(x, n);
    var q := c.peers[n].(pushers := c.peers[n].pushers - {peer});
    PusherGone(n, c.peers[n], peer, c.calls, x);
    Assemble(c, x, Next(c, Push(n, peer)), x, n, q);
  }

  lemma NothingGrows(x: Shadow, n: Name)
    ensures ShadowGrows(x, x, n)
  {
  }

  lemma PusherGone(n: Name, p: Peer, peer: Name, calls: seq<Call>, x: Shadow)
    requires PeerOk(n, p, calls, x)
    ensures PeerOk(n, p.(pushers := p.pushers - {peer}), calls, x)
  {
    QuietOk(n, p, p.(pushers := p.pushers - {peer}), calls, x);
  }

  /** A change the core does not see: pushers resting or ending, and what is known of peers. */
  ghost predicate Quiet(p: Peer, q: Peer) {
    && q == p.(pushers := q.pushers, nextIndex := q.nextIndex, matchIndex := q.matchIndex,
               commitIndex := q.commitIndex, appliedIndex := q.appliedIndex, applied := q.applied)
    && q.pushers.Keys <= p.pushers.Keys
    && (forall k :: k in q.pushers && q.pushers[k].Pushing? ==> q.pushers[k] == p.pushers[k])
  }

  lemma QuietOk(n: Name, p: Peer, q: Peer, calls: seq<Call>, x: Shadow)
    requires PeerOk(n, p, calls, x) && Quiet(p, q)
    requires q.role.Leader? ==> forall k :: k in q.matchIndex ==> Confirmed(x.core, q.term, k, q.matchIndex[k])
    ensures PeerOk(n, q, calls, x)
  {
    assert CountSim(x.core.members.Keys, n, q, x.counted[n], x.core.ballots);
    assert LeaderSim(n, q, x.core);
    assert PushSim(n, q, calls, x.sent);
  }

  lemma PushPlaces(c: Cluster, x: Shadow, y: Shadow, n: Name, peer: Name)
    requires Mirrors(c, x) && Enabled(c, Push(n, peer))
    requires n in x.core.members && MemberOk(n, x.core.members[n], x.core.reigns)
    requires c.peers[n].nextIndex[peer] <= |c.peers[n].log| + 1
    requires x.core.members[n].push.Some?
    requires y == x.(core := x.core.(sent := x.core.sent + {SentBy(x.core, n)}),
                     sent := x.sent + [Some(SentBy(x.core, n))])
    ensures Mirrors(Next(c, Push(n, peer)), y)
  {
    hide CallOk, CallsOk, Neighbours, MemberOk, SentBy, AppendRequest;
    assert PeerOk(n, c.peers[n], c.calls, x);
    hide PeerOk;
    var d := Next(c, Push(n, peer));
    PushPeer(n, c.peers[n], peer, c.calls, x, y);
    AssembleCall(c, x, d, y, n, d.peers[n], Call(n, peer, AppendRequest(c.peers[n], peer), None));
  }

  lemma PushPeer(n: Name, p: Peer, peer: Name, calls: seq<Call>, x: Shadow, y: Shadow)
    requires PeerOk(n, p, calls, x) && peer in p.pushers && |calls| == |x.sent|
    requires p.pushTerm.Some? && peer in p.nextIndex && p.nextIndex[peer] <= |p.log| + 1
    requires MemberOk(n, x.core.members[n], x.core.reigns)
    requires y == x.(core := x.core.(sent := x.core.sent + {SentBy(x.core, n)}),
                     sent := x.sent + [Some(SentBy(x.core, n))])
    ensures var k := Call(n, peer, AppendRequest(p, peer), None);
      && PeerOk(n, p.(pushers := p.pushers[peer := Pushing(|calls|)]), calls + [k], y)
      && CallOk(|calls|, k, y)
      && Grows(x.core, y.core)
  {
    var k := Call(n, peer, AppendRequest(p, peer), None);
    var q := p.(pushers := p.pushers[peer := Pushing(|calls|)]);
    assert peer in p.peers;
    assert PushSim(n, q, calls + [k], y.sent);
    assert SolicitSim(n, q, calls + [k]);
    assert LeaderSim(n, q, y.core) by { LeaderStays(n, q, x.core, y.core); }
  }

  // ------------------------------------------------------------------
  // HandleAppend
  // ------------------------------------------------------------------

  lemma HandleAppendSim(c: Cluster, x: Shadow, id: nat) returns (y: Shadow)
    requires Sim(c, x) && Enabled(c, HandleAppend(id))
    ensures Sim(Next(c, HandleAppend(id)), y) && Follows(x, y) && y.sent == x.sent
  {
    hide OnAppendEntries, Outcome, Sim, Follows;
    var k := c.calls[id];
    var p := c.peers[k.callee];
    var (p', reply, events) := OnAppendEntries(p, k.request);
    AppendOutcome(p, k.request);
    var d := Next(c, HandleAppend(id));
    assert d.peers == c.peers[k.callee := p'] && d.calls == c.calls[id := k.(reply := Some(reply))];
    y := AppendStep(c, x, id, Heard(p, k.request.term), p', reply, d);
  }

  lemma AppendStep(c: Cluster, x: Shadow, id: nat, r: Peer, p': Peer, reply: Reply, d: Cluster) returns (y: Shadow)
    requires Sim(c, x) && id < |c.calls| && c.calls[id].request.AppendEntries? && c.calls[id].reply.None?
    requires c.calls[id].callee in c.peers
    requires Outcome(c.peers[c.calls[id].callee], c.calls[id].request, r, p', reply)
    requires d.peers == c.peers[c.calls[id].callee := p']
    requires d.calls == c.calls[id := c.calls[id].(reply := Some(reply))]
    ensures Sim(d, y) && Follows(x, y) && y.sent == x.sent
  {
    ReplyGrows(c.calls, id, reply);
    y := AppendMove(c, x, id, r, p', reply, d.calls);
    AssembleReply(c, x, d, y, c.calls[id].callee, p', id, reply);
  }

  lemma AppendMove(c: Cluster, x: Shadow, id: nat, r: Peer, p': Peer, reply: Reply, b: seq<Call>) returns (y: Shadow)
    requires Sim(c, x) && id < |c.calls| && c.calls[id].request.AppendEntries? && c.calls[id].reply.None?
    requires c.calls[id].callee in c.peers && CallsGrow(c.calls, b)
    requires Outcome(c.peers[c.calls[id].callee], c.calls[id].request, r, p', reply)
    ensures Inv(y.core) && ShadowGrows(x, y, c.calls[id].callee) && Follows(x, y) && y.sent == x.sent
    ensures PeerOk(c.calls[id].callee, p', b, y)
    ensures CallOk(id, c.calls[id].(reply := Some(reply)), y)
  {
    hide Sim, ShadowGrows, PeerOk, Inv, CallOk;
    var k := c.calls[id];
    y := YieldSim(c, x, id, r, b);
    if reply.ok {
      var z := y;
      y := AdoptSim(r, k, id, b, z, p');
      GrowsTwice(x, z, y, k.callee);
    } else {
      RefusalOk(id, k, y, reply);
    }
  }

  lemma RefusalOk(id: nat, k: Call, y: Shadow, reply: Reply)
    requires CallOk(id, k, y) && k.request.AppendEntries? && reply.Appended? && !reply.ok
    ensures CallOk(id, k.(reply := Some(reply)), y)
  {
  }

  /** The two ways an append can go, as far as the core is concerned. */
  ghost predicate Outcome(p: Peer, m: Request, r: Peer, p': Peer, reply: Reply)
    requires m.AppendEntries?
  {
    && Yields(p, r) && reply.Appended?
    && (!reply.ok ==> p' == r)
    && (reply.ok ==>
         && r.term == m.term == reply.term && r.role != Candidate && Matches(r.log, m.prev, m.prevTerm)
         && Alike(r.(log := Merge(r.log, m.prev, m.entries)), p'))
  }

  /** A peer after learning the sender's term and, if it is current, yielding to it. */
  function Heard(p: Peer, term: nat): Peer {
    var q := CatchUp(p, term);
    if term < q.term then q else if q.role == Candidate then q.(role := Follower) else q
  }

  /** What the core sees of a peer: applying and commit marks are invisible to it. */
  ghost predicate Alike(p: Peer, q: Peer) {
    q == p.(commitIndex := q.commitIndex, appliedIndex := q.appliedIndex, applied := q.applied)
  }

  lemma AppendOutcome(p: Peer, m: Request)
    requires m.AppendEntries?
    ensures var (p', reply, _) := OnAppendEntries(p, m); Outcome(p, m, Heard(p, m.term), p', reply)
  {
    hide Merge, ApplyCommitted, ApplyEvents, Yields, Matches;
    HeardYields(p, m.term);
    ApplyAlike();
  }

  lemma ApplyAlike()
    ensures forall o: Peer :: Alike(o, ApplyCommitted(o))
  {
    hide Visible;
  }

  lemma HeardYields(p: Peer, term: nat)
    ensures Yields(p, Heard(p, term))
    ensures term >= p.term ==> Heard(p, term).term == term && Heard(p, term).role != Candidate
  {
    hide Yields;
    CatchUpYields(p, term);
    StandsDown(CatchUp(p, term));
    YieldsTwice(p, CatchUp(p, term), Heard(p, term));
  }

  lemma StandsDown(q: Peer)
    ensures Yields(q, q) && (q.role == Candidate ==> Yields(q, q.(role := Follower)))
  {
  }

  lemma YieldsTwice(p: Peer, q: Peer, r: Peer)
    requires Yields(p, q) && Yields(q, r)
    ensures Yields(p, r)
  {
  }

  lemma AdoptSim(r: Peer, k: Call, id: nat, b: seq<Call>, z: Shadow, p': Peer) returns (y: Shadow)
    requires Inv(z.core) && PeerOk(k.callee, r, b, z)
    requires k.request.AppendEntries? && CallOk(id, k, z) && k.reply.None?
    requires r.term == k.request.term && r.role != Candidate && Matches(r.log, k.request.prev, k.request.prevTerm)
    requires Alike(r.(log := Merge(r.log, k.request.prev, k.request.entries)), p')
    ensures Inv(y.core) && ShadowGrows(z, y, k.callee) && y.sent == z.sent && y.core.ballots == z.core.ballots
    ensures PeerOk(k.callee, p', b, y)
    ensures CallOk(id, k.(reply := Some(Appended(r.term, true))), y)
  {
    var s := z.sent[id].value;
    var h := AdoptKeeps(z.core, k.callee, s);
    assert MemberOk(k.callee, z.core.members[k.callee], z.core.reigns) && SentLogOk(s, z.core.reigns);
    AppendAdopts(z.core.reigns, r.log, s.log, k.request);
    y := z.(core := h);
    AdoptPeer(r, k, id, b, z, y, s, p');
  }

  lemma AdoptPeer(q: Peer, k: Call, id: nat, calls: seq<Call>, z: Shadow, y: Shadow, s: Sent, p': Peer)
    requires PeerOk(k.callee, q, calls, z) && CallOk(id, k, z)
    requires k.request.AppendEntries? && z.sent[id].value == s && k.reply.None? && q.term == k.request.term
    requires MemberOk(k.callee, z.core.members[k.callee], z.core.reigns)
    requires y == z.(core := Adoption(z.core, k.callee, s)) && Grows(z.core, y.core)
    requires q.role != Candidate && Alike(q.(log := Adopted(q.log, s.log)), p')
    ensures ShadowGrows(z, y, k.callee)
    ensures PeerOk(k.callee, p', calls, y)
    ensures CallOk(id, k.(reply := Some(Appended(q.term, true))), y)
  {
    var v := k.callee;
    assert q.role != Leader;
    assert PeerSim(v, p', y.core.members[v], y.core.ballots);
    assert CountSim(y.core.members.Keys, v, p', y.counted[v], y.core.ballots);
    assert s.prompt ==> Confirmed(y.core, s.term, v, |s.log|);
    assert LeaderSim(v, p', y.core);
  }

  // ------------------------------------------------------------------
  // Replies to pushers, and pushers stopping
  // ------------------------------------------------------------------

  /** How a reply, or giving up on one, leaves the pusher's node. */
  ghost predicate ReplyOutcome(p: Peer, from: Name, m: Request, reply: Option<Reply>, q: Peer)
    requires m.AppendEntries?
  {
    if reply.Some? && reply.value.term > p.term then
      q == BecomeFollower(p.(pushers := p.pushers - {from}), reply.value.term)
    else
      && Quiet(p, q)
      && (q.matchIndex == p.matchIndex
          || (p.role == Leader && reply.Some? && reply.value.Appended? && reply.value.ok
              && q.matchIndex == p.matchIndex[from := m.prev + |m.entries|]))
  }

  lemma ReplyGoes(p: Peer, from: Name, m: Request, reply: Option<Reply>)
    requires m.AppendEntries? && p.pushTerm.Some? && from in p.nextIndex && from in p.pushers
    requires reply.Some? ==> reply.value.Appended?
    ensures ReplyOutcome(p, from, m, reply, OnAppendReply(p, from, m, reply).0)
  {
    hide AdvanceCommit;
    var q := OnAppendReply(p, from, m, reply).0;
    if !(reply.Some? && reply.value.term > p.term) {
      if p.role == Leader && p.term == p.pushTerm.value && reply.Some? && reply.value.ok {
        var held := m.prev + |m.entries|;
        var o := p.(pushers := p.pushers[from := Idle], matchIndex := p.matchIndex[from := held],
                    nextIndex := p.nextIndex[from := held + 1]);
        assert q == AdvanceCommit(o, p.pushTerm.value).0;
        AdvanceAlike(o, p.pushTerm.value);
      }
    }
  }

  lemma AdvanceAlike(o: Peer, term: nat)
    ensures Alike(o, AdvanceCommit(o, term).0)
  {
    hide Scan, Visible, ApplyEvents;
  }

  lemma ReplyDeposes(c: Cluster, x: Shadow, n: Name, q: Peer, d: Cluster) returns (y: Shadow)
    requires Sim(c, x) && n in c.peers && q.term > c.peers[n].term
    requires q == BecomeFollower(c.peers[n].(pushers := q.pushers), q.term)
    requires q.pushers.Keys <= c.peers[n].pushers.Keys
    requires forall k :: k in q.pushers ==> q.pushers[k] == c.peers[n].pushers[k]
    requires d.peers == c.peers[n := q] && d.calls == c.calls
    ensures Sim(d, y) && Follows(x, y) && y.sent == x.sent
  {
    assert PeerOk(n, c.peers[n], c.calls, x);
    assert PushSim(n, q, c.calls, x.sent);
    y := RelaxSim(c, x, n, q, c.calls);
    Assemble(c, x, d, y, n, q);
  }

  lemma ReplyMirrors(c: Cluster, x: Shadow, n: Name, peer: Name, reply: Option<Reply>, q: Peer, d: Cluster)
    requires Mirrors(c, x) && Waiting(c, n, peer)
    requires n in x.core.members && MemberOk(n, x.core.members[n], x.core.reigns)
    requires var k := c.calls[c.peers[n].pushers[peer].call];
      && (reply.None? || reply == k.reply) && ReplyOutcome(c.peers[n], peer, k.request, reply, q)
      && !(reply.Some? && reply.value.term > c.peers[n].term)
    requires d.peers == c.peers[n := q] && d.calls == c.calls
    ensures Mirrors(d, x)
  {
    hide PeerOk, CallOk;
    var p := c.peers[n];
    var id := p.pushers[peer].call;
    assert PeerOk(n, p, c.calls, x) && CallOk(id, c.calls[id], x);
    HeldConfirmed(n, p, peer, c.calls, x, reply, q);
    QuietOk(n, p, q, c.calls, x);
    Assemble(c, x, d, x, n, q);
  }

  lemma HeldConfirmed(n: Name, p: Peer, peer: Name, calls: seq<Call>, x: Shadow, reply: Option<Reply>, q: Peer)
    requires PeerOk(n, p, calls, x) && peer in p.pushers && p.pushers[peer].Pushing?
    requires var id := p.pushers[peer].call;
      && id < |calls| && calls[id].request.AppendEntries? && CallOk(id, calls[id], x)
      && (reply.None? || reply == calls[id].reply)
      && !(reply.Some? && reply.value.term > p.term)
      && ReplyOutcome(p, peer, calls[id].request, reply, q)
    requires n in x.core.members && MemberOk(n, x.core.members[n], x.core.reigns)
    ensures q.role.Leader? ==> forall k :: k in q.matchIndex ==> Confirmed(x.core, q.term, k, q.matchIndex[k])
  {
    if q.role.Leader? && q.matchIndex != p.matchIndex {
      var id := p.pushers[peer].call;
      var s := x.sent[id].value;
      assert |s.log| == calls[id].request.prev + |calls[id].request.entries|;
      assert Confirmed(x.core, s.term, peer, |s.log|);
      assert s.term == p.term;
    }
  }

  lemma StopPushingSim(c: Cluster, x: Shadow, n: Name) returns (y: Shadow)
    requires Sim(c, x) && Enabled(c, StopPushing(n))
    ensures Sim(Next(c, StopPushing(n)), y) && Follows(x, y) && y.sent == x.sent
  {
    MemberAt(c, x, n);
    var q := c.peers[n].(pushTerm := None, pushers := map[]);
    y := RelaxSim(c, x, n, q, c.calls);
    Assemble(c, x, Next(c, StopPushing(n)), y, n, q);
  }

  lemma CrashSim(c: Cluster, x: Shadow, n: Name) returns (y: Shadow)
    requires Sim(c, x) && Enabled(c, Crash(n))
    ensures Sim(Next(c, Crash(n)), y) && Follows(x, y) && y.sent == x.sent
  {
    hide PeerOk, CallOk, Inv, Mirrors, ShadowGrows;
    MemberAt(c, x, n);
    var q := c.peers[n].(role := Follower, pushTerm := None, pushers := map[], solicitors := map[]);
    y := RelaxSim(c, x, n, q, c.calls);
    RebootOk(n, q, c.calls, y);
    Assemble(c, x, Next(c, Crash(n)), y, n, Reboot(c.peers[n]));
  }

  lemma RebootOk(n: Name, q: Peer, calls: seq<Call>, x: Shadow)
    requires PeerOk(n, q, calls, x) && q.role == Follower && q.pushTerm == None
    ensures PeerOk(n, Reboot(q), calls, x)
  {
    assert CountSim(x.core.members.Keys, n, Reboot(q), x.counted[n], x.core.ballots);
  }

  lemma ProposeSim(c: Cluster, x: Shadow, n: Name, command: string) returns (y: Shadow)
    requires Sim(c, x) && Enabled(c, Propose(n, command)) && c.peers[n].role == Leader && command != ""
    ensures Sim(Next(c, Propose(n, command)), y) && Follows(x, y) && y.sent == x.sent
  {
    hide PeerOk, CallOk, Inv, Mirrors, ShadowGrows;
    MemberAt(c, x, n);
    PeerAt(c, x, n);
    var h := ExtendKeeps(x.core, n, command);
    y := x.(core := h);
    var q := c.peers[n].(log := c.peers[n].log + [Entry(c.peers[n].term, command)]);
    ProposePeer(n, c.peers[n], q, command, c.calls, x, y);
    Assemble(c, x, Next(c, Propose(n, command)), y, n, q);
  }

  lemma ProposePeer(n: Name, p: Peer, q: Peer, command: string, calls: seq<Call>, x: Shadow, y: Shadow)
    requires PeerOk(n, p, calls, x) && p.role == Leader && p.term in x.core.reigns
    requires q == p.(log := p.log + [Entry(p.term, command)])
    requires y == x.(core := Extension(x.core, n, command)) && Grows(x.core, y.core)
    ensures PeerOk(n, q, calls, y) && ShadowGrows(x, y, n)
  {
    assert CountSim(y.core.members.Keys, n, q, y.counted[n], y.core.ballots);
    LeaderStays(n, p, x.core, y.core);
    assert Confirmed(y.core, p.term, n, |q.log|);
    assert LeaderSim(n, q, y.core);
  }
}
