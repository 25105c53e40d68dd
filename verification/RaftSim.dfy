/** Every step of a cluster is a move of the consensus core. */
module RaftSim {
  import opened Helpers
  import opened RaftLog
  import opened RaftCore
  import opened RaftActions
  import opened RaftPeer
  import opened RaftCluster
  import opened RaftShadow

  ghost predicate Follows(x: Shadow, y: Shadow) {
    Grows(x.core, y.core) && x.sent <= y.sent && VotesNow(x.core, y.core)
  }

  /** A ballot is cast in the term its voter is in. */
  ghost predicate VotesNow(g: Core, h: Core) {
    forall b :: b in h.ballots && b !in g.ballots ==> b.voter in h.members && h.members[b.voter].term == b.term
  }

  lemma PeerAt(c: Cluster, x: Shadow, n: Name)
    requires Sim(c, x) && n in c.peers
    ensures PeerOk(n, c.peers[n], c.calls, x)
    ensures MemberOk(n, x.core.members[n], x.core.reigns)
  {
  }

  lemma MemberAt(c: Cluster, x: Shadow, n: Name)
    requires Sim(c, x) && n in c.peers
    ensures n in x.core.members && x.core.members[n] == MemberOf(c.peers[n])
    ensures MemberOk(n, x.core.members[n], x.core.reigns)
  {
    assert PeerOk(n, c.peers[n], c.calls, x);
  }

  lemma CallAt(c: Cluster, x: Shadow, id: nat)
    requires Sim(c, x) && id < |c.calls|
    ensures CallOk(id, c.calls[id], x)
  {
  }

  /** A peer that only gives up standing, or only changes what the core does not see. */
  ghost predicate Steps(p: Peer, q: Peer) {
    && q.name == p.name && q.peers == p.peers && q.log == p.log
    && (q.term == p.term ==> q.votedFor == p.votedFor)
    && (q.term != p.term ==> q.votedFor == None)
  }

  function MemberOf(p: Peer): Member {
    Member(p.term, p.log, p.role.Candidate?, p.role.Leader?, p.pushTerm)
  }

  lemma RelaxSim(c: Cluster, x: Shadow, n: Name, q: Peer, calls: seq<Call>) returns (y: Shadow)
    requires Sim(c, x) && n in c.peers
    requires Steps(c.peers[n], q) && Relaxes(MemberOf(c.peers[n]), MemberOf(q))
    requires q.campaign == c.peers[n].campaign
    requires q.solicitors == c.peers[n].solicitors || (q.solicitors == map[] && !q.role.Candidate?)
    requires q.role.Candidate? ==> q.granted == c.peers[n].granted && q.settled == c.peers[n].settled
    requires PushSim(n, q, calls, x.sent)
    requires q.role.Leader? ==> q.matchIndex == c.peers[n].matchIndex
    requires CallsGrow(c.calls, calls)
    ensures y == x.(core := x.core.(members := x.core.members[n := MemberOf(q)]))
    ensures Follows(x, y) && ShadowGrows(x, y, n) && Inv(y.core)
    ensures PeerOk(n, q, calls, y)
  {
    PeerAt(c, x, n);
    var p := c.peers[n];
    assert MemberOf(p) == x.core.members[n];
    var h := RelaxKeeps(x.core, n, MemberOf(q));
    y := x.(core := h);
    RelaxPeer(n, p, q, c.calls, calls, x, y);
  }

  lemma RelaxPeer(n: Name, p: Peer, q: Peer, a: seq<Call>, b: seq<Call>, x: Shadow, y: Shadow)
    requires PeerOk(n, p, a, x) && Steps(p, q) && Relaxes(MemberOf(p), MemberOf(q))
    requires q.campaign == p.campaign
    requires q.solicitors == p.solicitors || (q.solicitors == map[] && !q.role.Candidate?)
    requires q.role.Candidate? ==> q.granted == p.granted && q.settled == p.settled
    requires PushSim(n, q, b, x.sent)
    requires q.role.Leader? ==> q.matchIndex == p.matchIndex
    requires CallsGrow(a, b) && BallotsOk(x.core.ballots, x.core.members)
    requires y == x.(core := x.core.(members := x.core.members[n := MemberOf(q)]))
    ensures PeerOk(n, q, b, y)
  {
    assert y.core.members.Keys == x.core.members.Keys;
    assert q.term != p.term ==> Ballot(q.term, n) !in x.core.ballots;
    assert PeerSim(n, q, MemberOf(q), x.core.ballots);
    assert LeaderSim(n, q, y.core) by {
      if q.role.Leader? {
        assert LeaderSim(n, p, x.core);
        ConfirmedSame(x.core, y.core);
      }
    }
  }

  lemma ConfirmedSame(g: Core, h: Core)
    requires g.reigns == h.reigns && g.acks <= h.acks
    ensures forall t: nat, v: Name, k: nat :: Confirmed(g, t, v, k) ==> Confirmed(h, t, v, k)
  {
  }

  // ------------------------------------------------------------------
  // Elections
  // ------------------------------------------------------------------

  lemma TimeoutSim(c: Cluster, x: Shadow, n: Name) returns (y: Shadow)
    requires Sim(c, x) && Enabled(c, Timeout(n))
    ensures Sim(Next(c, Timeout(n)), y) && Follows(x, y) && y.sent == x.sent
  {
    PeerAt(c, x, n);
    var h := StandKeeps(x.core, n);
    y := x.(core := h, counted := x.counted[n := {n}]);
    CampaignPeer(n, c.peers[n], c.calls, x, y);
    Assemble(c, x, Next(c, Timeout(n)), y, n, Campaign(c.peers[n]));
  }

  lemma CampaignPeer(n: Name, p: Peer, calls: seq<Call>, x: Shadow, y: Shadow)
    requires PeerOk(n, p, calls, x) && p.pushTerm.None? && p.role != Leader
    requires y == x.(core := Stood(x.core, n), counted := x.counted[n := {n}])
    ensures PeerOk(n, Campaign(p), calls, y) && ShadowGrows'(x, y, n)
  {
    var q := Campaign(p);
    assert y.core.members.Keys == x.core.members.Keys;
    assert PeerSim(n, q, y.core.members[n], y.core.ballots);
    assert q.solicitors.Keys == set k | k in q.peers;
    assert CountSim(y.core.members.Keys, n, q, {n}, y.core.ballots);
  }

  /** Everything about a shadow's growth except the core's own history. */
  ghost predicate ShadowGrows'(x: Shadow, y: Shadow, n: Name) {
    Grows(x.core, y.core) ==> ShadowGrows(x, y, n)
  }

  lemma SolicitMirrors(c: Cluster, x: Shadow, n: Name, peer: Name)
    requires Mirrors(c, x) && Enabled(c, Solicit(n, peer))
    ensures Mirrors(Next(c, Solicit(n, peer)), x.(sent := x.sent + [None]))
  {
    hide PeerOk, CallOk, ShadowGrows;
    var p := c.peers[n];
    assert PeerOk(n, p, c.calls, x);
    var y := x.(sent := x.sent + [None]);
    SentLonger(x, None, n);
    var q := p.(solicitors := p.solicitors[peer := Asking(|c.calls|)]);
    SolicitPeer(n, p, peer, c.calls, x, y);
    AssembleCall(c, x, Next(c, Solicit(n, peer)), y, n, q, Call(n, peer, VoteRequest(p), None));
  }

  lemma SentLonger(x: Shadow, s: Option<Sent>, n: Name)
    ensures ShadowGrows(x, x.(sent := x.sent + [s]), n)
  {
  }

  lemma SolicitPeer(n: Name, p: Peer, peer: Name, calls: seq<Call>, x: Shadow, y: Shadow)
    requires PeerOk(n, p, calls, x) && peer in p.solicitors && y == x.(sent := x.sent + [None])
    ensures var k := Call(n, peer, VoteRequest(p), None);
      && PeerOk(n, p.(solicitors := p.solicitors[peer := Asking(|calls|)]), calls + [k], y)
      && CallOk(|calls|, k, y)
  {
    var q := p.(solicitors := p.solicitors[peer := Asking(|calls|)]);
    assert peer in p.peers;
    assert q.solicitors.Keys == p.solicitors.Keys;
    assert SolicitSim(n, q, calls + [Call(n, peer, VoteRequest(p), None)]);
    assert PushSim(n, q, calls + [Call(n, peer, VoteRequest(p), None)], y.sent);
  }

  /** Giving up standing and nothing else. */
  ghost predicate Yields(p: Peer, r: Peer) {
    && Steps(p, r) && Relaxes(MemberOf(p), MemberOf(r))
    && r.campaign == p.campaign && r.solicitors == p.solicitors
    && r.granted == p.granted && r.settled == p.settled
    && r.pushers == p.pushers && r.pushTerm == p.pushTerm && r.matchIndex == p.matchIndex
  }

  lemma CatchUpYields(p: Peer, term: nat)
    ensures Yields(p, CatchUp(p, term))
  {
  }

  lemma YieldPeer(n: Name, p: Peer, r: Peer, a: seq<Call>, b: seq<Call>, x: Shadow, z: Shadow)
    requires PeerOk(n, p, a, x) && Yields(p, r) && CallsGrow(a, b) && BallotsOk(x.core.ballots, x.core.members)
    requires z == x.(core := x.core.(members := x.core.members[n := MemberOf(r)]))
    ensures PeerOk(n, r, b, z)
  {
    assert PushSim(n, r, b, x.sent);
    RelaxPeer(n, p, r, a, b, x, z);
  }

  lemma YieldSim(c: Cluster, x: Shadow, id: nat, r: Peer, b: seq<Call>) returns (z: Shadow)
    requires Sim(c, x) && id < |c.calls| && CallsGrow(c.calls, b)
    requires c.calls[id].callee in c.peers && Yields(c.peers[c.calls[id].callee], r)
    ensures Inv(z.core) && ShadowGrows(x, z, c.calls[id].callee) && Follows(x, z) && z.sent == x.sent
    ensures z.core.ballots == x.core.ballots
    ensures PeerOk(c.calls[id].callee, r, b, z) && CallOk(id, c.calls[id], z)
  {
    var v := c.calls[id].callee;
    MemberAt(c, x, v);
    var g := RelaxKeeps(x.core, v, MemberOf(r));
    z := x.(core := g);
    assert PeerOk(v, c.peers[v], c.calls, x);
    YieldPeer(v, c.peers[v], r, c.calls, b, x, z);
    CallAt(c, x, id);
    CallStays(id, c.calls[id], x, z, v);
  }

  lemma HandleVoteSim(c: Cluster, x: Shadow, id: nat) returns (y: Shadow)
    requires Sim(c, x) && Enabled(c, HandleVote(id))
    ensures Sim(Next(c, HandleVote(id)), y) && Follows(x, y) && y.sent == x.sent
  {
    var k := c.calls[id];
    var d := Next(c, HandleVote(id));
    CallAt(c, x, id);
    ReplyGrows(c.calls, id, OnRequestVote(c.peers[k.callee], k.request).1);
    CatchUpYields(c.peers[k.callee], k.request.term);
    var z := YieldSim(c, x, id, CatchUp(c.peers[k.callee], k.request.term), d.calls);
    y := AnswerSim(c.peers[k.callee], k, d.calls, x, z);
    AssembleReply(c, x, d, y, k.callee, OnRequestVote(c.peers[k.callee], k.request).0, id,
                  OnRequestVote(c.peers[k.callee], k.request).1);
  }

  lemma AnswerSim(p: Peer, k: Call, calls: seq<Call>, x: Shadow, z: Shadow) returns (y: Shadow)
    requires k.request.RequestVote? && VoteCallOk(k, z.core) && k.reply.None?
    requires Inv(z.core) && ShadowGrows(x, z, k.callee) && z.core.ballots == x.core.ballots
    requires PeerOk(k.callee, CatchUp(p, k.request.term), calls, z)
    ensures Inv(y.core) && ShadowGrows(x, y, k.callee) && Follows(x, y) && y.sent == z.sent
    ensures var (q, reply) := OnRequestVote(p, k.request);
      PeerOk(k.callee, q, calls, y) && VoteCallOk(k.(reply := Some(reply)), y.core)
  {
    hide Inv, PeerOk, ShadowGrows, CanGrant;
    var (q, reply) := OnRequestVote(p, k.request);
    if reply.granted {
      y := GrantSim(z, CatchUp(p, k.request.term), k, calls);
      GrowsTwice(x, z, y, k.callee);
    } else {
      y := z;
      NoVotes(x, z, k.callee);
    }
  }

  lemma NoVotes(x: Shadow, z: Shadow, n: Name)
    requires ShadowGrows(x, z, n) && z.core.ballots == x.core.ballots
    ensures Follows(x, z)
  {
  }

  lemma GrowsTwice(x: Shadow, z: Shadow, y: Shadow, n: Name)
    requires ShadowGrows(x, z, n) && ShadowGrows(z, y, n) && z.core.ballots == x.core.ballots && VotesNow(z.core, y.core)
    ensures ShadowGrows(x, y, n) && Follows(x, y)
  {
    GrowsTransitive(x.core, z.core, y.core);
  }

  lemma GrantSim(z: Shadow, q: Peer, k: Call, calls: seq<Call>) returns (y: Shadow)
    requires Inv(z.core) && PeerOk(k.callee, q, calls, z) && k.request.RequestVote? && VoteCallOk(k, z.core)
    requires q.term == k.request.term && k.reply.None?
    requires q.votedFor.Some? ==> q.votedFor.value == k.caller
    requires AtLeastAsFresh(k.request.lastTerm, k.request.lastIndex, q.log)
    ensures ShadowGrows(z, y, k.callee) && Inv(y.core) && y.sent == z.sent && VotesNow(z.core, y.core)
    ensures PeerOk(k.callee, q.(votedFor := Some(k.caller)), calls, y)
    ensures VoteCallOk(k.(reply := Some(Voted(q.term, true))), y.core)
  {
    assert CanGrant(z.core, k.callee, k.caller, k.request.lastTerm, k.request.lastIndex);
    var h := GrantKeeps(z.core, k.callee, k.caller, k.request.lastTerm, k.request.lastIndex);
    y := z.(core := h);
    GrantPeer(z, y, q, k, calls);
  }

  lemma GrantPeer(z: Shadow, y: Shadow, q: Peer, k: Call, calls: seq<Call>)
    requires PeerOk(k.callee, q, calls, z) && k.request.RequestVote? && VoteCallOk(k, z.core)
    requires q.term == k.request.term && k.reply.None?
    requires q.votedFor.Some? ==> q.votedFor.value == k.caller
    requires y == z.(core := Granted(z.core, k.callee, k.caller)) && Grows(z.core, y.core)
    ensures ShadowGrows(z, y, k.callee)
    ensures PeerOk(k.callee, q.(votedFor := Some(k.caller)), calls, y)
    ensures VoteCallOk(k.(reply := Some(Voted(q.term, true))), y.core)
  {
    var v := k.callee;
    assert CountSim(y.core.members.Keys, v, q, y.counted[v], y.core.ballots) by {
      assert forall w :: VotedFor(z.core.ballots, q.term, w, v) ==> VotedFor(y.core.ballots, q.term, w, v);
    }
    LeaderStays(v, q, z.core, y.core);
  }

  lemma CountVoteSim(c: Cluster, x: Shadow, n: Name, peer: Name) returns (y: Shadow)
    requires Sim(c, x) && Enabled(c, CountVote(n, peer))
    ensures Sim(Next(c, CountVote(n, peer)), y) && Follows(x, y) && y.sent == x.sent
  {
    hide CallOk, PeerOk, ShadowGrows, Inv, OnVoteReply, Follows;
    y := CountMove(c, x, n, peer);
    var reply := c.calls[c.peers[n].solicitors[peer].call].reply.value;
    Assemble(c, x, Next(c, CountVote(n, peer)), y, n, OnVoteReply(c.peers[n], peer, reply));
  }

  lemma CountMove(c: Cluster, x: Shadow, n: Name, peer: Name) returns (y: Shadow)
    requires Sim(c, x) && Enabled(c, CountVote(n, peer))
    ensures var reply := c.calls[c.peers[n].solicitors[peer].call].reply.value;
      PeerOk(n, OnVoteReply(c.peers[n], peer, reply), c.calls, y)
    ensures Inv(y.core) && ShadowGrows(x, y, n) && Follows(x, y) && y.sent == x.sent
  {
    hide CallOk;
    PeerAt(c, x, n);
    var p := c.peers[n];
    var k := c.calls[p.solicitors[peer].call];
    CallAt(c, x, p.solicitors[peer].call);
    if k.reply.value.term > p.term {
      y := CountHigher(c, x, n, peer, k.reply.value);
    } else {
      y := CountSame(n, p, peer, k, c.calls, x);
    }
  }

  /** A reply from a later term ends the candidacy. */
  lemma CountHigher(c: Cluster, x: Shadow, n: Name, peer: Name, reply: Reply) returns (y: Shadow)
    requires Sim(c, x) && Running(c, n) && reply.Voted? && reply.term > c.peers[n].term
    ensures PeerOk(n, OnVoteReply(c.peers[n], peer, reply), c.calls, y)
    ensures Inv(y.core) && ShadowGrows(x, y, n) && Follows(x, y) && y.sent == x.sent
  {
    hide CallOk, ShadowGrows, Inv, Follows;
    PeerAt(c, x, n);
    var p := c.peers[n];
    y := RelaxSim(c, x, n, BecomeFollower(p, reply.term), c.calls);
    FewerSolicitors(n, BecomeFollower(p, reply.term), OnVoteReply(p, peer, reply), c.calls, y);
  }

  lemma CountSame(n: Name, p: Peer, peer: Name, k: Call, calls: seq<Call>, x: Shadow) returns (y: Shadow)
    requires PeerOk(n, p, calls, x) && peer in p.solicitors && p.solicitors[peer].Asking?
    requires k == calls[p.solicitors[peer].call] && VoteCallOk(k, x.core)
    requires k.reply.Some? && k.reply.value.term <= p.term
    ensures PeerOk(n, OnVoteReply(p, peer, k.reply.value), calls, y)
    ensures ShadowGrows(x, y, n) && Follows(x, y) && y.core == x.core && y.sent == x.sent
  {
    if p.role == Candidate && p.term == p.campaign && k.reply.value.granted {
      y := x.(counted := x.counted[n := x.counted[n] + {peer}]);
      CountOne(n, p, OnVoteReply(p, peer, k.reply.value), peer, calls, x, y);
    } else {
      y := x;
      FewerSolicitors(n, p, OnVoteReply(p, peer, k.reply.value), calls, x);
    }
  }

  lemma FewerSolicitors(n: Name, p: Peer, q: Peer, calls: seq<Call>, x: Shadow)
    requires PeerOk(n, p, calls, x)
    requires q == p.(solicitors := q.solicitors, settled := q.settled)
    requires q.settled == p.settled || !p.role.Candidate?
    requires q.solicitors.Keys <= p.solicitors.Keys
    requires forall k :: k in q.solicitors ==> q.solicitors[k] == p.solicitors[k]
    ensures PeerOk(n, q, calls, x)
  {
  }

  lemma CountOne(n: Name, p: Peer, q: Peer, peer: Name, calls: seq<Call>, x: Shadow, y: Shadow)
    requires PeerOk(n, p, calls, x) && p.role == Candidate && peer in p.solicitors
    requires q == p.(solicitors := p.solicitors - {peer}, granted := p.granted + 1,
                     settled := p.settled || p.granted + 1 >= QuorumOf(p))
    requires VotedFor(x.core.ballots, p.term, peer, n)
    requires y == x.(counted := x.counted[n := x.counted[n] + {peer}])
    ensures PeerOk(n, q, calls, y)
  {
    assert peer in p.peers;
    assert peer !in x.counted[n];
    assert CountSim(y.core.members.Keys, n, q, y.counted[n], y.core.ballots);
    assert SolicitSim(n, q, calls);
    assert PushSim(n, q, calls, y.sent);
  }

  lemma PeersCount(names: set<Name>, n: Name, peers: seq<Name>)
    requires n in names && Neighbours(names, n, peers)
    ensures |peers| + 1 == |names|
  {
    var others := set q | q in peers;
    assert others == names - {n};
    DistinctCount(peers);
  }

  lemma {:induction false} DistinctCount(s: seq<Name>)
    requires forall i, j :: 0 <= i < j < |s| ==> s[i] != s[j]
    ensures |set q | q in s| == |s|
  {
    if s != [] {
      DistinctCount(s[1..]);
      assert (set q | q in s) == (set q | q in s[1..]) + {s[0]};
    } else {
      assert (set q | q in s) == {};
    }
  }

  lemma WinSim(c: Cluster, x: Shadow, n: Name) returns (y: Shadow)
    requires Sim(c, x) && Enabled(c, Win(n))
    ensures Sim(Next(c, Win(n)), y) && Follows(x, y) && y.sent == x.sent
    ensures c.peers[n].term !in x.core.reigns && y.core == Victory(x.core, n, x.counted[n])
  {
    hide CallOk, PeerOk, ShadowGrows, Inv, Follows, BecomeLeader, Victory;
    y := WinMove(c, x, n);
    Assemble(c, x, Next(c, Win(n)), y, n, BecomeLeader(c.peers[n]));
  }

  lemma WinMove(c: Cluster, x: Shadow, n: Name) returns (y: Shadow)
    requires Sim(c, x) && Enabled(c, Win(n))
    ensures PeerOk(n, BecomeLeader(c.peers[n]), c.calls, y)
    ensures Inv(y.core) && ShadowGrows(x, y, n) && Follows(x, y) && y.sent == x.sent
    ensures c.peers[n].term !in x.core.reigns && y.core == Victory(x.core, n, x.counted[n])
  {
    hide CallsOk, PeersOk, Inv, BecomeLeader;
    PeerAt(c, x, n);
    var p := c.peers[n];
    PeersCount(x.core.members.Keys, n, p.peers);
    var h := WinKeeps(x.core, n, x.counted[n]);
    y := x.(core := h);
    WinPeer(n, p, BecomeLeader(p), c.calls, x, y);
  }

  lemma WinPeer(n: Name, p: Peer, q: Peer, calls: seq<Call>, x: Shadow, y: Shadow)
    requires PeerOk(n, p, calls, x) && q == BecomeLeader(p) && p.role == Candidate
    requires y == x.(core := Victory(x.core, n, x.counted[n]))
    ensures PeerOk(n, q, calls, y)
  {
    assert y.core.members.Keys == x.core.members.Keys;
    assert CountSim(y.core.members.Keys, n, q, y.counted[n], y.core.ballots);
    assert AcksThrough(p.term, n, |p.log|, |q.log|) <= y.core.acks;
    assert LeaderSim(n, q, y.core);
  }
}
