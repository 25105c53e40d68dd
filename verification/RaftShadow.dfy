/**
  How a running cluster is shadowed by the consensus core: what each peer and
  each call in flight owes to the core's history.
*/
module RaftShadow {
  import opened Helpers
  import opened RaftLog
  import opened RaftCore
  import opened RaftActions
  import opened RaftPeer
  import opened RaftCluster

  /** The core, the whole log behind each append call, and who each candidate has counted. */
  datatype Shadow = Shadow(core: Core, sent: seq<Option<Sent>>, counted: map<Name, set<Name>>)

  ghost predicate VoteSim(n: Name, p: Peer, ballots: Ballots) {
    match p.votedFor
    case None => Ballot(p.term, n) !in ballots
    case Some(c) => VotedFor(ballots, p.term, n, c)
  }

  ghost predicate PeerSim(n: Name, p: Peer, m: Member, ballots: Ballots) {
    && p.name == n && p.term == m.term && p.log == m.log
    && m.candidate == p.role.Candidate? && m.leader == p.role.Leader? && m.push == p.pushTerm
    && p.campaign <= p.term
    && VoteSim(n, p, ballots)
  }

  /** The count is of distinct voters, and none of them can be counted again. */
  ghost predicate CountSim(names: set<Name>, n: Name, p: Peer, counted: set<Name>, ballots: Ballots) {
    && p.solicitors.Keys <= (set q | q in p.peers)
    && (p.role.Candidate? ==>
         && p.campaign == p.term
         && p.granted == |counted|
         && (p.settled ==> p.granted >= QuorumOf(p))
         && n in counted && counted <= names
         && counted !! p.solicitors.Keys
         && (forall v :: v in counted ==> VotedFor(ballots, p.term, v, n)))
  }

  ghost predicate SolicitSim(n: Name, p: Peer, calls: seq<Call>) {
    forall q :: q in p.solicitors && p.solicitors[q].Asking? ==>
      && p.solicitors[q].call < |calls|
      && var k := calls[p.solicitors[q].call];
         k.request.RequestVote? && k.caller == n && k.callee == q && k.request.term == p.campaign
  }

  ghost predicate PushSim(n: Name, p: Peer, calls: seq<Call>, sent: seq<Option<Sent>>) {
    && p.pushers.Keys <= (set q | q in p.peers)
    && forall q :: q in p.pushers && p.pushers[q].Pushing? ==>
      && p.pushers[q].call < |calls| && p.pushTerm.Some?
      && (var k := calls[p.pushers[q].call];
          k.request.AppendEntries? && k.caller == n && k.callee == q && k.request.term == p.pushTerm.value)
      && (p.role.Leader? ==> IsPrompt(sent, p.pushers[q].call))
  }

  ghost predicate IsPrompt(sent: seq<Option<Sent>>, id: nat) {
    id < |sent| && sent[id].Some? && sent[id].value.prompt
  }

  ghost predicate Confirmed(core: Core, t: nat, v: Name, upTo: nat) {
    t in core.reigns && AcksThrough(t, v, |core.reigns[t].start|, upTo) <= core.acks
  }

  ghost predicate LeaderSim(n: Name, p: Peer, core: Core) {
    p.role.Leader? ==>
      && Confirmed(core, p.term, n, |p.log|)
      && (forall q :: q in p.matchIndex ==> Confirmed(core, p.term, q, p.matchIndex[q]))
  }

  ghost predicate PeerOk(n: Name, p: Peer, calls: seq<Call>, x: Shadow) {
    && n in x.core.members && n in x.counted
    && Neighbours(x.core.members.Keys, n, p.peers)
    && PeerSim(n, p, x.core.members[n], x.core.ballots)
    && CountSim(x.core.members.Keys, n, p, x.counted[n], x.core.ballots)
    && SolicitSim(n, p, calls)
    && PushSim(n, p, calls, x.sent)
    && LeaderSim(n, p, x.core)
  }

  ghost predicate VoteCallOk(k: Call, core: Core)
    requires k.request.RequestVote?
  {
    && k.caller in core.members && k.callee in core.members
    && k.request.candidate == k.caller
    && var m := core.members[k.caller];
    && k.request.term <= m.term
    && (m.candidate && m.term == k.request.term ==>
         k.request.lastTerm == LastTerm(m.log) && k.request.lastIndex == |m.log|)
    && (k.reply.Some? ==> k.reply.value.Voted?)
    && (k.reply.Some? && k.reply.value.granted ==> VotedFor(core.ballots, k.request.term, k.callee, k.caller))
  }

  /** An append carries the tail of one whole log past a point they agree on. */
  ghost predicate Carries(m: Request, log: Log)
    requires m.AppendEntries?
  {
    && m.prev <= |log| && m.entries == log[m.prev..]
    && (m.prev > 0 ==> m.prevTerm == log[m.prev - 1].term)
  }

  ghost predicate AppendCallOk(k: Call, core: Core, s: Sent)
    requires k.request.AppendEntries?
  {
    && k.callee in core.members && k.callee != k.caller
    && s in core.sent && s.term == k.request.term && Carries(k.request, s.log)
    && s.term in core.reigns && core.reigns[s.term].leader == k.caller
    && (k.reply.Some? ==> k.reply.value.Appended?)
    && (k.reply.Some? && k.reply.value.ok && s.prompt ==> Confirmed(core, s.term, k.callee, |s.log|))
  }

  ghost predicate CallOk(id: nat, k: Call, x: Shadow) {
    match k.request
    case RequestVote(_, _, _, _) => VoteCallOk(k, x.core)
    case AppendEntries(_, _, _, _, _, _) => id < |x.sent| && x.sent[id].Some? && AppendCallOk(k, x.core, x.sent[id].value)
  }

  ghost predicate Sim(c: Cluster, x: Shadow) {
    Inv(x.core) && Mirrors(c, x)
  }

  ghost predicate Mirrors(c: Cluster, x: Shadow) {
    && c.peers.Keys == x.core.members.Keys
    && |c.calls| == |x.sent|
    && PeersOk(c.peers, c.calls, x)
    && CallsOk(c.calls, x)
  }

  ghost predicate PeersOk(peers: map<Name, Peer>, calls: seq<Call>, x: Shadow) {
    forall n :: n in peers ==> PeerOk(n, peers[n], calls, x)
  }

  ghost predicate CallsOk(calls: seq<Call>, x: Shadow) {
    forall id :: 0 <= id < |calls| ==> CallOk(id, calls[id], x)
  }

  // ------------------------------------------------------------------
  // One peer moves at a time
  // ------------------------------------------------------------------

  /** What a member's move may not do to the vote requests it already sent. */
  ghost predicate Moves(m: Member, l: Member) {
    && m.term <= l.term
    && (l.candidate && l.term == m.term ==> m.candidate && l.log == m.log)
  }

  ghost predicate CallsGrow(a: seq<Call>, b: seq<Call>) {
    && |a| <= |b|
    && (forall i :: 0 <= i < |a| ==>
         a[i].caller == b[i].caller && a[i].callee == b[i].callee && a[i].request == b[i].request)
  }

  ghost predicate ShadowGrows(x: Shadow, y: Shadow, n: Name) {
    && Grows(x.core, y.core)
    && x.sent <= y.sent
    && (forall k :: k in x.core.members && k != n ==> y.core.members[k] == x.core.members[k])
    && (forall k :: k in x.counted && k != n ==> k in y.counted && y.counted[k] == x.counted[k])
    && (forall b :: b in y.core.ballots && b !in x.core.ballots ==> b.voter == n)
    && (n in x.core.members ==> Moves(x.core.members[n], y.core.members[n]))
  }

  lemma ConfirmedStays(g: Core, h: Core, t: nat, v: Name, upTo: nat)
    requires Grows(g, h) && Confirmed(g, t, v, upTo)
    ensures Confirmed(h, t, v, upTo)
  {
    assert ReignGrows(g.reigns[t], h.reigns[t]);
  }

  lemma PeerStays(n: Name, p: Peer, a: seq<Call>, b: seq<Call>, x: Shadow, y: Shadow, moved: Name)
    requires PeerOk(n, p, a, x) && n != moved && ShadowGrows(x, y, moved) && CallsGrow(a, b)
    ensures PeerOk(n, p, b, y)
  {
    assert VoteSim(n, p, y.core.ballots);
    assert CountSim(y.core.members.Keys, n, p, y.counted[n], y.core.ballots) by {
      assert forall v :: VotedFor(x.core.ballots, p.term, v, n) ==> VotedFor(y.core.ballots, p.term, v, n);
    }
    LeaderStays(n, p, x.core, y.core);
  }

  lemma LeaderStays(n: Name, p: Peer, g: Core, h: Core)
    requires LeaderSim(n, p, g) && Grows(g, h)
    ensures LeaderSim(n, p, h)
  {
    if p.role.Leader? {
      ConfirmedStays(g, h, p.term, n, |p.log|);
      forall q | q in p.matchIndex ensures Confirmed(h, p.term, q, p.matchIndex[q]) {
        ConfirmedStays(g, h, p.term, q, p.matchIndex[q]);
      }
    }
  }

  lemma CallStays(id: nat, k: Call, x: Shadow, y: Shadow, moved: Name)
    requires CallOk(id, k, x) && ShadowGrows(x, y, moved)
    ensures CallOk(id, k, y)
  {
    if k.request.AppendEntries? {
      var s := x.sent[id].value;
      assert ReignGrows(x.core.reigns[s.term], y.core.reigns[s.term]);
      if k.reply.Some? && k.reply.value.ok && s.prompt {
        ConfirmedStays(x.core, y.core, s.term, k.callee, |s.log|);
      }
    } else {
      var m := x.core.members[k.caller];
      assert k.caller != moved ==> y.core.members[k.caller] == m;
    }
  }

  /** After one peer's move, only that peer and the calls it touched need looking at. */
  lemma Assemble(c: Cluster, x: Shadow, d: Cluster, y: Shadow, n: Name, q: Peer)
    requires Mirrors(c, x) && n in c.peers && ShadowGrows(x, y, n)
    requires d.peers == c.peers[n := q] && d.calls == c.calls && |y.sent| == |x.sent|
    requires PeerOk(n, q, d.calls, y)
    ensures Mirrors(d, y)
  {
    hide PeerOk, CallOk, PeersOk, CallsOk;
    OthersStay(c.peers, d.peers, c.calls, d.calls, x, y, n);
    CallsStay(c.calls, d.calls, x, y, n);
  }

  /** The same, when the move also placed a call. */
  lemma AssembleCall(c: Cluster, x: Shadow, d: Cluster, y: Shadow, n: Name, q: Peer, k: Call)
    requires Mirrors(c, x) && n in c.peers && ShadowGrows(x, y, n)
    requires d.peers == c.peers[n := q] && d.calls == c.calls + [k] && |y.sent| == |x.sent| + 1
    requires PeerOk(n, q, d.calls, y) && CallOk(|c.calls|, k, y)
    ensures Mirrors(d, y)
  {
    hide PeerOk, CallOk, PeersOk, CallsOk;
    CallsStayWith(c.calls, k, x, y, n);
    OthersStay(c.peers, d.peers, c.calls, d.calls, x, y, n);
  }

  lemma CallsStayWith(a: seq<Call>, k: Call, x: Shadow, y: Shadow, n: Name)
    requires CallsOk(a, x) && ShadowGrows(x, y, n) && CallOk(|a|, k, y)
    ensures CallsGrow(a, a + [k]) && CallsOk(a + [k], y)
  {
    var b := a + [k];
    forall id | 0 <= id < |b| ensures CallOk(id, b[id], y) {
      if id < |a| {
        CallStays(id, a[id], x, y, n);
      }
    }
  }

  /** The same, when the move answered a call. */
  lemma AssembleReply(c: Cluster, x: Shadow, d: Cluster, y: Shadow, n: Name, q: Peer, id: nat, reply: Reply)
    requires Mirrors(c, x) && n in c.peers && ShadowGrows(x, y, n)
    requires id < |c.calls| && |y.sent| == |x.sent|
    requires d.peers == c.peers[n := q]
    requires d.calls == c.calls[id := c.calls[id].(reply := Some(reply))]
    requires PeerOk(n, q, d.calls, y) && CallOk(id, c.calls[id].(reply := Some(reply)), y)
    ensures Mirrors(d, y)
  {
    hide PeerOk, CallOk, PeersOk, CallsOk;
    ReplyGrows(c.calls, id, reply);
    CallsStay(c.calls, d.calls, x, y, n);
    OthersStay(c.peers, d.peers, c.calls, d.calls, x, y, n);
  }

  lemma ReplyGrows(calls: seq<Call>, id: nat, reply: Reply)
    requires id < |calls|
    ensures CallsGrow(calls, calls[id := calls[id].(reply := Some(reply))])
  {
  }

  lemma OthersStay(ps: map<Name, Peer>, qs: map<Name, Peer>, a: seq<Call>, b: seq<Call>, x: Shadow, y: Shadow, n: Name)
    requires PeersOk(ps, a, x) && ShadowGrows(x, y, n) && CallsGrow(a, b)
    requires n in ps && n in qs && qs == ps[n := qs[n]] && PeerOk(n, qs[n], b, y)
    ensures PeersOk(qs, b, y)
  {
    forall k | k in qs ensures PeerOk(k, qs[k], b, y) {
      if k != n {
        PeerStays(k, ps[k], a, b, x, y, n);
      }
    }
  }

  lemma CallsStay(a: seq<Call>, b: seq<Call>, x: Shadow, y: Shadow, n: Name)
    requires CallsOk(a, x) && ShadowGrows(x, y, n) && |a| <= |b|
    requires forall id :: 0 <= id < |b| && !(id < |a| && b[id] == a[id]) ==> CallOk(id, b[id], y)
    ensures CallsOk(b, y)
  {
    forall id | 0 <= id < |b| ensures CallOk(id, b[id], y) {
      if id < |a| && b[id] == a[id] {
        CallStays(id, a[id], x, y, n);
      }
    }
  }
}
