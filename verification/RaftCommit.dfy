/** What the leader's commit scan computes, and what a commit rests on. */
module RaftCommit {
  import opened Helpers
  import opened RaftLog
  import opened RaftCore
  import opened RaftActions
  import opened RaftPeer
  import opened RaftCluster
  import opened RaftShadow
  import opened RaftSim

  /** `index` may be committed: a majority holds it and it is of the leader's own term. */
  ghost predicate Committable(p: Peer, term: nat, index: nat) {
    && p.commitIndex < index <= |p.log|
    && Replicas(p.peers, p.matchIndex, index) >= QuorumOf(p)
    && p.log[index - 1].term == term
  }

  lemma {:induction false} ScanFinds(p: Peer, term: nat, index: nat)
    requires index <= |p.log|
    ensures Scan(p, term, index) == p.commitIndex
      || (Scan(p, term, index) <= index && Committable(p, term, Scan(p, term, index)))
  {
    if index > p.commitIndex && Replicas(p.peers, p.matchIndex, index) < QuorumOf(p) {
      ScanFinds(p, term, index - 1);
    }
  }

  /** The early return misses nothing: with sorted terms no higher than the leader's,
      the scan finds the greatest committable index, or leaves the mark alone. */
  lemma {:induction false} ScanIsGreatest(p: Peer, term: nat, index: nat)
    requires NonDecreasing(p.log) && (forall i :: 0 <= i < |p.log| ==> p.log[i].term <= term)
    requires index <= |p.log|
    ensures forall k: nat :: k <= index && Committable(p, term, k) ==> k <= Scan(p, term, index)
    ensures (forall k: nat :: k <= index ==> !Committable(p, term, k)) ==> Scan(p, term, index) == p.commitIndex
  {
    ScanFinds(p, term, index);
    if index > p.commitIndex {
      if Replicas(p.peers, p.matchIndex, index) < QuorumOf(p) {
        ScanIsGreatest(p, term, index - 1);
      } else if p.log[index - 1].term != term {
        forall k: nat | k <= index ensures !Committable(p, term, k) {
          if p.commitIndex < k <= index {
            assert p.log[k - 1].term <= p.log[index - 1].term < term;
          }
        }
      }
    }
  }

  function Holders(p: Peer, index: nat): set<Name> {
    set q | q in p.peers && q in p.matchIndex && p.matchIndex[q] >= index
  }

  lemma {:induction false} ReplicasCount(peers: seq<Name>, matchIndex: map<Name, nat>, index: nat)
    requires forall i, j :: 0 <= i < j < |peers| ==> peers[i] != peers[j]
    ensures Replicas(peers, matchIndex, index)
      == 1 + |set q | q in peers && q in matchIndex && matchIndex[q] >= index|
  {
    var all := set q | q in peers && q in matchIndex && matchIndex[q] >= index;
    if peers == [] {
      assert all == {};
    } else {
      ReplicasCount(peers[1..], matchIndex, index);
      var rest := set q | q in peers[1..] && q in matchIndex && matchIndex[q] >= index;
      assert peers[0] !in peers[1..];
      if peers[0] in matchIndex && matchIndex[peers[0]] >= index {
        assert all == rest + {peers[0]};
      } else {
        assert all == rest;
      }
    }
  }

  /** Replicas a leader has counted are acknowledgements the core has seen. */
  lemma CountedIsChosen(n: Name, p: Peer, calls: seq<Call>, x: Shadow, index: nat)
    requires PeerOk(n, p, calls, x) && p.role == Leader
    requires MemberOk(n, x.core.members[n], x.core.reigns) && ReignsOk(x.core.reigns)
    requires 0 < index <= |p.log| && p.log[index - 1].term == p.term
    requires Replicas(p.peers, p.matchIndex, index) >= QuorumOf(p)
    ensures Chosen(x.core, p.term, index)
    ensures p.log == x.core.reigns[p.term].log
  {
    var core := x.core;
    assert ReignShape(p.term, core.reigns[p.term]);
    assert InReign(core.reigns, p.term, index);
    var q := Holders(p, index) + {n};
    ReplicasCount(p.peers, p.matchIndex, index);
    PeersCount(core.members.Keys, n, p.peers);
    assert n !in Holders(p, index);
    forall v | v in q ensures v in core.members && Ack(p.term, v, index) in core.acks {
      if v == n {
        AckIn(core, p.term, n, |p.log|, index);
      } else {
        AckIn(core, p.term, v, p.matchIndex[v], index);
      }
    }
    assert ChosenBy(core, q, p.term, index);
  }

  lemma AckIn(core: Core, t: nat, v: Name, upTo: nat, k: nat)
    requires Confirmed(core, t, v, upTo) && |core.reigns[t].start| < k <= upTo
    ensures Ack(t, v, k) in core.acks
  {
    assert Ack(t, v, k) in AcksThrough(t, v, |core.reigns[t].start|, upTo);
  }

  /** When a pusher's reply raises the commit mark. */
  ghost predicate Commits(c: Cluster, s: Step) {
    Enabled(c, s) && s.PushReply? && Next(c, s).peers[s.n].commitIndex > c.peers[s.n].commitIndex
  }

  lemma CommitFacts(p: Peer, from: Name, m: Request, reply: Option<Reply>)
    requires m.AppendEntries? && p.pushTerm.Some? && from in p.nextIndex
    requires reply.Some? ==> reply.value.Appended?
    ensures var q := OnAppendReply(p, from, m, reply).0;
      q.commitIndex > p.commitIndex ==>
        && q.role == Leader && p.role == Leader && q.term == p.term && q.log == p.log && q.peers == p.peers
        && 0 < q.commitIndex <= |q.log| && q.log[q.commitIndex - 1].term == q.term
        && Replicas(q.peers, q.matchIndex, q.commitIndex) >= QuorumOf(q)
  {
    if reply.Some? && reply.value.ok && p.role == Leader && p.term == p.pushTerm.value && reply.value.term <= p.term {
      var held := m.prev + |m.entries|;
      var o := p.(pushers := p.pushers[from := Idle], matchIndex := p.matchIndex[from := held],
                  nextIndex := p.nextIndex[from := held + 1]);
      ScanFinds(o, p.pushTerm.value, |o.log|);
    }
  }

  /** The peer holds the log of its term's reign, chosen through its commit mark. */
  ghost predicate ChosenIn(g: Core, p: Peer) {
    && Chosen(g, p.term, p.commitIndex) && p.log == g.reigns[p.term].log
    && p.commitIndex <= |p.log|
  }

  /** A commit through the scan fixes the leader's log through the new mark. */
  lemma CommitIsChosen(c: Cluster, s: Step, d: Cluster, y: Shadow)
    requires s.PushReply? && s.n in c.peers && s.n in d.peers
    requires Commits(c, s) && d == Next(c, s) && Sim(d, y)
    ensures var p := d.peers[s.n];
      && p.role == Leader && p.term == c.peers[s.n].term && p.log == c.peers[s.n].log
      && ChosenIn(y.core, p)
  {
    hide Sim, Inv, OnAppendReply, PeerOk, MemberOk, Chosen, Replicas;
    var p := c.peers[s.n];
    var k := c.calls[p.pushers[s.peer].call];
    assert d.peers[s.n] == OnAppendReply(p, s.peer, k.request, k.reply).0;
    CommitFacts(p, s.peer, k.request, k.reply);
    CountedAt(s.n, d, y);
  }

  lemma CountedAt(n: Name, d: Cluster, y: Shadow)
    requires Sim(d, y) && n in d.peers
    requires var p := d.peers[n];
      && p.role == Leader && 0 < p.commitIndex <= |p.log| && p.log[p.commitIndex - 1].term == p.term
      && Replicas(p.peers, p.matchIndex, p.commitIndex) >= QuorumOf(p)
    ensures var p := d.peers[n]; Chosen(y.core, p.term, p.commitIndex) && p.log == y.core.reigns[p.term].log
  {
    MemberAt(d, y, n);
    assert PeerOk(n, d.peers[n], d.calls, y);
    hide Chosen, Replicas;
    CountedIsChosen(n, d.peers[n], d.calls, y, d.peers[n].commitIndex);
  }
}
