/**
  The consensus core of the Raft peer, stripped to what safety depends on, with
  the history the argument needs written into the state.

  A reign is one election that was won: who won it, on whose votes, with which
  log, and what that leader's log has grown to while it leads.  An ack says that
  a node has told a leader it holds that leader's log through an index.  A sent
  log remembers the whole log its sender held when it built an append.

  A just-deposed leader's pusher may still build an append from its live log
  under the term it used to lead, so a sent log is `prompt` only when its sender
  led the stamped term at that moment.
*/
module RaftCore {
  import opened Helpers
  import opened RaftLog

  datatype Ballot = Ballot(term: nat, voter: Name)
  datatype Reign = Reign(leader: Name, voters: set<Name>, start: Log, log: Log)
  datatype Ack = Ack(term: nat, node: Name, upTo: nat)
  datatype Sent = Sent(term: nat, log: Log, prompt: bool)

  /** `push` is the term whose pusher tasks are still alive on this node. */
  datatype Member = Member(term: nat, log: Log, candidate: bool, leader: bool, push: Option<nat>)

  type Members = map<Name, Member>
  type Ballots = map<Ballot, Name>
  type Reigns = map<nat, Reign>

  datatype Core = Core(
    members: Members,
    ballots: Ballots,
    reigns: Reigns,
    acks: set<Ack>,
    sent: set<Sent>)

  // ------------------------------------------------------------------
  // Invariants
  // ------------------------------------------------------------------

  /** Every prefix of the log was once the log of the leader of its last term. */
  ghost predicate Good(log: Log, reigns: Reigns) {
    forall k :: 0 <= k < |log| ==>
      log[k].term in reigns && log[..k + 1] <= reigns[log[k].term].log
  }

  ghost predicate ReignShape(t: nat, r: Reign) {
    && t > 0
    && |r.start| < |r.log|
    && r.start <= r.log
    && (forall k :: 0 <= k < |r.start| ==> r.log[k].term < t)
    && (forall k :: |r.start| <= k < |r.log| ==> r.log[k].term == t)
  }

  ghost predicate ReignsOk(reigns: Reigns) {
    forall t :: t in reigns ==> ReignShape(t, reigns[t]) && Good(reigns[t].log, reigns)
  }

  ghost predicate VotersOk(names: set<Name>, reigns: Reigns, ballots: Ballots) {
    forall t :: t in reigns ==> ElectedOk(names, t, reigns[t], ballots)
  }

  ghost predicate ElectedOk(names: set<Name>, t: nat, r: Reign, ballots: Ballots) {
    && r.leader in r.voters
    && r.voters <= names
    && |r.voters| >= Quorum(|names|)
    && (forall v :: v in r.voters ==> VotedFor(ballots, t, v, r.leader))
  }

  ghost predicate VotedFor(ballots: Ballots, t: nat, v: Name, c: Name) {
    Ballot(t, v) in ballots && ballots[Ballot(t, v)] == c
  }

  ghost predicate BallotsOk(ballots: Ballots, members: Members) {
    forall b :: b in ballots ==>
      && b.voter in members && b.term <= members[b.voter].term
      && ballots[b] in members && b.term <= members[ballots[b]].term
  }

  ghost predicate MemberOk(n: Name, m: Member, reigns: Reigns) {
    && Good(m.log, reigns)
    && (m.push.Some? ==>
         && m.push.value in reigns
         && reigns[m.push.value].leader == n
         && m.push.value <= LastTerm(m.log)
         && m.push.value <= m.term)
    && (m.leader ==>
         && !m.candidate
         && m.push == Some(m.term)
         && m.log == reigns[m.term].log)
  }

  ghost predicate MembersOk(members: Members, reigns: Reigns) {
    forall n :: n in members ==> MemberOk(n, members[n], reigns)
  }

  ghost predicate SentLogOk(s: Sent, reigns: Reigns) {
    && s.term in reigns
    && Good(s.log, reigns)
    && s.log != []
    && s.term <= LastTerm(s.log)
    && (s.prompt ==> s.log <= reigns[s.term].log && |reigns[s.term].start| < |s.log|)
  }

  ghost predicate SentOk(sent: set<Sent>, reigns: Reigns) {
    forall s :: s in sent ==> SentLogOk(s, reigns)
  }

  /** A candidate has voted for itself, has not won yet, and if its log already
      holds an entry of its own term or above, none of the voters behind that
      entry's reign stand behind this candidacy. */
  ghost predicate CandidateOk(n: Name, m: Member, reigns: Reigns, ballots: Ballots) {
    m.candidate ==>
      && VotedFor(ballots, m.term, n, n)
      && m.term > 0
      && (m.term in reigns ==> reigns[m.term].leader != n)
      && (forall k :: 0 <= k < |m.log| && m.log[k].term >= m.term ==>
            Unsupported(n, m.term, m.log[k].term, reigns, ballots))
  }

  /** No voter behind the reign of `u` voted for `n` in term `t`. */
  ghost predicate Unsupported(n: Name, t: nat, u: nat, reigns: Reigns, ballots: Ballots) {
    u in reigns ==> forall v :: v in reigns[u].voters ==> !VotedFor(ballots, t, v, n)
  }

  ghost predicate CandidatesOk(members: Members, reigns: Reigns, ballots: Ballots) {
    forall n :: n in members ==> CandidateOk(n, members[n], reigns, ballots)
  }

  /** Some later election was decided entirely by voters that never acknowledged
      (t, upTo) -- and, being past term t, never will: it can no longer commit. */
  ghost predicate Blocked(reigns: Reigns, acks: set<Ack>, t: nat, upTo: nat) {
    exists w :: w in reigns && Blocks(w, reigns[w].voters, acks, t, upTo)
  }

  ghost predicate Blocks(w: nat, voters: set<Name>, acks: set<Ack>, t: nat, upTo: nat) {
    w > t && forall v :: v in voters ==> Ack(t, v, upTo) !in acks
  }

  /** The log holds the leader of t's first `upTo` entries, unless those can no longer commit. */
  ghost predicate Holds(log: Log, reigns: Reigns, acks: set<Ack>, t: nat, upTo: nat)
    requires InReign(reigns, t, upTo)
  {
    Blocked(reigns, acks, t, upTo) || reigns[t].log[..upTo] <= log
  }

  /** `upTo` cuts the log of term t's leader at an entry of its own term. */
  ghost predicate InReign(reigns: Reigns, t: nat, upTo: nat) {
    t in reigns && |reigns[t].start| < upTo <= |reigns[t].log|
  }

  /** Every own-term index of t's leader up to `upTo` is acknowledged by `v`. */
  function AcksThrough(t: nat, v: Name, start: nat, upTo: nat): set<Ack> {
    set k | start < k <= upTo :: Ack(t, v, k)
  }

  ghost predicate AckOk(a: Ack, members: Members, reigns: Reigns) {
    && InReign(reigns, a.term, a.upTo)
    && a.node in members
    && a.term <= members[a.node].term
  }

  ghost predicate AcksOk(acks: set<Ack>, members: Members, reigns: Reigns) {
    forall a :: a in acks ==> AckOk(a, members, reigns)
  }

  /** An acknowledged prefix stays in the acknowledger's log unless it can no longer commit. */
  ghost predicate AcksHeld(acks: set<Ack>, members: Members, reigns: Reigns)
    requires AcksOk(acks, members, reigns)
  {
    forall a :: a in acks ==> Holds(members[a.node].log, reigns, acks, a.term, a.upTo)
  }

  /** A candidate holds whatever its supporters acknowledged in earlier terms. */
  ghost predicate SupportOk(acks: set<Ack>, members: Members, reigns: Reigns, ballots: Ballots)
    requires AcksOk(acks, members, reigns)
  {
    forall c, a ::
      (c in members && a in acks && Supports(a, c, members[c], ballots)) ==>
        Holds(members[c].log, reigns, acks, a.term, a.upTo)
  }

  /** The acknowledger backs `c`'s candidacy in a later term. */
  ghost predicate Supports(a: Ack, c: Name, m: Member, ballots: Ballots) {
    m.candidate && a.term < m.term && VotedFor(ballots, m.term, a.node, c)
  }

  /** Leader completeness, in the form that survives every step. */
  ghost predicate Complete(reigns: Reigns, acks: set<Ack>) {
    forall t: nat, u: nat, upTo: nat {:trigger reigns[u], Blocked(reigns, acks, t, upTo)}
                      {:trigger reigns[u], InReign(reigns, t, upTo)} ::
      u in reigns && t < u && InReign(reigns, t, upTo) ==>
        Holds(reigns[u].start, reigns, acks, t, upTo)
  }

  ghost predicate Inv(g: Core) {
    && ReignsOk(g.reigns)
    && VotersOk(g.members.Keys, g.reigns, g.ballots)
    && BallotsOk(g.ballots, g.members)
    && MembersOk(g.members, g.reigns)
    && SentOk(g.sent, g.reigns)
    && CandidatesOk(g.members, g.reigns, g.ballots)
    && AcksOk(g.acks, g.members, g.reigns)
    && AcksHeld(g.acks, g.members, g.reigns)
    && SupportOk(g.acks, g.members, g.reigns, g.ballots)
    && Complete(g.reigns, g.acks)
  }

  /** History only grows: reigns keep their votes and extend their logs. */
  ghost predicate Grows(g: Core, h: Core) {
    && g.members.Keys == h.members.Keys
    && ReignsGrow(g.reigns, h.reigns)
    && g.acks <= h.acks
    && g.sent <= h.sent
    && BallotsGrow(g.ballots, h.ballots)
  }

  ghost predicate BallotsGrow(g: Ballots, h: Ballots) {
    forall b :: b in g ==> b in h && h[b] == g[b]
  }

  ghost predicate ReignsGrow(r: Reigns, q: Reigns) {
    forall t :: t in r ==> t in q && ReignGrows(r[t], q[t])
  }

  ghost predicate ReignGrows(r: Reign, q: Reign) {
    r.leader == q.leader && r.voters == q.voters && r.start == q.start && r.log <= q.log
  }

  lemma GrowsTransitive(f: Core, g: Core, h: Core)
    requires Grows(f, g) && Grows(g, h)
    ensures Grows(f, h)
  {
  }

  // ------------------------------------------------------------------
  // Consequences of the invariant
  // ------------------------------------------------------------------

  lemma GoodGrows(log: Log, r: Reigns, q: Reigns)
    requires Good(log, r) && ReignsGrow(r, q)
    ensures Good(log, q)
  {
    forall k | 0 <= k < |log|
      ensures log[k].term in q && log[..k + 1] <= q[log[k].term].log
    {
      assert log[..k + 1] <= r[log[k].term].log;
    }
  }

  /** Log matching: the same term at the same index means the same prefix. */
  lemma Matching(reigns: Reigns, a: Log, b: Log, k: nat)
    requires Good(a, reigns) && Good(b, reigns)
    requires k < |a| && k < |b| && a[k].term == b[k].term
    ensures a[..k + 1] == b[..k + 1]
  {
    var l := reigns[a[k].term].log;
    assert a[..k + 1] <= l && b[..k + 1] <= l;
    PrefixesCompare(a[..k + 1], b[..k + 1], l);
  }

  lemma GoodSorted(reigns: Reigns, log: Log)
    requires ReignsOk(reigns) && Good(log, reigns)
    ensures NonDecreasing(log)
  {
    forall i, j | 0 <= i <= j < |log|
      ensures log[i].term <= log[j].term
    {
      var r := reigns[log[j].term];
      assert log[..j + 1] <= r.log;
      assert log[i] == log[..j + 1][i] == r.log[i];
      assert ReignShape(log[j].term, r);
    }
  }

  /** A non-empty log reaches past the opening log of the reign of its last term. */
  lemma GoodReachesReign(reigns: Reigns, log: Log)
    requires ReignsOk(reigns) && Good(log, reigns) && log != []
    ensures LastTerm(log) in reigns && LastTerm(log) > 0
    ensures log <= reigns[LastTerm(log)].log
    ensures reigns[LastTerm(log)].start < log
  {
    var k := |log| - 1;
    var r := reigns[log[k].term];
    assert log[..k + 1] == log;
    assert ReignShape(LastTerm(log), r);
    assert log[k] == r.log[k];
    PrefixesCompare(if |r.start| <= |log| then r.start else log, if |r.start| <= |log| then log else r.start, r.log);
  }

  /** A log whose last term is past t holds whatever of t can still commit. */
  lemma LaterLogHolds(reigns: Reigns, acks: set<Ack>, log: Log, t: nat, upTo: nat)
    requires ReignsOk(reigns) && Complete(reigns, acks) && Good(log, reigns)
    requires InReign(reigns, t, upTo)
    requires LastTerm(log) > t
    ensures Holds(log, reigns, acks, t, upTo)
  {
    GoodReachesReign(reigns, log);
    assert Holds(reigns[LastTerm(log)].start, reigns, acks, t, upTo);
  }

  lemma VoterTerm(g: Core, w: nat, v: Name)
    requires VotersOk(g.members.Keys, g.reigns, g.ballots) && BallotsOk(g.ballots, g.members)
    requires w in g.reigns && v in g.reigns[w].voters
    ensures v in g.members && g.members[v].term >= w
  {
    assert VotedFor(g.ballots, w, v, g.reigns[w].leader);
  }

  /** Blocking is final: whoever could still acknowledge term t did not vote past it. */
  lemma BlockedStays(g: Core, h: Core, t: nat, upTo: nat)
    requires VotersOk(g.members.Keys, g.reigns, g.ballots) && BallotsOk(g.ballots, g.members)
    requires ReignsGrow(g.reigns, h.reigns)
    requires forall a :: a in h.acks && a !in g.acks ==>
      a.node in g.members && g.members[a.node].term <= a.term
    requires Blocked(g.reigns, g.acks, t, upTo)
    ensures Blocked(h.reigns, h.acks, t, upTo)
  {
    var w :| w in g.reigns && Blocks(w, g.reigns[w].voters, g.acks, t, upTo);
    forall v | v in h.reigns[w].voters
      ensures Ack(t, v, upTo) !in h.acks
    {
      assert Ack(t, v, upTo) !in g.acks;
      VoterTerm(g, w, v);
    }
    assert Blocks(w, h.reigns[w].voters, h.acks, t, upTo);
  }

  lemma HoldsStays(g: Core, h: Core, log: Log, t: nat, upTo: nat)
    requires VotersOk(g.members.Keys, g.reigns, g.ballots) && BallotsOk(g.ballots, g.members)
    requires ReignsGrow(g.reigns, h.reigns)
    requires forall a :: a in h.acks && a !in g.acks ==>
      a.node in g.members && g.members[a.node].term <= a.term
    requires InReign(g.reigns, t, upTo) && Holds(log, g.reigns, g.acks, t, upTo)
    ensures InReign(h.reigns, t, upTo) && Holds(log, h.reigns, h.acks, t, upTo)
  {
    if Blocked(g.reigns, g.acks, t, upTo) {
      BlockedStays(g, h, t, upTo);
    }
    assert ReignGrows(g.reigns[t], h.reigns[t]);
  }
}
