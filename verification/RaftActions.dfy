/** The moves of the consensus core, and the proof that each keeps the invariant. */
module RaftActions {
  import opened Helpers
  import opened RaftLog
  import opened RaftCore

  // ------------------------------------------------------------------
  // Relax: adopt a later term, stop being candidate or leader, stop pushing
  // ------------------------------------------------------------------

  /** Nothing is learnt and nothing is promised; only standing is given up. */
  ghost predicate Relaxes(m: Member, x: Member) {
    && x.log == m.log
    && m.term <= x.term
    && (x.candidate ==> m.candidate && x.term == m.term)
    && (x.leader ==> m.leader && x.term == m.term && x.push == m.push)
    && (x.push.Some? ==> x.push == m.push)
  }

  lemma RelaxKeeps(g: Core, n: Name, x: Member) returns (h: Core)
    requires Inv(g) && n in g.members && Relaxes(g.members[n], x)
    ensures h == g.(members := g.members[n := x])
    ensures Inv(h) && Grows(g, h)
  {
    h := g.(members := g.members[n := x]);
    assert g.members.Keys == h.members.Keys;
    RelaxMembers(g, n, x);
    RelaxAcks(g, n, x);
  }

  lemma RelaxMembers(g: Core, n: Name, x: Member)
    requires Inv(g) && n in g.members && Relaxes(g.members[n], x)
    ensures MembersOk(g.members[n := x], g.reigns)
    ensures BallotsOk(g.ballots, g.members[n := x])
    ensures CandidatesOk(g.members[n := x], g.reigns, g.ballots)
  {
    assert MemberOk(n, x, g.reigns);
    assert CandidateOk(n, x, g.reigns, g.ballots);
  }

  lemma RelaxAcks(g: Core, n: Name, x: Member)
    requires Inv(g) && n in g.members && Relaxes(g.members[n], x)
    ensures AcksOk(g.acks, g.members[n := x], g.reigns)
    ensures AcksHeld(g.acks, g.members[n := x], g.reigns)
    ensures SupportOk(g.acks, g.members[n := x], g.reigns, g.ballots)
  {
    var ms := g.members[n := x];
    forall a | a in g.acks
      ensures AckOk(a, ms, g.reigns) && Holds(ms[a.node].log, g.reigns, g.acks, a.term, a.upTo)
    {
      assert AckOk(a, g.members, g.reigns);
    }
    forall c, a | c in ms && a in g.acks && Supports(a, c, ms[c], g.ballots)
      ensures Holds(ms[c].log, g.reigns, g.acks, a.term, a.upTo)
    {
      assert Supports(a, c, g.members[c], g.ballots);
    }
  }

  // ------------------------------------------------------------------
  // Send: a live pusher copies its node's whole log into an append
  // ------------------------------------------------------------------

  function SentBy(g: Core, n: Name): Sent
    requires n in g.members && g.members[n].push.Some?
  {
    var m := g.members[n];
    Sent(m.push.value, m.log, m.leader && m.term == m.push.value)
  }

  lemma SendKeeps(g: Core, n: Name) returns (h: Core)
    requires Inv(g) && n in g.members && g.members[n].push.Some?
    ensures h == g.(sent := g.sent + {SentBy(g, n)})
    ensures Inv(h) && Grows(g, h)
  {
    h := g.(sent := g.sent + {SentBy(g, n)});
    assert MemberOk(n, g.members[n], g.reigns);
    GoodReachesReign(g.reigns, g.members[n].log);
  }

  // ------------------------------------------------------------------
  // Stand: open a candidacy in the next term and vote for oneself
  // ------------------------------------------------------------------

  function Standing(m: Member): Member {
    m.(term := m.term + 1, candidate := true, leader := false)
  }

  function Stood(g: Core, n: Name): Core
    requires n in g.members
  {
    var x := Standing(g.members[n]);
    g.(members := g.members[n := x], ballots := g.ballots[Ballot(x.term, n) := n])
  }

  lemma VotersStay(names: set<Name>, reigns: Reigns, b: Ballots, c: Ballots)
    requires VotersOk(names, reigns, b) && BallotsGrow(b, c)
    ensures VotersOk(names, reigns, c)
  {
    forall t | t in reigns ensures ElectedOk(names, t, reigns[t], c) {
      assert ElectedOk(names, t, reigns[t], b);
      forall v | v in reigns[t].voters ensures VotedFor(c, t, v, reigns[t].leader) {
        assert VotedFor(b, t, v, reigns[t].leader);
      }
    }
  }

  lemma StandKeeps(g: Core, n: Name) returns (h: Core)
    requires Inv(g) && n in g.members
    ensures h == Stood(g, n)
    ensures Inv(h) && Grows(g, h)
  {
    hide ReignsOk, VotersOk, BallotsOk, MembersOk, SentOk, CandidatesOk, AcksOk, AcksHeld, SupportOk, Complete, BallotsGrow;
    h := Stood(g, n);
    assert g.members.Keys == h.members.Keys;
    StandBallots(g, n);
    VotersStay(g.members.Keys, g.reigns, g.ballots, h.ballots);
    StandCandidates(g, n);
    StandAcks(g, n);
  }

  lemma StandBallots(g: Core, n: Name)
    requires BallotsOk(g.ballots, g.members) && MembersOk(g.members, g.reigns) && n in g.members
    ensures var h := Stood(g, n);
      BallotsGrow(g.ballots, h.ballots) && BallotsOk(h.ballots, h.members) && MembersOk(h.members, g.reigns)
  {
    hide Good;
    assert Ballot(g.members[n].term + 1, n) !in g.ballots;
    assert MemberOk(n, g.members[n], g.reigns);
    assert MemberOk(n, Stood(g, n).members[n], g.reigns);
  }

  lemma StandCandidates(g: Core, n: Name)
    requires Inv(g) && n in g.members
    ensures var h := Stood(g, n); CandidatesOk(h.members, h.reigns, h.ballots)
  {
    var h := Stood(g, n);
    var t := h.members[n].term;
    forall c | c in h.members ensures CandidateOk(c, h.members[c], h.reigns, h.ballots) {
      if c == n {
        StandUnsupported(g, n);
      } else {
        assert CandidateOk(c, g.members[c], g.reigns, g.ballots);
        forall k | 0 <= k < |h.members[c].log| && h.members[c].log[k].term >= h.members[c].term && h.members[c].candidate
          ensures Unsupported(c, h.members[c].term, h.members[c].log[k].term, h.reigns, h.ballots)
        {
          assert Unsupported(c, h.members[c].term, h.members[c].log[k].term, g.reigns, g.ballots);
        }
      }
    }
  }

  lemma StandUnsupported(g: Core, n: Name)
    requires Inv(g) && n in g.members
    ensures var h := Stood(g, n); CandidateOk(n, h.members[n], h.reigns, h.ballots)
  {
    var h := Stood(g, n);
    var t := h.members[n].term;
    assert t in g.reigns ==> g.reigns[t].leader != n by {
      if t in g.reigns && g.reigns[t].leader == n {
        VoterTerm(g, t, n);
      }
    }
    forall u | u >= t ensures Unsupported(n, t, u, h.reigns, h.ballots) {
      if u in g.reigns {
        forall v | v in g.reigns[u].voters ensures !VotedFor(h.ballots, t, v, n) {
          VoterTerm(g, u, v);
          assert !VotedFor(g.ballots, t, v, n);
        }
      }
    }
  }

  lemma StandAcks(g: Core, n: Name)
    requires Inv(g) && n in g.members
    ensures var h := Stood(g, n);
      && AcksOk(h.acks, h.members, h.reigns)
      && AcksHeld(h.acks, h.members, h.reigns)
      && SupportOk(h.acks, h.members, h.reigns, h.ballots)
  {
    var h := Stood(g, n);
    forall a | a in h.acks
      ensures AckOk(a, h.members, h.reigns)
      ensures Holds(h.members[a.node].log, h.reigns, h.acks, a.term, a.upTo)
    {
      assert AckOk(a, g.members, g.reigns);
    }
    forall c, a | c in h.members && a in h.acks && Supports(a, c, h.members[c], h.ballots)
      ensures Holds(h.members[c].log, h.reigns, h.acks, a.term, a.upTo)
    {
      if c != n {
        assert Supports(a, c, g.members[c], g.ballots);
      } else {
        assert !VotedFor(g.ballots, h.members[n].term, a.node, n);
        assert a.node == n;
      }
    }
  }

  // ------------------------------------------------------------------
  // Grant: vote for a candidate whose log is at least as fresh
  // ------------------------------------------------------------------

  /** When `v` may vote for `c`: its term's ballot is free or already c's, and what
      the request said about c's log is fresh and, if c still stands, true. */
  ghost predicate CanGrant(g: Core, v: Name, c: Name, lastTerm: nat, lastIndex: nat) {
    && v in g.members && c in g.members
    && var t := g.members[v].term;
    && (Ballot(t, v) in g.ballots ==> g.ballots[Ballot(t, v)] == c)
    && t <= g.members[c].term
    && AtLeastAsFresh(lastTerm, lastIndex, g.members[v].log)
    && (g.members[c].candidate && g.members[c].term == t ==>
         lastTerm == LastTerm(g.members[c].log) && lastIndex == |g.members[c].log|)
  }

  function Granted(g: Core, v: Name, c: Name): Core
    requires v in g.members
  {
    g.(ballots := g.ballots[Ballot(g.members[v].term, v) := c])
  }

  lemma GrantKeeps(g: Core, v: Name, c: Name, lastTerm: nat, lastIndex: nat) returns (h: Core)
    requires Inv(g) && CanGrant(g, v, c, lastTerm, lastIndex)
    ensures h == Granted(g, v, c)
    ensures Inv(h) && Grows(g, h)
  {
    h := Granted(g, v, c);
    VotersStay(g.members.Keys, g.reigns, g.ballots, h.ballots);
    GrantCandidates(g, v, c);
    GrantSupport(g, v, c, lastTerm, lastIndex);
  }

  lemma GrantCandidates(g: Core, v: Name, c: Name)
    requires Inv(g) && v in g.members
    requires Ballot(g.members[v].term, v) in g.ballots ==> g.ballots[Ballot(g.members[v].term, v)] == c
    ensures var h := Granted(g, v, c); CandidatesOk(h.members, h.reigns, h.ballots)
  {
    var h := Granted(g, v, c);
    forall n | n in g.members ensures CandidateOk(n, g.members[n], g.reigns, h.ballots) {
      var m := g.members[n];
      assert CandidateOk(n, m, g.reigns, g.ballots);
      forall k | 0 <= k < |m.log| && m.log[k].term >= m.term && m.candidate
        ensures Unsupported(n, m.term, m.log[k].term, g.reigns, h.ballots)
      {
        assert Unsupported(n, m.term, m.log[k].term, g.reigns, g.ballots);
        GrantUnsupported(g, v, c, n, m.log[k].term);
      }
    }
  }

  lemma GrantUnsupported(g: Core, v: Name, c: Name, n: Name, u: nat)
    requires Inv(g) && v in g.members && n in g.members
    requires Ballot(g.members[v].term, v) in g.ballots ==> g.ballots[Ballot(g.members[v].term, v)] == c
    requires g.members[n].candidate && u >= g.members[n].term
    requires Unsupported(n, g.members[n].term, u, g.reigns, g.ballots)
    ensures Unsupported(n, g.members[n].term, u, g.reigns, Granted(g, v, c).ballots)
  {
    if u in g.reigns && v in g.reigns[u].voters {
      VoterTerm(g, u, v);
      assert VotedFor(g.ballots, u, v, g.reigns[u].leader);
      assert CandidateOk(n, g.members[n], g.reigns, g.ballots);
    }
  }

  /** A log that is at least as fresh holds whatever the voter's log had to hold. */
  lemma FreshHolds(reigns: Reigns, acks: set<Ack>, mine: Log, theirs: Log, t: nat, upTo: nat)
    requires ReignsOk(reigns) && Complete(reigns, acks) && Good(mine, reigns) && Good(theirs, reigns)
    requires InReign(reigns, t, upTo) && Holds(mine, reigns, acks, t, upTo)
    requires AtLeastAsFresh(LastTerm(theirs), |theirs|, mine)
    ensures Holds(theirs, reigns, acks, t, upTo)
  {
    if !Blocked(reigns, acks, t, upTo) {
      var cut := reigns[t].log[..upTo];
      assert ReignShape(t, reigns[t]);
      assert mine[upTo - 1] == cut[upTo - 1];
      GoodSorted(reigns, mine);
      if LastTerm(theirs) > t {
        LaterLogHolds(reigns, acks, theirs, t, upTo);
      } else {
        GoodReachesReign(reigns, theirs);
        PrefixesCompare(cut, theirs, reigns[t].log);
      }
    }
  }

  lemma GrantSupport(g: Core, v: Name, c: Name, lastTerm: nat, lastIndex: nat)
    requires Inv(g) && CanGrant(g, v, c, lastTerm, lastIndex)
    ensures SupportOk(g.acks, g.members, g.reigns, Granted(g, v, c).ballots)
  {
    var h := Granted(g, v, c);
    forall n, a | n in g.members && a in g.acks && Supports(a, n, g.members[n], h.ballots)
      ensures Holds(g.members[n].log, g.reigns, g.acks, a.term, a.upTo)
    {
      if !Supports(a, n, g.members[n], g.ballots) {
        assert n == c && a.node == v;
        assert MemberOk(v, g.members[v], g.reigns) && MemberOk(c, g.members[c], g.reigns);
        FreshHolds(g.reigns, g.acks, g.members[v].log, g.members[c].log, a.term, a.upTo);
      }
    }
  }

  // ------------------------------------------------------------------
  // Adopt: a follower takes over a sender's whole log
  // ------------------------------------------------------------------

  ghost predicate CanAdopt(g: Core, v: Name, s: Sent) {
    && v in g.members && s in g.sent && s.term in g.reigns
    && g.members[v].term == s.term
    && g.reigns[s.term].leader != v
  }

  function Adoption(g: Core, v: Name, s: Sent): Core
    requires v in g.members && s.term in g.reigns
  {
    var m := g.members[v];
    g.(members := g.members[v := m.(log := Adopted(m.log, s.log), candidate := false)],
       acks := g.acks + if s.prompt then AcksThrough(s.term, v, |g.reigns[s.term].start|, |s.log|) else {})
  }

  lemma AdoptKeeps(g: Core, v: Name, s: Sent) returns (h: Core)
    requires Inv(g) && CanAdopt(g, v, s)
    ensures h == Adoption(g, v, s)
    ensures Inv(h) && Grows(g, h)
  {
    hide ReignsOk, VotersOk, BallotsOk, MembersOk, SentOk, CandidatesOk, AcksOk, AcksHeld, SupportOk, Complete;
    h := Adoption(g, v, s);
    assert g.members.Keys == h.members.Keys;
    AdoptMembers(g, v, s);
    AdoptAcks(g, v, s);
    AdoptSupport(g, v, s);
    AdoptComplete(g, v, s);
  }

  lemma AdoptMembers(g: Core, v: Name, s: Sent)
    requires Inv(g) && CanAdopt(g, v, s)
    ensures var h := Adoption(g, v, s);
      && MembersOk(h.members, h.reigns) && BallotsOk(h.ballots, h.members)
      && CandidatesOk(h.members, h.reigns, h.ballots)
  {
    var h := Adoption(g, v, s);
    MemberAdopts(g, v, s);
    MemberReplaced(g, v, h.members[v]);
  }

  lemma MemberAdopts(g: Core, v: Name, s: Sent)
    requires Inv(g) && CanAdopt(g, v, s)
    ensures MemberOk(v, Adoption(g, v, s).members[v], g.reigns)
  {
    hide AcksOk, AcksHeld, SupportOk, Complete, ReignsOk, VotersOk, BallotsOk, CandidatesOk, Good;
    assert MemberOk(v, g.members[v], g.reigns) && SentLogOk(s, g.reigns);
  }

  /** One member may change as long as it stays sound and stands for nothing. */
  lemma MemberReplaced(g: Core, v: Name, x: Member)
    requires v in g.members && MemberOk(v, x, g.reigns) && !x.candidate && x.term == g.members[v].term
    requires MembersOk(g.members, g.reigns) && BallotsOk(g.ballots, g.members)
    requires CandidatesOk(g.members, g.reigns, g.ballots)
    ensures var ms := g.members[v := x];
      MembersOk(ms, g.reigns) && BallotsOk(g.ballots, ms) && CandidatesOk(ms, g.reigns, g.ballots)
  {
    hide MemberOk;
  }

  /** Taking over a log at least as late as t keeps whatever of t was held. */
  lemma AdoptedHolds(reigns: Reigns, acks: set<Ack>, mine: Log, theirs: Log, t: nat, upTo: nat)
    requires ReignsOk(reigns) && Complete(reigns, acks) && Good(theirs, reigns)
    requires InReign(reigns, t, upTo) && Holds(mine, reigns, acks, t, upTo)
    requires LastTerm(theirs) >= t
    ensures Holds(Adopted(mine, theirs), reigns, acks, t, upTo)
  {
    if LastTerm(theirs) > t {
      LaterLogHolds(reigns, acks, theirs, t, upTo);
    } else if !Blocked(reigns, acks, t, upTo) {
      assert ReignShape(t, reigns[t]);
      GoodReachesReign(reigns, theirs);
      var cut := reigns[t].log[..upTo];
      if upTo <= |theirs| {
        PrefixesCompare(cut, theirs, reigns[t].log);
      } else {
        PrefixesCompare(theirs, cut, reigns[t].log);
      }
    }
  }

  lemma AdoptAcks(g: Core, v: Name, s: Sent)
    requires Inv(g) && CanAdopt(g, v, s)
    ensures var h := Adoption(g, v, s);
      AcksOk(h.acks, h.members, h.reigns) && AcksHeld(h.acks, h.members, h.reigns)
  {
    hide Inv, Holds;
    var h := Adoption(g, v, s);
    forall a | a in h.acks
      ensures AckOk(a, h.members, h.reigns)
      ensures Holds(h.members[a.node].log, h.reigns, h.acks, a.term, a.upTo)
    {
      if a in g.acks {
        AdoptOldAck(g, v, s, a);
      } else {
        AdoptNewAck(g, v, s, a);
      }
    }
  }

  lemma AdoptOldAck(g: Core, v: Name, s: Sent, a: Ack)
    requires Inv(g) && CanAdopt(g, v, s) && a in g.acks
    ensures var h := Adoption(g, v, s);
      AckOk(a, h.members, h.reigns) && Holds(h.members[a.node].log, h.reigns, h.acks, a.term, a.upTo)
  {
    hide MembersOk, CandidatesOk, SupportOk, Holds, ReignsOk, VotersOk, BallotsOk, Complete;
    var h := Adoption(g, v, s);
    assert SentLogOk(s, g.reigns);
    assert AckOk(a, g.members, g.reigns);
    if a.node == v {
      AdoptedHolds(g.reigns, g.acks, g.members[v].log, s.log, a.term, a.upTo);
    }
    HoldsStays(g, h, h.members[a.node].log, a.term, a.upTo);
  }

  lemma AdoptNewAck(g: Core, v: Name, s: Sent, a: Ack)
    requires Inv(g) && CanAdopt(g, v, s) && a in Adoption(g, v, s).acks && a !in g.acks
    ensures var h := Adoption(g, v, s);
      AckOk(a, h.members, h.reigns) && Holds(h.members[a.node].log, h.reigns, h.acks, a.term, a.upTo)
  {
    hide MembersOk, CandidatesOk, SupportOk, AcksHeld, AcksOk, ReignsOk, VotersOk, BallotsOk, Complete, Good;
    assert SentLogOk(s, g.reigns);
    CutOfPrefix(s.log, g.reigns[s.term].log, a.upTo);
    assert s.log <= Adoption(g, v, s).members[v].log;
  }

  lemma AdoptSupport(g: Core, v: Name, s: Sent)
    requires Inv(g) && CanAdopt(g, v, s)
    requires var h := Adoption(g, v, s); AcksOk(h.acks, h.members, h.reigns)
    ensures var h := Adoption(g, v, s); SupportOk(h.acks, h.members, h.reigns, h.ballots)
  {
    hide MembersOk, CandidatesOk, AcksHeld, ReignsOk, VotersOk, Complete, SentOk, Holds;
    var h := Adoption(g, v, s);
    forall c, a | c in h.members && a in h.acks && Supports(a, c, h.members[c], h.ballots)
      ensures Holds(h.members[c].log, h.reigns, h.acks, a.term, a.upTo)
    {
      assert c != v;
      assert a in g.acks;
      assert Supports(a, c, g.members[c], g.ballots);
      HoldsStays(g, h, h.members[c].log, a.term, a.upTo);
    }
  }

  lemma AdoptComplete(g: Core, v: Name, s: Sent)
    requires Inv(g) && CanAdopt(g, v, s)
    ensures var h := Adoption(g, v, s); Complete(h.reigns, h.acks)
  {
    var h := Adoption(g, v, s);
    forall t: nat, u: nat, upTo: nat | u in h.reigns && t < u && InReign(h.reigns, t, upTo)
      ensures Holds(h.reigns[u].start, h.reigns, h.acks, t, upTo)
    {
      HoldsStays(g, h, g.reigns[u].start, t, upTo);
    }
  }

  // ------------------------------------------------------------------
  // Extend: a leader appends an entry of its own term
  // ------------------------------------------------------------------

  function Extension(g: Core, n: Name, command: string): Core
    requires n in g.members && g.members[n].term in g.reigns
  {
    var m := g.members[n];
    var log := m.log + [Entry(m.term, command)];
    g.(members := g.members[n := m.(log := log)],
       reigns := g.reigns[m.term := g.reigns[m.term].(log := log)],
       acks := g.acks + {Ack(m.term, n, |log|)})
  }

  lemma LeaderReigns(g: Core, n: Name)
    requires Inv(g) && n in g.members && g.members[n].leader
    ensures g.members[n].term in g.reigns
    ensures g.reigns[g.members[n].term].leader == n
    ensures g.members[n].log == g.reigns[g.members[n].term].log
  {
    assert MemberOk(n, g.members[n], g.reigns);
  }

  lemma ExtendKeeps(g: Core, n: Name, command: string) returns (h: Core)
    requires Inv(g) && n in g.members && g.members[n].leader
    ensures g.members[n].term in g.reigns && h == Extension(g, n, command)
    ensures Inv(h) && Grows(g, h)
  {
    hide ReignsOk, VotersOk, BallotsOk, MembersOk, SentOk, CandidatesOk, AcksOk, AcksHeld, SupportOk, Complete;
    LeaderReigns(g, n);
    h := Extension(g, n, command);
    assert g.members.Keys == h.members.Keys;
    ExtendReigns(g, n, command);
    ExtendBallots(g, n, command);
    ExtendMembers(g, n, command);
    ExtendCandidates(g, n, command);
    ExtendAcks(g, n, command);
    ExtendSupport(g, n, command);
    ExtendComplete(g, n, command);
  }

  lemma SentStays(sent: set<Sent>, r: Reigns, q: Reigns)
    requires SentOk(sent, r) && ReignsGrow(r, q)
    ensures SentOk(sent, q)
  {
    forall s | s in sent ensures SentLogOk(s, q) {
      assert SentLogOk(s, r);
      GoodGrows(s.log, r, q);
      assert ReignGrows(r[s.term], q[s.term]);
    }
  }

  /** Growing one reign, or adding one, leaves the others as sound as they were. */
  lemma ReignsStay(r: Reigns, q: Reigns, t: nat)
    requires ReignsOk(r) && ReignsGrow(r, q) && t in q && q.Keys == r.Keys + {t}
    requires forall u :: u in r && u != t ==> q[u] == r[u]
    requires ReignShape(t, q[t]) && Good(q[t].log, q)
    ensures ReignsOk(q)
  {
    forall u | u in q ensures ReignShape(u, q[u]) && Good(q[u].log, q) {
      if u != t {
        assert ReignShape(u, r[u]) && Good(r[u].log, r);
        GoodGrows(r[u].log, r, q);
      }
    }
  }

  lemma ExtendReigns(g: Core, n: Name, command: string)
    requires Inv(g) && n in g.members && g.members[n].leader && g.members[n].term in g.reigns
    ensures var h := Extension(g, n, command);
      && ReignsGrow(g.reigns, h.reigns) && ReignsOk(h.reigns) && SentOk(h.sent, h.reigns)
      && VotersOk(h.members.Keys, h.reigns, h.ballots)
  {
    var h := Extension(g, n, command);
    LeaderReigns(g, n);
    var t := g.members[n].term;
    assert ReignShape(t, g.reigns[t]) && Good(g.reigns[t].log, g.reigns);
    ReignsExtend(g.reigns, t, Entry(t, command));
    SentStays(g.sent, g.reigns, h.reigns);
    assert h.members.Keys == g.members.Keys;
    VotersUnmoved(g.members.Keys, g.reigns, h.reigns, g.ballots);
  }

  lemma VotersUnmoved(names: set<Name>, r: Reigns, q: Reigns, ballots: Ballots)
    requires VotersOk(names, r, ballots) && ReignsGrow(r, q) && q.Keys == r.Keys
    ensures VotersOk(names, q, ballots)
  {
    forall u | u in q ensures ElectedOk(names, u, q[u], ballots) {
      assert ElectedOk(names, u, r[u], ballots);
      assert ReignGrows(r[u], q[u]);
    }
  }

  lemma ReignsExtend(r: Reigns, t: nat, e: Entry)
    requires ReignsOk(r) && t in r && e.term == t
    ensures var q := r[t := r[t].(log := r[t].log + [e])]; ReignsGrow(r, q) && ReignsOk(q)
  {
    var q := r[t := r[t].(log := r[t].log + [e])];
    assert ReignShape(t, r[t]) && Good(r[t].log, r);
    GoodGrows(r[t].log, r, q);
    GoodExtends(r[t].log, e, q);
    ReignsStay(r, q, t);
  }

  lemma GoodExtends(log: Log, e: Entry, reigns: Reigns)
    requires Good(log, reigns) && e.term in reigns && log + [e] <= reigns[e.term].log
    ensures Good(log + [e], reigns)
  {
    var l := log + [e];
    forall k | 0 <= k < |l| ensures l[k].term in reigns && l[..k + 1] <= reigns[l[k].term].log {
      if k < |log| {
        assert l[..k + 1] == log[..k + 1];
        assert l[k] == log[k];
      } else {
        assert l[..k + 1] == l;
      }
    }
  }

  lemma ExtendBallots(g: Core, n: Name, command: string)
    requires BallotsOk(g.ballots, g.members) && n in g.members && g.members[n].term in g.reigns
    ensures BallotsOk(g.ballots, Extension(g, n, command).members)
  {
  }

  lemma ExtendMembers(g: Core, n: Name, command: string)
    requires Inv(g) && n in g.members && g.members[n].leader && g.members[n].term in g.reigns
    requires var h := Extension(g, n, command); ReignsGrow(g.reigns, h.reigns) && ReignsOk(h.reigns)
    ensures var h := Extension(g, n, command); MembersOk(h.members, h.reigns)
  {
    hide AcksOk, AcksHeld, SupportOk, Complete, CandidatesOk, VotersOk, BallotsOk, SentOk;
    var h := Extension(g, n, command);
    LeaderReigns(g, n);
    forall c | c in h.members ensures MemberOk(c, h.members[c], h.reigns) {
      assert MemberOk(c, g.members[c], g.reigns);
      GoodGrows(g.members[c].log, g.reigns, h.reigns);
      if g.members[c].leader && g.members[c].term == g.members[n].term {
        assert c == n;
      }
    }
  }

  lemma ExtendCandidates(g: Core, n: Name, command: string)
    requires Inv(g) && n in g.members && g.members[n].leader && g.members[n].term in g.reigns
    ensures var h := Extension(g, n, command); CandidatesOk(h.members, h.reigns, h.ballots)
  {
    hide AcksOk, AcksHeld, SupportOk, Complete, ReignsOk, VotersOk, BallotsOk, SentOk;
    var h := Extension(g, n, command);
    forall c | c in h.members ensures CandidateOk(c, h.members[c], h.reigns, h.ballots) {
      assert CandidateOk(c, g.members[c], g.reigns, g.ballots);
      assert MemberOk(n, g.members[n], g.reigns);
      assert h.members[c].candidate ==> h.members[c] == g.members[c];
      assert forall u :: Unsupported(c, g.members[c].term, u, g.reigns, g.ballots) ==>
        Unsupported(c, g.members[c].term, u, h.reigns, h.ballots);
    }
  }

  lemma ExtendAcks(g: Core, n: Name, command: string)
    requires Inv(g) && n in g.members && g.members[n].leader && g.members[n].term in g.reigns
    requires var h := Extension(g, n, command); ReignsGrow(g.reigns, h.reigns) && ReignsOk(h.reigns)
    ensures var h := Extension(g, n, command);
      AcksOk(h.acks, h.members, h.reigns) && AcksHeld(h.acks, h.members, h.reigns)
  {
    var h := Extension(g, n, command);
    forall a | a in h.acks
      ensures AckOk(a, h.members, h.reigns)
      ensures Holds(h.members[a.node].log, h.reigns, h.acks, a.term, a.upTo)
    {
      ExtendAck(g, n, command, a);
    }
  }

  lemma ExtendAck(g: Core, n: Name, command: string, a: Ack)
    requires Inv(g) && n in g.members && g.members[n].leader && g.members[n].term in g.reigns
    requires var h := Extension(g, n, command);
      ReignsGrow(g.reigns, h.reigns) && ReignsOk(h.reigns) && a in h.acks
    ensures var h := Extension(g, n, command);
      AckOk(a, h.members, h.reigns) && Holds(h.members[a.node].log, h.reigns, h.acks, a.term, a.upTo)
  {
    hide VotersOk, BallotsOk, SentOk, CandidatesOk, SupportOk, Complete, ReignsOk;
    if a in g.acks {
      var h := Extension(g, n, command);
      assert AckOk(a, g.members, g.reigns);
      HoldsStays(g, h, g.members[a.node].log, a.term, a.upTo);
      assert g.members[a.node].log <= h.members[a.node].log;
    } else {
      ExtendOwnAck(g, n, command, a);
    }
  }

  /** The leader acknowledges the entry it has just appended. */
  lemma ExtendOwnAck(g: Core, n: Name, command: string, a: Ack)
    requires Inv(g) && n in g.members && g.members[n].leader && g.members[n].term in g.reigns
    requires ReignsOk(Extension(g, n, command).reigns) && a in Extension(g, n, command).acks && a !in g.acks
    ensures var h := Extension(g, n, command);
      AckOk(a, h.members, h.reigns) && Holds(h.members[a.node].log, h.reigns, h.acks, a.term, a.upTo)
  {
    hide VotersOk, BallotsOk, SentOk, CandidatesOk, SupportOk, Complete, AcksOk, AcksHeld;
    var h := Extension(g, n, command);
    LeaderReigns(g, n);
    var t := g.members[n].term;
    assert ReignShape(t, h.reigns[t]);
    assert h.reigns[t].log[..a.upTo] == h.reigns[t].log;
  }

  lemma ExtendSupport(g: Core, n: Name, command: string)
    requires Inv(g) && n in g.members && g.members[n].leader && g.members[n].term in g.reigns
    requires var h := Extension(g, n, command);
      ReignsGrow(g.reigns, h.reigns) && AcksOk(h.acks, h.members, h.reigns)
    ensures var h := Extension(g, n, command); SupportOk(h.acks, h.members, h.reigns, h.ballots)
  {
    hide VotersOk, SentOk, CandidatesOk, AcksHeld, Complete, ReignsOk;
    var h := Extension(g, n, command);
    forall c, a | c in h.members && a in h.acks && Supports(a, c, h.members[c], h.ballots)
      ensures Holds(h.members[c].log, h.reigns, h.acks, a.term, a.upTo)
    {
      assert MemberOk(n, g.members[n], g.reigns);
      assert a in g.acks;
      assert Supports(a, c, g.members[c], g.ballots);
      HoldsStays(g, h, h.members[c].log, a.term, a.upTo);
    }
  }

  lemma ExtendComplete(g: Core, n: Name, command: string)
    requires Inv(g) && n in g.members && g.members[n].leader && g.members[n].term in g.reigns
    requires var h := Extension(g, n, command); ReignsGrow(g.reigns, h.reigns)
    ensures var h := Extension(g, n, command); Complete(h.reigns, h.acks)
  {
    var h := Extension(g, n, command);
    LeaderReigns(g, n);
    forall t: nat, u: nat, upTo: nat | u in h.reigns && t < u && InReign(h.reigns, t, upTo)
      ensures Holds(h.reigns[u].start, h.reigns, h.acks, t, upTo)
    {
      if InReign(g.reigns, t, upTo) {
        HoldsStays(g, h, g.reigns[u].start, t, upTo);
      } else {
        assert t == g.members[n].term;
        forall v | v in h.reigns[u].voters ensures Ack(t, v, upTo) !in h.acks {
          VoterTerm(g, u, v);
          assert Ack(t, v, upTo) in g.acks ==> AckOk(Ack(t, v, upTo), g.members, g.reigns);
        }
        assert Blocks(u, h.reigns[u].voters, h.acks, t, upTo);
      }
    }
  }

  // ------------------------------------------------------------------
  // Win: a candidate with a majority opens its reign with a no-op
  // ------------------------------------------------------------------

  ghost predicate CanWin(g: Core, n: Name, voters: set<Name>) {
    && n in g.members && g.members[n].candidate
    && n in voters && voters <= g.members.Keys
    && |voters| >= Quorum(|g.members|)
    && (forall v :: v in voters ==> VotedFor(g.ballots, g.members[n].term, v, n))
  }

  function Victory(g: Core, n: Name, voters: set<Name>): Core
    requires n in g.members
  {
    var m := g.members[n];
    var log := m.log + [Entry(m.term, "")];
    g.(members := g.members[n := m.(log := log, candidate := false, leader := true, push := Some(m.term))],
       reigns := g.reigns[m.term := Reign(n, voters, m.log, log)],
       acks := g.acks + {Ack(m.term, n, |log|)})
  }

  /** Nobody else has won this term, and the winner's log is older than it. */
  lemma WinnerIsFresh(g: Core, n: Name, voters: set<Name>)
    requires Inv(g) && CanWin(g, n, voters)
    ensures g.members[n].term !in g.reigns
    ensures forall k :: 0 <= k < |g.members[n].log| ==> g.members[n].log[k].term < g.members[n].term
  {
    var m := g.members[n];
    assert CandidateOk(n, m, g.reigns, g.ballots);
    if m.term in g.reigns {
      assert ElectedOk(g.members.Keys, m.term, g.reigns[m.term], g.ballots);
      var v := QuorumsMeet(g.members.Keys, voters, g.reigns[m.term].voters);
    }
    forall k | 0 <= k < |m.log| ensures m.log[k].term < m.term {
      assert MemberOk(n, m, g.reigns);
      var u := m.log[k].term;
      if u >= m.term {
        assert ElectedOk(g.members.Keys, u, g.reigns[u], g.ballots);
        var v := QuorumsMeet(g.members.Keys, voters, g.reigns[u].voters);
      }
    }
  }

  lemma WinKeeps(g: Core, n: Name, voters: set<Name>) returns (h: Core)
    requires Inv(g) && CanWin(g, n, voters)
    ensures g.members[n].term !in g.reigns && h == Victory(g, n, voters)
    ensures Inv(h) && Grows(g, h)
  {
    hide ReignsOk, VotersOk, MembersOk, SentOk, CandidatesOk, AcksOk, AcksHeld, SupportOk, Complete;
    h := Victory(g, n, voters);
    assert g.members.Keys == h.members.Keys;
    WinnerIsFresh(g, n, voters);
    WinReigns(g, n, voters);
    WinMembers(g, n, voters);
    WinCandidates(g, n, voters);
    WinAcks(g, n, voters);
    WinComplete(g, n, voters);
  }

  lemma WinReigns(g: Core, n: Name, voters: set<Name>)
    requires Inv(g) && CanWin(g, n, voters)
    ensures var h := Victory(g, n, voters);
      && ReignsGrow(g.reigns, h.reigns) && ReignsOk(h.reigns) && SentOk(h.sent, h.reigns)
      && VotersOk(h.members.Keys, h.reigns, h.ballots)
  {
    hide AcksOk, AcksHeld, SupportOk, Complete, BallotsOk, MembersOk, CandidatesOk, ReignsOk, SentOk;
    var h := Victory(g, n, voters);
    var t := g.members[n].term;
    assert h.members.Keys == g.members.Keys;
    ReignOpens(g, n, voters);
    SentStays(g.sent, g.reigns, h.reigns);
    forall u | u in h.reigns ensures ElectedOk(h.members.Keys, u, h.reigns[u], h.ballots) {
      assert u != t ==> ElectedOk(g.members.Keys, u, g.reigns[u], g.ballots);
    }
  }

  lemma ReignOpens(g: Core, n: Name, voters: set<Name>)
    requires Inv(g) && CanWin(g, n, voters)
    ensures var h := Victory(g, n, voters); ReignsGrow(g.reigns, h.reigns) && ReignsOk(h.reigns)
  {
    hide AcksOk, AcksHeld, SupportOk, Complete, BallotsOk, VotersOk, SentOk;
    var h := Victory(g, n, voters);
    var t := g.members[n].term;
    WinnerIsFresh(g, n, voters);
    assert MemberOk(n, g.members[n], g.reigns);
    assert CandidateOk(n, g.members[n], g.reigns, g.ballots);
    GoodGrows(g.members[n].log, g.reigns, h.reigns);
    GoodExtends(g.members[n].log, Entry(t, ""), h.reigns);
    ReignsStay(g.reigns, h.reigns, t);
  }

  lemma WinMembers(g: Core, n: Name, voters: set<Name>)
    requires Inv(g) && CanWin(g, n, voters)
    requires var h := Victory(g, n, voters); ReignsGrow(g.reigns, h.reigns) && ReignsOk(h.reigns)
    ensures var h := Victory(g, n, voters); MembersOk(h.members, h.reigns)
  {
    hide VotersOk, BallotsOk, SentOk, CandidatesOk, AcksOk, AcksHeld, SupportOk, Complete;
    var h := Victory(g, n, voters);
    var t := g.members[n].term;
    WinnerIsFresh(g, n, voters);
    forall c | c in h.members ensures MemberOk(c, h.members[c], h.reigns) {
      assert MemberOk(c, g.members[c], g.reigns);
      GoodGrows(g.members[c].log, g.reigns, h.reigns);
      if c == n {
        GoodExtends(g.members[n].log, Entry(t, ""), h.reigns);
      }
    }
  }

  lemma WinCandidates(g: Core, n: Name, voters: set<Name>)
    requires Inv(g) && CanWin(g, n, voters)
    requires var h := Victory(g, n, voters); ReignsGrow(g.reigns, h.reigns)
    ensures var h := Victory(g, n, voters); CandidatesOk(h.members, h.reigns, h.ballots)
  {
    hide VotersOk, BallotsOk, SentOk, ReignsOk, AcksOk, AcksHeld, SupportOk, Complete;
    var h := Victory(g, n, voters);
    WinnerIsFresh(g, n, voters);
    forall c | c in h.members ensures CandidateOk(c, h.members[c], h.reigns, h.ballots) {
      if c != n {
        assert MemberOk(c, g.members[c], g.reigns);
        assert CandidateOk(c, g.members[c], g.reigns, g.ballots);
        forall k | 0 <= k < |g.members[c].log|
          ensures Unsupported(c, g.members[c].term, g.members[c].log[k].term, g.reigns, g.ballots) ==>
            Unsupported(c, g.members[c].term, g.members[c].log[k].term, h.reigns, h.ballots)
        {
          assert g.members[c].log[k].term in g.reigns;
        }
      }
    }
  }

  lemma WinAcks(g: Core, n: Name, voters: set<Name>)
    requires Inv(g) && CanWin(g, n, voters)
    requires var h := Victory(g, n, voters); ReignsGrow(g.reigns, h.reigns) && ReignsOk(h.reigns)
    ensures var h := Victory(g, n, voters);
      && AcksOk(h.acks, h.members, h.reigns) && AcksHeld(h.acks, h.members, h.reigns)
      && SupportOk(h.acks, h.members, h.reigns, h.ballots)
  {
    var h := Victory(g, n, voters);
    forall a | a in h.acks
      ensures AckOk(a, h.members, h.reigns)
      ensures Holds(h.members[a.node].log, h.reigns, h.acks, a.term, a.upTo)
    {
      WinAck(g, n, voters, a);
    }
    WinSupport(g, n, voters);
  }

  lemma WinAck(g: Core, n: Name, voters: set<Name>, a: Ack)
    requires Inv(g) && CanWin(g, n, voters)
    requires var h := Victory(g, n, voters); ReignsGrow(g.reigns, h.reigns) && a in h.acks
    ensures var h := Victory(g, n, voters);
      AckOk(a, h.members, h.reigns) && Holds(h.members[a.node].log, h.reigns, h.acks, a.term, a.upTo)
  {
    var h := Victory(g, n, voters);
    if a in g.acks {
      assert AckOk(a, g.members, g.reigns);
      HoldsStays(g, h, g.members[a.node].log, a.term, a.upTo);
      assert g.members[a.node].log <= h.members[a.node].log;
    } else {
      assert h.reigns[a.term].log[..a.upTo] == h.reigns[a.term].log;
    }
  }

  lemma WinSupport(g: Core, n: Name, voters: set<Name>)
    requires Inv(g) && CanWin(g, n, voters)
    requires var h := Victory(g, n, voters);
      ReignsGrow(g.reigns, h.reigns) && AcksOk(h.acks, h.members, h.reigns)
    ensures var h := Victory(g, n, voters); SupportOk(h.acks, h.members, h.reigns, h.ballots)
  {
    var h := Victory(g, n, voters);
    forall c, a | c in h.members && a in h.acks && Supports(a, c, h.members[c], h.ballots)
      ensures Holds(h.members[c].log, h.reigns, h.acks, a.term, a.upTo)
    {
      assert a in g.acks;
      assert Supports(a, c, g.members[c], g.ballots);
      HoldsStays(g, h, h.members[c].log, a.term, a.upTo);
    }
  }

  lemma WinComplete(g: Core, n: Name, voters: set<Name>)
    requires Inv(g) && CanWin(g, n, voters)
    requires var h := Victory(g, n, voters); ReignsGrow(g.reigns, h.reigns)
    ensures var h := Victory(g, n, voters); Complete(h.reigns, h.acks)
  {
    var h := Victory(g, n, voters);
    WinnerIsFresh(g, n, voters);
    forall t: nat, u: nat, upTo: nat | u in h.reigns && t < u && InReign(h.reigns, t, upTo)
      ensures Holds(h.reigns[u].start, h.reigns, h.acks, t, upTo)
    {
      if t == g.members[n].term {
        forall v | v in h.reigns[u].voters ensures Ack(t, v, upTo) !in h.acks {
          VoterTerm(g, u, v);
          assert Ack(t, v, upTo) in g.acks ==> AckOk(Ack(t, v, upTo), g.members, g.reigns);
        }
        assert Blocks(u, h.reigns[u].voters, h.acks, t, upTo);
      } else if u == g.members[n].term {
        WinnerHolds(g, n, voters, t, upTo);
      } else {
        HoldsStays(g, h, g.reigns[u].start, t, upTo);
      }
    }
  }

  /** The winner holds all it could have been acknowledged for, or its own voters rule it out. */
  lemma WinnerHolds(g: Core, n: Name, voters: set<Name>, t: nat, upTo: nat)
    requires Inv(g) && CanWin(g, n, voters) && t < g.members[n].term && InReign(g.reigns, t, upTo)
    requires var h := Victory(g, n, voters); ReignsGrow(g.reigns, h.reigns) && InReign(h.reigns, t, upTo)
    ensures var h := Victory(g, n, voters); Holds(g.members[n].log, h.reigns, h.acks, t, upTo)
  {
    var h := Victory(g, n, voters);
    var u := g.members[n].term;
    if v :| v in voters && Ack(t, v, upTo) in g.acks {
      assert Supports(Ack(t, v, upTo), n, g.members[n], g.ballots);
      HoldsStays(g, h, g.members[n].log, t, upTo);
    } else {
      assert Blocks(u, voters, h.acks, t, upTo);
      assert u in h.reigns && h.reigns[u].voters == voters;
    }
  }

  // ------------------------------------------------------------------
  // What a majority of acknowledgements fixes
  // ------------------------------------------------------------------

  /** A majority acknowledged the leader of t through an entry of its own term. */
  ghost predicate Chosen(g: Core, t: nat, upTo: nat) {
    && InReign(g.reigns, t, upTo)
    && exists q :: ChosenBy(g, q, t, upTo)
  }

  ghost predicate ChosenBy(g: Core, q: set<Name>, t: nat, upTo: nat) {
    q <= g.members.Keys && |q| >= Quorum(|g.members|) && forall v :: v in q ==> Ack(t, v, upTo) in g.acks
  }

  lemma ChosenStays(g: Core, h: Core, t: nat, upTo: nat)
    requires Grows(g, h) && Chosen(g, t, upTo)
    ensures Chosen(h, t, upTo)
    ensures h.reigns[t].log[..upTo] == g.reigns[t].log[..upTo]
  {
    var q :| ChosenBy(g, q, t, upTo);
    assert |g.members| == |g.members.Keys| == |h.members.Keys| == |h.members|;
    assert ChosenBy(h, q, t, upTo);
    assert ReignGrows(g.reigns[t], h.reigns[t]);
  }

  lemma ChosenNotBlocked(g: Core, t: nat, upTo: nat)
    requires Inv(g) && Chosen(g, t, upTo)
    ensures !Blocked(g.reigns, g.acks, t, upTo)
  {
    var q :| ChosenBy(g, q, t, upTo);
    forall w | w in g.reigns ensures !Blocks(w, g.reigns[w].voters, g.acks, t, upTo) {
      assert ElectedOk(g.members.Keys, w, g.reigns[w], g.ballots);
      var v := QuorumsMeet(g.members.Keys, q, g.reigns[w].voters);
      assert Ack(t, v, upTo) in g.acks;
    }
  }

  /** Leader completeness: every later reign opens with what was chosen. */
  lemma ChosenSurvives(g: Core, t: nat, upTo: nat, u: nat)
    requires Inv(g) && Chosen(g, t, upTo) && u in g.reigns && t < u
    ensures g.reigns[t].log[..upTo] <= g.reigns[u].start
  {
    ChosenNotBlocked(g, t, upTo);
    assert InReign(g.reigns, t, upTo);
    assert Holds(g.reigns[u].start, g.reigns, g.acks, t, upTo);
  }

  /** Any two chosen prefixes agree as far as both reach. */
  lemma ChosenAgree(g: Core, t: nat, a: nat, u: nat, b: nat, k: nat)
    requires Inv(g) && Chosen(g, t, a) && Chosen(g, u, b) && k < a && k < b
    ensures g.reigns[t].log[k] == g.reigns[u].log[k]
  {
    if t < u {
      ChosenSurvives(g, t, a, u);
      assert ReignShape(u, g.reigns[u]);
    } else if u < t {
      ChosenSurvives(g, u, b, t);
      assert ReignShape(t, g.reigns[t]);
    }
  }
}
