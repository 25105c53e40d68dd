/** State-machine safety, for runs in which every append that is accepted was built while its sender led. */
module RaftPrompt {
  import opened Helpers
  import opened RaftLog
  import opened RaftCore
  import opened RaftActions
  import opened RaftPeer
  import opened RaftCluster
  import opened RaftShadow
  import opened RaftSim
  import opened RaftReplicate
  import opened RaftSafety
  import opened RaftCommit
  import opened RaftTheorems

  /** The first `upTo` entries of the log are part of something chosen no later than `bound`. */
  ghost predicate Backed(core: Core, log: Log, upTo: nat, bound: nat) {
    upTo <= |log| && (upTo == 0 || exists t: nat, m: nat :: BackedBy(core, log, upTo, bound, t, m))
  }

  ghost predicate BackedBy(core: Core, log: Log, upTo: nat, bound: nat, t: nat, m: nat)
    requires upTo <= |log|
  {
    Chosen(core, t, m) && t <= bound && upTo <= m && log[..upTo] == core.reigns[t].log[..upTo]
  }

  ghost predicate PeerBacked(p: Peer, core: Core) {
    Backed(core, p.log, p.commitIndex, p.term) && p.appliedIndex <= p.commitIndex
  }

  ghost predicate CallBacked(k: Call, s: Option<Sent>, core: Core) {
    k.request.AppendEntries? && s.Some? && s.value.prompt ==> Backed(core, s.value.log, k.request.commit, k.request.term)
  }

  ghost predicate EventBacked(e: Event, core: Core) {
    e.Applied? ==> exists t: nat, m: nat :: AppliedFrom(e, core, t, m)
  }

  ghost predicate AppliedFrom(e: Event, core: Core, t: nat, m: nat)
    requires e.Applied?
  {
    Chosen(core, t, m) && t <= e.nodeTerm && 0 < e.index <= m && core.reigns[t].log[e.index - 1] == Entry(e.term, e.command)
  }

  ghost predicate AllBacked(c: Cluster, x: Shadow) {
    && (forall n :: n in c.peers ==> PeerBacked(c.peers[n], x.core))
    && (forall id :: 0 <= id < |c.calls| && id < |x.sent| ==> CallBacked(c.calls[id], x.sent[id], x.core))
    && (forall e :: e in c.events ==> EventBacked(e, x.core))
  }

  // ------------------------------------------------------------------
  // What history's growth leaves in place
  // ------------------------------------------------------------------

  lemma BackedStays(g: Core, h: Core, log: Log, longer: Log, upTo: nat, bound: nat, later: nat)
    requires Backed(g, log, upTo, bound) && Grows(g, h) && bound <= later
    requires upTo <= |longer| && log[..upTo] == longer[..upTo]
    ensures Backed(h, longer, upTo, later)
  {
    if upTo > 0 {
      var t: nat, m: nat :| BackedBy(g, log, upTo, bound, t, m);
      ChosenStays(g, h, t, m);
      assert h.reigns[t].log[..upTo] == h.reigns[t].log[..m][..upTo];
      assert g.reigns[t].log[..upTo] == g.reigns[t].log[..m][..upTo];
      assert BackedBy(h, longer, upTo, later, t, m);
    }
  }

  lemma EventStays(g: Core, h: Core, e: Event)
    requires EventBacked(e, g) && Grows(g, h)
    ensures EventBacked(e, h)
  {
    if e.Applied? {
      var t: nat, m: nat :| AppliedFrom(e, g, t, m);
      ChosenStays(g, h, t, m);
      assert g.reigns[t].log[e.index - 1] == g.reigns[t].log[..m][e.index - 1];
      assert h.reigns[t].log[e.index - 1] == h.reigns[t].log[..m][e.index - 1];
      assert AppliedFrom(e, h, t, m);
    }
  }

  /** Applying a backed prefix produces backed events. */
  lemma ApplyBacked(core: Core, p: Peer)
    requires Backed(core, p.log, p.commitIndex, p.term)
    ensures forall e :: e in ApplyEvents(p) ==> EventBacked(e, core)
  {
    OnlyApplies(p, p.appliedIndex, ApplyLimit(p));
    forall e | e in ApplyEvents(p) ensures EventBacked(e, core) {
      assert AppliesEntry(e, p, p.appliedIndex, ApplyLimit(p));
      var t: nat, m: nat :| BackedBy(core, p.log, p.commitIndex, p.term, t, m);
      assert p.log[e.index - 1] == p.log[..p.commitIndex][e.index - 1];
      assert AppliedFrom(e, core, t, m);
    }
  }

  // ------------------------------------------------------------------
  // The step that moves a follower's log and mark
  // ------------------------------------------------------------------

  /** A leader's log, built while it leads, never cuts into what a follower has committed. */
  lemma AdoptKeepsBacked(core: Core, mine: Log, s: Sent, upTo: nat, bound: nat)
    requires Inv(core) && s in core.sent && s.prompt && bound <= s.term
    requires Backed(core, mine, upTo, bound)
    ensures upTo <= |Adopted(mine, s.log)| && Adopted(mine, s.log)[..upTo] == mine[..upTo]
  {
    assert SentLogOk(s, core.reigns);
    if upTo > 0 && !(s.log <= mine) {
      var t: nat, m: nat :| BackedBy(core, mine, upTo, bound, t, m);
      BackedInReign(core, s, t, m);
      if upTo <= |s.log| {
        CutsAgree(core.reigns[t].log, s.log, m, upTo, core.reigns[s.term].log, t == s.term);
      } else {
        ShortIsPrefix(mine, s.log, core.reigns[t].log, core.reigns[s.term].log, upTo, m, t == s.term);
      }
    }
  }

  /** What was chosen before a leader's term opens its log; what it chose itself is its log. */
  lemma BackedInReign(core: Core, s: Sent, t: nat, m: nat)
    requires Inv(core) && s in core.sent && s.prompt && Chosen(core, t, m) && t <= s.term
    ensures s.term in core.reigns && s.log <= core.reigns[s.term].log
    ensures t < s.term ==> m <= |s.log| && core.reigns[t].log[..m] <= s.log
  {
    assert SentLogOk(s, core.reigns);
    if t < s.term {
      ChosenSurvives(core, t, m, s.term);
      assert ReignShape(s.term, core.reigns[s.term]);
      PrefixesCompare(core.reigns[s.term].start, s.log, core.reigns[s.term].log);
    }
  }

  lemma CutsAgree(earlier: Log, s: Log, m: nat, upTo: nat, whole: Log, same: bool)
    requires upTo <= |s| && upTo <= m <= |earlier| && s <= whole
    requires if same then earlier == whole else earlier[..m] <= s
    ensures s[..upTo] == earlier[..upTo]
  {
    if !same {
      assert earlier[..m][..upTo] == earlier[..upTo];
    }
  }

  lemma ShortIsPrefix(mine: Log, s: Log, earlier: Log, whole: Log, upTo: nat, m: nat, same: bool)
    requires |s| < upTo <= m <= |earlier| && upTo <= |mine| && mine[..upTo] == earlier[..upTo] && s <= whole
    requires if same then earlier == whole else m <= |s|
    ensures s <= mine
  {
    if same {
      assert s == whole[..|s|] == earlier[..upTo][..|s|] == mine[..|s|];
    }
  }

  /** The follower after an accepted append: its old mark stands, and the leader's is as good. */
  lemma AppendBacked(core: Core, p: Peer, q: Peer, m: Request, s: Sent)
    requires Inv(core) && s in core.sent && s.prompt && s.term == m.term
    requires PeerBacked(p, core) && p.term <= m.term
    requires m.AppendEntries? && Carries(m, s.log) && Backed(core, s.log, m.commit, m.term)
    requires q.log == Adopted(p.log, s.log) && q.term == m.term && q.appliedIndex == p.appliedIndex
    requires q.commitIndex == if m.commit <= p.commitIndex then p.commitIndex
                              else Max(p.commitIndex, Min(m.commit, m.prev + |m.entries|))
    ensures PeerBacked(q, core)
  {
    hide Inv, BackedBy;
    AdoptKeepsBacked(core, p.log, s, p.commitIndex, p.term);
    assert Grows(core, core);
    BackedStays(core, core, p.log, q.log, p.commitIndex, p.term, q.term);
    if m.commit > p.commitIndex {
      assert m.prev + |m.entries| == |s.log|;
      assert s.log <= q.log;
      BackedStays(core, core, s.log, q.log, m.commit, m.term, q.term);
    }
  }

  /** What an append does to the log, the mark and the apply cursor: nothing if it is refused,
      otherwise the peer passes through `o` on the way. */
  lemma AppendMarks(p: Peer, m: Request) returns (o: Peer)
    requires m.AppendEntries?
    ensures var (q, reply, events) := OnAppendEntries(p, m);
      && reply.Appended?
      && (!reply.ok ==> Calm(p, q) && events == [])
      && (reply.ok ==> AppliesTo(p, m, o) && Shows(o, q) && (events == [] || events == ApplyEvents(o)))
  {
    hide OnAppendEntries, Merge, AppliesTo, ApplyEvents, ApplyCommitted, Shows, Calm;
    o := Taken(p, m);
    if p.term <= m.term && Matches(p.log, m.prev, m.prevTerm) {
      AppendTakes(p, m);
      ApplyShows(o);
    } else {
      AppendRefuses(p, m);
    }
  }

  /** The peer with an append's entries and mark, before it applies them. */
  ghost function Taken(p: Peer, m: Request): Peer
    requires m.AppendEntries?
  {
    var r := Heard(p, m.term);
    r.(log := Merge(r.log, m.prev, m.entries),
       commitIndex := if m.commit <= p.commitIndex then p.commitIndex
                      else Max(p.commitIndex, Min(m.commit, m.prev + |m.entries|)))
  }

  lemma AppendRefuses(p: Peer, m: Request)
    requires m.AppendEntries? && !(p.term <= m.term && Matches(p.log, m.prev, m.prevTerm))
    ensures var (q, reply, events) := OnAppendEntries(p, m);
      reply.Appended? && !reply.ok && Calm(p, q) && events == []
  {
    hide Merge, ApplyEvents, ApplyCommitted;
  }

  lemma AppendTakes(p: Peer, m: Request)
    requires m.AppendEntries? && p.term <= m.term && Matches(p.log, m.prev, m.prevTerm)
    ensures AppliesTo(p, m, Taken(p, m))
    ensures OnAppendEntries(p, m) ==
      if m.commit <= p.commitIndex then (Taken(p, m), Appended(m.term, true), [])
      else (ApplyCommitted(Taken(p, m)), Appended(m.term, true), ApplyEvents(Taken(p, m)))
  {
    hide Merge, ApplyEvents, ApplyCommitted, Matches, AppliesTo;
    TakenApplies(p, m);
    assert Taken(p, m).term == m.term;
  }

  lemma TakenApplies(p: Peer, m: Request)
    requires m.AppendEntries? && p.term <= m.term && Matches(p.log, m.prev, m.prevTerm)
    ensures AppliesTo(p, m, Taken(p, m))
  {
    hide Merge, Matches;
  }

  lemma ApplyShows(o: Peer)
    ensures Shows(o, o) && Shows(o, ApplyCommitted(o))
  {
    hide Visible;
  }

  /** Nothing that backing depends on is lost. */
  ghost predicate Calm(p: Peer, q: Peer) {
    || (q.commitIndex == 0 && q.appliedIndex == 0)
    || (q.commitIndex == p.commitIndex && q.appliedIndex == p.appliedIndex && p.log <= q.log && p.term <= q.term)
  }

  /** The same log, mark and term, with the apply cursor caught up. */
  ghost predicate Shows(o: Peer, q: Peer) {
    && q.log == o.log && q.commitIndex == o.commitIndex && q.term == o.term
    && q.appliedIndex <= Max(o.appliedIndex, o.commitIndex)
  }

  /** The peer between taking an append's entries and applying what they commit. */
  ghost predicate AppliesTo(p: Peer, m: Request, o: Peer)
    requires m.AppendEntries?
  {
    && p.term <= m.term && Matches(p.log, m.prev, m.prevTerm)
    && o.term == m.term && o.log == Merge(p.log, m.prev, m.entries) && o.appliedIndex == p.appliedIndex
    && o.commitIndex == (if m.commit <= p.commitIndex then p.commitIndex
                         else Max(p.commitIndex, Min(m.commit, m.prev + |m.entries|)))
  }

  // ------------------------------------------------------------------
  // Every step
  // ------------------------------------------------------------------

  lemma CalmBacked(p: Peer, q: Peer, g: Core, h: Core)
    requires PeerBacked(p, g) && Calm(p, q) && Grows(g, h)
    ensures PeerBacked(q, h)
  {
    if q.commitIndex > 0 || q.appliedIndex > 0 {
      BackedStays(g, h, p.log, q.log, p.commitIndex, p.term, q.term);
    }
  }

  lemma CalmStep(c: Cluster, s: Step, n: Name)
    requires Enabled(c, s) && n in c.peers && !s.HandleAppend? && !s.PushReply?
    ensures n in Next(c, s).peers && Calm(c.peers[n], Next(c, s).peers[n])
  {
    hide OnRequestVote, OnVoteReply, OnAppendReply, AppendRequest;
    match s {
      case HandleVote(call) => VoteCalm(c.peers[c.calls[call].callee], c.calls[call].request);
      case CountVote(m, peer) =>
        CountCalm(c.peers[m], peer, c.calls[c.peers[m].solicitors[peer].call].reply.value);
      case PushTimeout(m, peer) => TimeoutCalm(c.peers[m], peer, c.calls[c.peers[m].pushers[peer].call].request);
      case _ =>
    }
  }

  lemma VoteCalm(p: Peer, m: Request)
    requires m.RequestVote?
    ensures Calm(p, OnRequestVote(p, m).0)
  {
  }

  lemma CountCalm(p: Peer, from: Name, reply: Reply)
    requires reply.Voted?
    ensures Calm(p, OnVoteReply(p, from, reply))
  {
  }

  lemma TimeoutCalm(p: Peer, from: Name, m: Request)
    requires m.AppendEntries? && p.pushTerm.Some? && from in p.nextIndex
    ensures Calm(p, OnAppendReply(p, from, m, None).0)
  {
  }

  /** If the step takes an append over, it is a prompt one. */
  ghost predicate TakesPrompt(c: Cluster, x: Shadow, s: Step) {
    Accepts(c, s) ==> IsPrompt(x.sent, s.call)
  }

  /** A follower handles an append whose sender led when it built it. */
  lemma HandleBacked(c: Cluster, x: Shadow, id: nat)
    requires Sim(c, x) && Enabled(c, HandleAppend(id)) && TakesPrompt(c, x, HandleAppend(id))
    requires AllBacked(c, x)
    ensures var (q, reply, events) := OnAppendEntries(c.peers[c.calls[id].callee], c.calls[id].request);
      && (PeerBacked(q, x.core) || Calm(c.peers[c.calls[id].callee], q))
      && forall e :: e in events ==> EventBacked(e, x.core)
  {
    hide Sim, Inv, OnAppendEntries, Merge, Backed, EventBacked;
    var k := c.calls[id];
    var p := c.peers[k.callee];
    var o := AppendMarks(p, k.request);
    if OnAppendEntries(p, k.request).1.ok {
      var s := AppendArrives(c, x, id);
      assert CallBacked(k, x.sent[id], x.core);
      AppendBacked(x.core, p, o, k.request, s);
      ApplyBacked(x.core, o);
    }
  }

  /** An append that matches hands the follower its sender's whole log. */
  lemma AppendArrives(c: Cluster, x: Shadow, id: nat) returns (s: Sent)
    requires Sim(c, x) && Enabled(c, HandleAppend(id))
    requires var k := c.calls[id]; Matches(c.peers[k.callee].log, k.request.prev, k.request.prevTerm)
    ensures Inv(x.core) && id < |x.sent| && x.sent[id] == Some(s) && s in x.core.sent
    ensures s.term == c.calls[id].request.term && Carries(c.calls[id].request, s.log)
    ensures var k := c.calls[id];
      Merge(c.peers[k.callee].log, k.request.prev, k.request.entries) == Adopted(c.peers[k.callee].log, s.log)
  {
    hide OnAppendEntries, Merge;
    var k := c.calls[id];
    CallAt(c, x, id);
    MemberAt(c, x, k.callee);
    s := x.sent[id].value;
    assert SentLogOk(s, x.core.reigns);
    AppendAdopts(x.core.reigns, c.peers[k.callee].log, s.log, k.request);
  }

  /** A leader counts an acknowledgement, and may commit on the strength of it. */
  lemma ReplyBacked(c: Cluster, x: Shadow, s: Step, y: Shadow)
    requires Enabled(c, s) && s.PushReply? && Sim(Next(c, s), y) && Grows(x.core, y.core)
    requires PeerBacked(c.peers[s.n], x.core)
    ensures PeerBacked(Next(c, s).peers[s.n], y.core)
    ensures var k := c.calls[c.peers[s.n].pushers[s.peer].call];
      forall e :: e in OnAppendReply(c.peers[s.n], s.peer, k.request, k.reply).1 ==> EventBacked(e, y.core)
  {
    hide OnAppendReply, Sim, ApplyEvents, Grows;
    var p := c.peers[s.n];
    var k := c.calls[p.pushers[s.peer].call];
    var q := OnAppendReply(p, s.peer, k.request, k.reply).0;
    assert Next(c, s).peers[s.n] == q;
    var o := ReplyMarks(p, s.peer, k.request, k.reply);
    if q.commitIndex > p.commitIndex {
      CommitIsChosen(c, s, Next(c, s), y);
      assert BackedBy(y.core, q.log, q.commitIndex, q.term, q.term, q.commitIndex);
      ApplyBacked(y.core, o);
    } else {
      CalmBacked(p, q, x.core, y.core);
    }
  }

  lemma ReplyMarks(p: Peer, from: Name, m: Request, reply: Option<Reply>) returns (o: Peer)
    requires m.AppendEntries? && p.pushTerm.Some? && from in p.nextIndex
    requires reply.Some? ==> reply.value.Appended?
    ensures var (q, events) := OnAppendReply(p, from, m, reply);
      && (q.commitIndex <= p.commitIndex ==> Calm(p, q) && events == [])
      && (q.commitIndex > p.commitIndex ==> Shows(o, q) && o.appliedIndex == p.appliedIndex && events == ApplyEvents(o))
  {
    hide Scan, ApplyEvents, Visible;
    var held := m.prev + |m.entries|;
    o := p.(pushers := p.pushers[from := Idle], matchIndex := p.matchIndex[from := held],
            nextIndex := p.nextIndex[from := held + 1]);
    o := o.(commitIndex := Scan(o, p.pushTerm.value, |o.log|));
  }

  // ------------------------------------------------------------------
  // Peers, calls and events after a step
  // ------------------------------------------------------------------

  lemma PeersStayBacked(c: Cluster, x: Shadow, s: Step, y: Shadow, n: Name)
    requires Sim(c, x) && Enabled(c, s) && Sim(Next(c, s), y) && Grows(x.core, y.core) && TakesPrompt(c, x, s)
    requires AllBacked(c, x) && n in c.peers
    ensures n in Next(c, s).peers && PeerBacked(Next(c, s).peers[n], y.core)
  {
    hide Sim, Grows, TakesPrompt, OnAppendEntries, OnAppendReply, OnRequestVote, OnVoteReply, AppendRequest, Backed;
    var p := c.peers[n];
    if s.HandleAppend? && n == c.calls[s.call].callee {
      HandleBacked(c, x, s.call);
      var q := Next(c, s).peers[n];
      if PeerBacked(q, x.core) {
        BackedFar(x.core, y.core, q.log, q.commitIndex, q.term);
      } else {
        CalmBacked(p, q, x.core, y.core);
      }
    } else if s.PushReply? && n == s.n {
      ReplyBacked(c, x, s, y);
    } else {
      if !s.HandleAppend? && !s.PushReply? {
        CalmStep(c, s, n);
      }
      CalmBacked(p, Next(c, s).peers[n], x.core, y.core);
    }
  }

  lemma CallsStayBacked(c: Cluster, x: Shadow, s: Step, y: Shadow, id: nat)
    requires Sim(c, x) && Enabled(c, s) && Sim(Next(c, s), y) && Follows(x, y) && Stamped(c, s, y)
    requires AllBacked(c, x) && id < |Next(c, s).calls|
    ensures id < |y.sent| && CallBacked(Next(c, s).calls[id], y.sent[id], y.core)
  {
    hide Inv, PeersOk, CallsOk, Grows, Next, Backed, Prompt, Stamped;
    var k := Next(c, s).calls[id];
    CallsAfter(c, s);
    if k.request.AppendEntries? && y.sent[id].Some? && y.sent[id].value.prompt {
      if id < |c.calls| {
        assert CallBacked(c.calls[id], x.sent[id], x.core);
        var l := x.sent[id].value.log;
        BackedFar(x.core, y.core, l, k.request.commit, k.request.term);
      } else {
        PushedBacked(c, x, s, y);
      }
    }
  }

  lemma BackedFar(g: Core, h: Core, log: Log, upTo: nat, bound: nat)
    requires Backed(g, log, upTo, bound) && Grows(g, h)
    ensures Backed(h, log, upTo, bound)
  {
    BackedStays(g, h, log, log, upTo, bound, bound);
  }

  /** A step keeps the requests already placed, and places at most one. */
  lemma CallsAfter(c: Cluster, s: Step)
    requires Enabled(c, s)
    ensures var d := Next(c, s);
      && |c.calls| <= |d.calls| <= |c.calls| + 1
      && (forall i :: 0 <= i < |c.calls| ==> d.calls[i].request == c.calls[i].request)
      && (|d.calls| > |c.calls| && d.calls[|c.calls|].request.AppendEntries? ==>
           && s.Push? && s.n in c.peers && s.n in d.peers && d.peers[s.n].log == c.peers[s.n].log
           && c.peers[s.n].pushTerm.Some? && s.peer in c.peers[s.n].nextIndex
           && c.peers[s.n].nextIndex[s.peer] <= |c.peers[s.n].log| + 1
           && d.calls[|c.calls|].request == AppendRequest(c.peers[s.n], s.peer))
  {
    hide OnAppendEntries, OnAppendReply, OnRequestVote, OnVoteReply;
  }

  /** A new append carries its sender's log and mark, and its sender leads the term it stamps. */
  lemma PushedBacked(c: Cluster, x: Shadow, s: Step, y: Shadow)
    requires Enabled(c, s) && Sim(Next(c, s), y) && Grows(x.core, y.core) && Stamped(c, s, y)
    requires AllBacked(c, x) && |Next(c, s).calls| == |c.calls| + 1
    requires Next(c, s).calls[|c.calls|].request.AppendEntries?
    ensures |c.calls| < |y.sent| && CallBacked(Next(c, s).calls[|c.calls|], y.sent[|c.calls|], y.core)
  {
    hide Inv, PeersOk, CallsOk, Grows, Next, Enabled, Backed;
    CallsAfter(c, s);
    var p := c.peers[s.n];
    var m := Next(c, s).calls[|c.calls|].request;
    var l := PushedLog(Next(c, s), y, |c.calls|, s.n, p.log);
    assert PeerBacked(p, x.core);
    BackedFar(x.core, y.core, p.log, p.commitIndex, p.term);
  }

  lemma PushedLog(d: Cluster, y: Shadow, id: nat, n: Name, log: Log) returns (l: Log)
    requires Sim(d, y) && id < |d.calls| && d.calls[id].request.AppendEntries?
    requires n in d.peers && d.peers[n].log == log && Carries(d.calls[id].request, log)
    ensures id < |y.sent| && y.sent[id].Some? && l == y.sent[id].value.log && l == log
  {
    CallAt(d, y, id);
    MemberAt(d, y, n);
    l := y.sent[id].value.log;
    assert SentLogOk(y.sent[id].value, y.core.reigns);
    SameWhole(y.core.reigns, log, l, d.calls[id].request);
  }

  lemma SameWhole(reigns: Reigns, a: Log, b: Log, m: Request)
    requires Good(a, reigns) && Good(b, reigns) && m.AppendEntries? && Carries(m, a) && Carries(m, b)
    ensures a == b
  {
    if m.prev > 0 {
      Matching(reigns, a, b, m.prev - 1);
    }
    assert a == a[..m.prev] + a[m.prev..];
    assert b == b[..m.prev] + b[m.prev..];
  }

  lemma EventsStayBacked(c: Cluster, x: Shadow, s: Step, y: Shadow, e: Event)
    requires Sim(c, x) && Enabled(c, s) && Sim(Next(c, s), y) && Grows(x.core, y.core) && TakesPrompt(c, x, s)
    requires AllBacked(c, x) && e in Next(c, s).events
    ensures EventBacked(e, y.core)
  {
    hide Sim, Grows, TakesPrompt, OnAppendEntries, OnAppendReply, OnRequestVote, OnVoteReply, AppendRequest;
    hide AppliedFrom, PeerBacked, CallBacked;
    if e in c.events {
      EventStays(x.core, y.core, e);
    } else if s.HandleAppend? {
      HandleBacked(c, x, s.call);
      EventStays(x.core, y.core, e);
    } else if s.PushReply? {
      ReplyBacked(c, x, s, y);
    }
  }

  lemma StepBacked(c: Cluster, x: Shadow, s: Step, y: Shadow)
    requires Sim(c, x) && Enabled(c, s) && Sim(Next(c, s), y) && Follows(x, y)
    requires Stamped(c, s, y) && TakesPrompt(c, x, s) && AllBacked(c, x)
    ensures AllBacked(Next(c, s), y)
  {
    hide Sim, Enabled, Next, Grows, Stamped, TakesPrompt, PeerBacked, CallBacked, EventBacked, Prompt;
    var d := Next(c, s);
    forall n | n in d.peers ensures PeerBacked(d.peers[n], y.core) {
      StepPeers(c, s);
      PeersStayBacked(c, x, s, y, n);
    }
    forall id | 0 <= id < |d.calls| && id < |y.sent| ensures CallBacked(d.calls[id], y.sent[id], y.core) {
      CallsStayBacked(c, x, s, y, id);
    }
    forall e | e in d.events ensures EventBacked(e, y.core) {
      EventsStayBacked(c, x, s, y, e);
    }
  }

  // ------------------------------------------------------------------
  // Along a prompt run
  // ------------------------------------------------------------------

  lemma {:induction false} PromptBacked(r: Run, xs: seq<Shadow>, k: nat)
    requires IsPromptRun(r) && k < |xs| && |xs| <= |r.states| && Shadowed(r, xs, |xs| - 1)
    requires AllBacked(r.states[0], xs[0])
    ensures AllBacked(r.states[k], xs[k])
  {
    hide Sim, Enabled, Next, AllBacked, LedOk, Initial, Follows, Stamped, Prompt, BuiltPromptly, Accepts, TakesPrompt;
    if k > 0 {
      PromptBacked(r, xs, k - 1);
      StepTakesPrompt(r, xs, k - 1);
      StepBacked(r.states[k - 1], xs[k - 1], r.steps[k - 1], xs[k]);
    }
  }

  /** What the run says of when an append was built is what the core remembers of it. */
  lemma StepTakesPrompt(r: Run, xs: seq<Shadow>, k: nat)
    requires IsPromptRun(r) && k < |r.steps| && k < |xs| && |xs| <= |r.states| && Shadowed(r, xs, |xs| - 1)
    ensures TakesPrompt(r.states[k], xs[k], r.steps[k])
  {
    hide Next, Shadowed, BuiltPromptly, OnAppendEntries;
    if Accepts(r.states[k], r.steps[k]) {
      AcceptedPrompt(r, xs, k, r.steps[k].call);
    }
  }

  /** A call that was placed and was built promptly is remembered so. */
  lemma AcceptedPrompt(r: Run, xs: seq<Shadow>, k: nat, id: nat)
    requires IsRun(r) && k < |r.steps| && k < |xs| && |xs| <= |r.states| && Shadowed(r, xs, |xs| - 1)
    requires id < |r.states[k].calls| && BuiltPromptly(r, id)
    ensures IsPrompt(xs[k].sent, id)
  {
    hide Sim, Next, LedOk, Initial, Follows, Stamped, Prompt, OnAppendEntries;
    var j :| 0 <= j < |r.steps| && j + 1 < |r.states| && BuiltAt(r, j, id);
    if j >= k {
      CallsRise(r, k, j);
    }
    PushRemembered(r, xs, j, id);
    SentFar(xs, j + 1, k);
  }

  lemma PushRemembered(r: Run, xs: seq<Shadow>, j: nat, id: nat)
    requires IsRun(r) && j + 1 < |xs| <= |r.states| && Shadowed(r, xs, |xs| - 1) && BuiltAt(r, j, id)
    ensures IsPrompt(xs[j + 1].sent, id)
  {
    hide LedOk, Initial, Follows, Prompt, Next, Enabled, Inv, PeersOk, CallsOk;
    assert Sim(r.states[j + 1], xs[j + 1]) && Stamped(r.states[j], r.steps[j], xs[j + 1]);
  }

  lemma {:induction false} SentFar(xs: seq<Shadow>, i: nat, j: nat)
    requires i <= j < |xs| && forall k :: 0 <= k < |xs| - 1 ==> Follows(xs[k], xs[k + 1])
    ensures xs[i].sent <= xs[j].sent
    decreases j
  {
    hide Grows, VotesNow;
    if i < j {
      SentFar(xs, i, j - 1);
      assert Follows(xs[j - 1], xs[j]);
    }
  }

  lemma {:induction false} CallsRise(r: Run, i: nat, j: nat)
    requires IsRun(r) && i <= j < |r.states|
    ensures |r.states[i].calls| <= |r.states[j].calls|
    decreases j
  {
    hide Next, Enabled, Initial;
    if i < j {
      CallsRise(r, i, j - 1);
      CallsAfter(r.states[j - 1], r.steps[j - 1]);
    }
  }

  lemma OriginBacked(c: Cluster, x: Shadow)
    requires Initial(c)
    ensures AllBacked(c, x)
  {
    forall n | n in c.peers ensures PeerBacked(c.peers[n], x.core) {
      assert c.peers[n] == Booted(n, c.peers[n].peers, 0, None, []);
    }
  }

  lemma BackedAt(r: Run, k: nat) returns (x: Shadow)
    requires IsPromptRun(r) && k < |r.states|
    ensures Inv(x.core) && AllBacked(r.states[k], x) && LedOk(r.states[k].events, x.core.reigns)
  {
    hide Inv, Mirrors, Enabled, Next, AllBacked, LedOk, Initial, Follows, Stamped, Prompt, BuiltPromptly, Accepts;
    var xs := ShadowRun(r, k);
    OriginBacked(r.states[0], xs[0]);
    PromptBacked(r, xs, k);
    x := xs[k];
  }

  /** State-machine safety: nothing is ever applied as two different things at one index,
      at one node or two, in one incarnation or several. */
  lemma StateMachineSafety(r: Run, k: nat, a: Event, b: Event)
    requires IsPromptRun(r) && k < |r.states| && a in r.states[k].events && b in r.states[k].events
    requires a.Applied? && b.Applied? && a.index == b.index
    ensures a.term == b.term && a.command == b.command
  {
    hide IsRun, Inv, LedOk;
    var x := BackedAt(r, k);
    assert EventBacked(a, x.core) && EventBacked(b, x.core);
    var t: nat, m: nat :| AppliedFrom(a, x.core, t, m);
    var u: nat, l: nat :| AppliedFrom(b, x.core, u, l);
    ChosenAgree(x.core, t, m, u, l, a.index - 1);
  }

  /** The commit mark never runs past the log. */
  lemma CommitWithinLog(r: Run, k: nat, n: Name)
    requires IsPromptRun(r) && k < |r.states| && n in r.states[k].peers
    ensures r.states[k].peers[n].commitIndex <= |r.states[k].peers[n].log|
  {
    hide IsRun, Inv, LedOk;
    var x := BackedAt(r, k);
    assert PeerBacked(r.states[k].peers[n], x.core);
  }

  /** Leader completeness as the event log shows it: an entry applied by a node in term T is in
      the log of every leader of a term above T, whichever event came first. */
  lemma AppliedReachesLeaders(r: Run, k: nat, a: Event, e: Event)
    requires IsPromptRun(r) && k < |r.states| && a in r.states[k].events && e in r.states[k].events
    requires a.Applied? && e.Led? && e.term > a.nodeTerm
    ensures 0 < a.index <= |e.log| && e.log[a.index - 1] == Entry(a.term, a.command)
  {
    hide IsRun, Inv;
    var x := BackedAt(r, k);
    assert EventBacked(a, x.core);
    var t: nat, m: nat :| AppliedFrom(a, x.core, t, m);
    assert LedBy(e, x.core.reigns);
    ChosenSurvives(x.core, t, m, e.term);
    assert x.core.reigns[t].log[a.index - 1] == x.core.reigns[t].log[..m][a.index - 1];
  }
}
