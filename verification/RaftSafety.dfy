/** The safety claims that hold of every run, deposed leaders' late sends included. */
module RaftSafety {
  import opened Helpers
  import opened RaftLog
  import opened RaftCore
  import opened RaftActions
  import opened RaftPeer
  import opened RaftCluster
  import opened RaftShadow
  import opened RaftSim
  import opened RaftReplicate

  /** A push is remembered as prompt exactly when it is. */
  ghost predicate Stamped(c: Cluster, s: Step, y: Shadow) {
    s.Push? && |c.calls| < |y.sent| ==>
      y.sent[|c.calls|].Some? && (y.sent[|c.calls|].value.prompt <==> Prompt(c, s))
  }

  /** One step, whatever it is. */
  lemma StepSim(c: Cluster, x: Shadow, s: Step) returns (y: Shadow)
    requires Sim(c, x) && Enabled(c, s)
    ensures Sim(Next(c, s), y) && Follows(x, y)
    ensures Stamped(c, s, y)
    ensures s.Win? ==> Opens(c, x, y, s.n)
  {
    hide Sim, Enabled, Next, Grows;
    match s {
      case Timeout(n) => y := TimeoutSim(c, x, n);
      case Solicit(n, peer) => y := SolicitStep(c, x, n, peer);
      case HandleVote(call) => y := HandleVoteSim(c, x, call);
      case CountVote(n, peer) => y := CountVoteSim(c, x, n, peer);
      case Win(n) => y := WinStep(c, x, n);
      case Push(n, peer) => y := PushStep(c, x, n, peer);
      case HandleAppend(call) => y := HandleAppendSim(c, x, call);
      case PushReply(n, peer) => y := PushReplyStep(c, x, n, peer);
      case PushTimeout(n, peer) => y := PushTimeoutStep(c, x, n, peer);
      case StopPushing(n) => y := StopPushingSim(c, x, n);
      case Propose(n, command) => y := ProposeStep(c, x, n, command);
      case Crash(n) => y := CrashSim(c, x, n);
      case Restart(n) => y := RestartStep(c, x, n);
    }
  }

  lemma SolicitStep(c: Cluster, x: Shadow, n: Name, peer: Name) returns (y: Shadow)
    requires Sim(c, x) && Enabled(c, Solicit(n, peer))
    ensures Sim(Next(c, Solicit(n, peer)), y) && Follows(x, y) && y.sent == x.sent + [None]
  {
    hide Inv, Mirrors, Enabled, Next;
    SolicitMirrors(c, x, n, peer);
    y := x.(sent := x.sent + [None]);
  }

  lemma WinStep(c: Cluster, x: Shadow, n: Name) returns (y: Shadow)
    requires Sim(c, x) && Enabled(c, Win(n))
    ensures Sim(Next(c, Win(n)), y) && Follows(x, y) && y.sent == x.sent && Opens(c, x, y, n)
  {
    y := WinSim(c, x, n);
    assert PeerOk(n, c.peers[n], c.calls, x);
  }

  lemma RestartStep(c: Cluster, x: Shadow, n: Name) returns (y: Shadow)
    requires Sim(c, x) && Enabled(c, Restart(n))
    ensures Sim(Next(c, Restart(n)), y) && Follows(x, y) && y.sent == x.sent
  {
    hide Inv, PeersOk, CallsOk;
    y := x;
  }

  /** A win opens a reign no other win has opened, on a majority of distinct votes. */
  ghost predicate Opens(c: Cluster, x: Shadow, y: Shadow, n: Name) {
    && n in c.peers && n in x.counted && n in x.core.members
    && c.peers[n].term !in x.core.reigns && y.core == Victory(x.core, n, x.counted[n])
  }

  lemma PushStep(c: Cluster, x: Shadow, n: Name, peer: Name) returns (y: Shadow)
    requires Sim(c, x) && Enabled(c, Push(n, peer))
    ensures Sim(Next(c, Push(n, peer)), y) && Follows(x, y)
    ensures Stamped(c, Push(n, peer), y)
  {
    hide Inv, Mirrors, Next, SentBy, Prompt, Grows, VotesNow;
    CallsCounted(c, x);
    FollowsSame(x);
    if c.peers[n].nextIndex[peer] > |c.peers[n].log| + 1 {
      y := x;
      PushDies(c, x, n, peer);
    } else {
      y := PushSends(c, x, n, peer);
      PushStamped(c, x, n, peer);
    }
  }

  lemma CallsCounted(c: Cluster, x: Shadow)
    requires Sim(c, x)
    ensures |c.calls| == |x.sent|
  {
    hide Inv, PeersOk, CallsOk;
  }

  lemma FollowsSame(x: Shadow)
    ensures Follows(x, x)
  {
  }

  lemma PushStamped(c: Cluster, x: Shadow, n: Name, peer: Name)
    requires n in c.peers && n in x.core.members && x.core.members[n] == MemberOf(c.peers[n]) && c.peers[n].pushTerm.Some?
    ensures SentBy(x.core, n).prompt <==> Prompt(c, Push(n, peer))
  {
  }

  lemma PushReplyStep(c: Cluster, x: Shadow, n: Name, peer: Name) returns (y: Shadow)
    requires Sim(c, x) && Enabled(c, PushReply(n, peer))
    ensures Sim(Next(c, PushReply(n, peer)), y) && Follows(x, y) && y.sent == x.sent
  {
    var p := c.peers[n];
    var k := c.calls[p.pushers[peer].call];
    ReplyGoes(p, peer, k.request, k.reply);
    y := ReplyStep(c, x, n, peer, k.reply, OnAppendReply(p, peer, k.request, k.reply).0, Next(c, PushReply(n, peer)));
  }

  lemma PushTimeoutStep(c: Cluster, x: Shadow, n: Name, peer: Name) returns (y: Shadow)
    requires Sim(c, x) && Enabled(c, PushTimeout(n, peer))
    ensures Sim(Next(c, PushTimeout(n, peer)), y) && Follows(x, y) && y.sent == x.sent
  {
    var p := c.peers[n];
    var k := c.calls[p.pushers[peer].call];
    ReplyGoes(p, peer, k.request, None);
    y := ReplyStep(c, x, n, peer, None, OnAppendReply(p, peer, k.request, None).0, Next(c, PushTimeout(n, peer)));
  }

  lemma ReplyStep(c: Cluster, x: Shadow, n: Name, peer: Name, reply: Option<Reply>, q: Peer, d: Cluster)
    returns (y: Shadow)
    requires Sim(c, x) && Waiting(c, n, peer)
    requires var k := c.calls[c.peers[n].pushers[peer].call];
      (reply.None? || reply == k.reply) && ReplyOutcome(c.peers[n], peer, k.request, reply, q)
    requires d.peers == c.peers[n := q] && d.calls == c.calls
    ensures Sim(d, y) && Follows(x, y) && y.sent == x.sent
  {
    hide Inv, Mirrors;
    if reply.Some? && reply.value.term > c.peers[n].term {
      y := ReplyDeposes(c, x, n, q, d);
    } else {
      MemberAt(c, x, n);
      y := x;
      ReplyMirrors(c, x, n, peer, reply, q, d);
    }
  }

  lemma ProposeStep(c: Cluster, x: Shadow, n: Name, command: string) returns (y: Shadow)
    requires Sim(c, x) && Enabled(c, Propose(n, command))
    ensures Sim(Next(c, Propose(n, command)), y) && Follows(x, y) && y.sent == x.sent
  {
    hide Inv, Mirrors;
    if c.peers[n].role == Leader && command != "" {
      y := ProposeSim(c, x, n, command);
    } else {
      y := x;
      assert Next(c, Propose(n, command)) == c;
    }
  }

  // ------------------------------------------------------------------
  // Where a run starts
  // ------------------------------------------------------------------

  function Origin(c: Cluster): Shadow {
    Shadow(Core(map n | n in c.peers :: Member(0, [], false, false, None), map[], map[], {}, {}), [],
           map n | n in c.peers :: {})
  }

  lemma OriginOk(c: Cluster)
    requires Initial(c)
    ensures Sim(c, Origin(c)) && LedOk(c.events, Origin(c).core.reigns)
  {
    hide Inv, PeerOk;
    var x := Origin(c);
    assert x.core.members.Keys == c.peers.Keys;
    OriginInv(c);
    forall n | n in c.peers ensures PeerOk(n, c.peers[n], c.calls, x) {
      OriginPeer(c, n);
    }
  }

  lemma OriginInv(c: Cluster)
    requires Initial(c)
    ensures Inv(Origin(c).core)
  {
  }

  lemma OriginPeer(c: Cluster, n: Name)
    requires Initial(c) && n in c.peers
    ensures PeerOk(n, c.peers[n], c.calls, Origin(c))
  {
    var x := Origin(c);
    assert x.core.members.Keys == c.peers.Keys;
    assert c.peers[n] == Booted(n, c.peers[n].peers, 0, None, []);
  }

  // ------------------------------------------------------------------
  // Election safety
  // ------------------------------------------------------------------

  /** Each leader event names the reign it opened, and no term is opened twice. */
  ghost predicate LedOk(events: seq<Event>, reigns: Reigns) {
    && (forall i :: 0 <= i < |events| && events[i].Led? ==> LedBy(events[i], reigns))
    && (forall i, j :: 0 <= i < j < |events| && events[i].Led? && events[j].Led? ==>
         events[i].term != events[j].term)
  }

  ghost predicate LedBy(e: Event, reigns: Reigns)
    requires e.Led?
  {
    && e.term in reigns && reigns[e.term].leader == e.name
    && e.log == reigns[e.term].start + [Entry(e.term, "")]
  }

  lemma {:induction false} OnlyApplies(p: Peer, lo: nat, hi: nat)
    ensures forall e :: e in EventsBetween(p, lo, hi) ==> AppliesEntry(e, p, lo, hi)
    decreases hi - lo
  {
    if !(lo >= hi || lo >= |p.log|) {
      OnlyApplies(p, lo + 1, hi);
    }
  }

  /** An apply event names an entry of the applier's log at its own index. */
  ghost predicate AppliesEntry(e: Event, p: Peer, lo: nat, hi: nat) {
    && e.Applied? && e.name == p.name && e.nodeTerm == p.term
    && lo < e.index <= hi && e.index <= |p.log| && p.log[e.index - 1] == Entry(e.term, e.command)
    && e.command != ""
  }

  /** A step records a win, or some applies at one peer, or nothing. */
  ghost predicate AppliesOnly(events: seq<Event>) {
    forall e :: e in events ==> e.Applied?
  }

  ghost predicate AppliesFrom(events: seq<Event>, k: nat) {
    forall i :: k <= i < |events| ==> events[i].Applied?
  }

  function WinEvent(c: Cluster, n: Name): Event
    requires n in c.peers
  {
    Led(n, c.peers[n].term, c.peers[n].log + [Entry(c.peers[n].term, "")])
  }

  lemma StepEvents(c: Cluster, s: Step)
    requires Enabled(c, s)
    ensures s.Win? ==> Next(c, s).events == c.events + [WinEvent(c, s.n)]
    ensures !s.Win? ==> c.events <= Next(c, s).events && AppliesFrom(Next(c, s).events, |c.events|)
  {
    match s {
      case HandleAppend(call) =>
        var k := c.calls[call];
        AppendApplies(c.peers[k.callee], k.request);
      case PushReply(n, peer) =>
        var k := c.calls[c.peers[n].pushers[peer].call];
        ReplyApplies(c.peers[n], peer, k.request, k.reply);
      case _ =>
    }
  }

  lemma AppendApplies(p: Peer, m: Request)
    requires m.AppendEntries?
    ensures AppliesOnly(OnAppendEntries(p, m).2)
  {
    var q := CatchUp(p, m.term);
    var r := if q.role == Candidate then q.(role := Follower) else q;
    if m.term >= q.term && Matches(r.log, m.prev, m.prevTerm) && m.commit > r.commitIndex {
      var s := r.(log := Merge(r.log, m.prev, m.entries));
      var c := s.(commitIndex := Max(s.commitIndex, Min(m.commit, m.prev + |m.entries|)));
      OnlyApplies(c, c.appliedIndex, ApplyLimit(c));
    }
  }

  lemma ReplyApplies(p: Peer, from: Name, m: Request, reply: Option<Reply>)
    requires m.AppendEntries? && p.pushTerm.Some? && from in p.nextIndex
    requires reply.Some? ==> reply.value.Appended?
    ensures AppliesOnly(OnAppendReply(p, from, m, reply).1)
  {
    if reply.Some? && reply.value.ok {
      var held := m.prev + |m.entries|;
      var o := p.(pushers := p.pushers[from := Idle], matchIndex := p.matchIndex[from := held],
                  nextIndex := p.nextIndex[from := held + 1]);
      var c := o.(commitIndex := Scan(o, p.pushTerm.value, |o.log|));
      OnlyApplies(c, c.appliedIndex, ApplyLimit(c));
    }
  }

  lemma LedStays(c: Cluster, x: Shadow, s: Step, y: Shadow)
    requires Enabled(c, s) && LedOk(c.events, x.core.reigns) && Grows(x.core, y.core)
    requires s.Win? ==> Opens(c, x, y, s.n) && x.core.members[s.n] == MemberOf(c.peers[s.n])
    ensures LedOk(Next(c, s).events, y.core.reigns)
  {
    StepEvents(c, s);
    var d := Next(c, s).events;
    forall i | 0 <= i < |d| && d[i].Led? ensures LedBy(d[i], y.core.reigns) {
      if i < |c.events| {
        assert d[i] == c.events[i] && LedBy(c.events[i], x.core.reigns);
        assert ReignGrows(x.core.reigns[d[i].term], y.core.reigns[d[i].term]);
      }
    }
    forall i, j | 0 <= i < j < |d| && d[i].Led? && d[j].Led? ensures d[i].term != d[j].term {
      assert i < |c.events| ==> d[i] == c.events[i] && LedBy(c.events[i], x.core.reigns);
      if j < |c.events| {
        assert d[j] == c.events[j];
      }
    }
  }

  // ------------------------------------------------------------------
  // Along a run
  // ------------------------------------------------------------------

  ghost predicate Shadowed(r: Run, xs: seq<Shadow>, k: nat) {
    && k < |r.states| && |xs| == k + 1
    && (forall i :: 0 <= i <= k ==> Sim(r.states[i], xs[i]) && LedOk(r.states[i].events, xs[i].core.reigns))
    && (forall i :: 0 <= i < k ==> Follows(xs[i], xs[i + 1]))
    && (forall i :: 0 <= i < k && i < |r.steps| ==> Stamped(r.states[i], r.steps[i], xs[i + 1]))
  }

  lemma {:induction false} ShadowRun(r: Run, k: nat) returns (xs: seq<Shadow>)
    requires IsRun(r) && k < |r.states|
    ensures Shadowed(r, xs, k)
  {
    hide Sim, LedOk, Follows, Next, Enabled, Stamped, Initial, Prompt;
    if k == 0 {
      OriginOk(r.states[0]);
      xs := [Origin(r.states[0])];
    } else {
      xs := ShadowRun(r, k - 1);
      var c, s := r.states[k - 1], r.steps[k - 1];
      assert Sim(c, xs[k - 1]) && LedOk(c.events, xs[k - 1].core.reigns) && Enabled(c, s) && r.states[k] == Next(c, s);
      var y := ShadowStep(c, xs[k - 1], s);
      ShadowMore(r, xs, k, y);
      xs := xs + [y];
    }
  }

  lemma ShadowMore(r: Run, xs: seq<Shadow>, k: nat, y: Shadow)
    requires 0 < k < |r.states| && k <= |r.steps| && Shadowed(r, xs, k - 1)
    requires Sim(r.states[k], y) && LedOk(r.states[k].events, y.core.reigns)
    requires Follows(xs[k - 1], y) && Stamped(r.states[k - 1], r.steps[k - 1], y)
    ensures Shadowed(r, xs + [y], k)
  {
    hide Sim, LedOk, Follows, Stamped;
    var zs := xs + [y];
    forall i | 0 <= i < k ensures Follows(zs[i], zs[i + 1]) && Stamped(r.states[i], r.steps[i], zs[i + 1]) {
      if i < k - 1 {
        assert zs[i] == xs[i] && zs[i + 1] == xs[i + 1];
      }
    }
  }

  lemma ShadowStep(c: Cluster, x: Shadow, s: Step) returns (y: Shadow)
    requires Sim(c, x) && Enabled(c, s) && LedOk(c.events, x.core.reigns)
    ensures Sim(Next(c, s), y) && Follows(x, y) && LedOk(Next(c, s).events, y.core.reigns)
    ensures Stamped(c, s, y)
  {
    y := StepSim(c, x, s);
    if s.Win? {
      MemberAt(c, x, s.n);
    }
    LedStays(c, x, s, y);
  }
}
