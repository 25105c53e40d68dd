/**
  Which single step does harm, for any run whatever: every commit mark and every
  mark on its way stays within what a majority has settled, until an append that a
  follower accepts conflicts with an entry below that follower's own mark.
*/
module RaftMarks {
  import opened Helpers
  import opened RaftLog
  import opened RaftCore
  import opened RaftActions
  import opened RaftPeer
  import opened RaftCluster
  import opened RaftShadow
  import opened RaftSim
  import opened RaftReplicate
  import opened RaftSafety
  import opened RaftCommit
  import opened RaftTheorems
  import opened RaftPrompt

  /** The first `upTo` entries of the log are part of something chosen, in whatever term. */
  ghost predicate Settled(core: Core, log: Log, upTo: nat) {
    upTo <= |log| && (upTo == 0 || exists t: nat, m: nat :: SettledBy(core, log, upTo, t, m))
  }

  ghost predicate SettledBy(core: Core, log: Log, upTo: nat, t: nat, m: nat)
    requires upTo <= |log|
  {
    Chosen(core, t, m) && upTo <= m && log[..upTo] == core.reigns[t].log[..upTo]
  }

  ghost predicate PeerSettled(p: Peer, core: Core) {
    Settled(core, p.log, p.commitIndex)
  }

  /** What an append carries up to its mark, late or not. */
  ghost predicate CallSettled(k: Call, s: Option<Sent>, core: Core) {
    k.request.AppendEntries? && s.Some? ==> Settled(core, s.value.log, Min(k.request.commit, |s.value.log|))
  }

  ghost predicate EventSettled(e: Event, core: Core) {
    e.Applied? ==> exists t: nat, m: nat :: AppliedIn(e, core, t, m)
  }

  ghost predicate AppliedIn(e: Event, core: Core, t: nat, m: nat)
    requires e.Applied?
  {
    Chosen(core, t, m) && 0 < e.index <= m && core.reigns[t].log[e.index - 1] == Entry(e.term, e.command)
  }

  ghost predicate AllSettled(c: Cluster, x: Shadow) {
    && (forall n :: n in c.peers ==> PeerSettled(c.peers[n], x.core))
    && (forall id :: 0 <= id < |c.calls| && id < |x.sent| ==> CallSettled(c.calls[id], x.sent[id], x.core))
    && (forall e :: e in c.events ==> EventSettled(e, x.core))
  }

  /** The append conflicts with an entry below the follower's commit mark. */
  predicate Conflicts(p: Peer, m: Request)
    requires m.AppendEntries?
  {
    exists i :: 0 <= i < |m.entries| && Differs(p.log, m.prev + i, p.commitIndex, m.entries[i])
  }

  predicate Differs(log: Log, at: nat, mark: nat, e: Entry) {
    at < mark && at < |log| && log[at].term != e.term
  }

  /** The step takes over an append that conflicts with what the follower has committed. */
  ghost predicate Cuts(c: Cluster, s: Step) {
    Accepts(c, s) && Conflicts(c.peers[c.calls[s.call].callee], c.calls[s.call].request)
  }

  ghost predicate CutsAt(c: Cluster, s: Step, n: Name) {
    Cuts(c, s) && c.calls[s.call].callee == n
  }

  // ------------------------------------------------------------------
  // The follower's loop
  // ------------------------------------------------------------------

  /** The loop leaves the first `upTo` entries alone exactly when nothing it brings conflicts with them. */
  lemma {:induction false} MergeKeeps(log: Log, at: nat, entries: seq<Entry>, upTo: nat)
    requires at <= |log| && upTo <= |log|
    ensures log[..upTo] <= Merge(log, at, entries) <==>
      forall i :: 0 <= i < |entries| ==> !Differs(log, at + i, upTo, entries[i])
    decreases |entries|
  {
    if entries != [] {
      var cut := if at < |log| && log[at].term != entries[0].term then log[..at] else log;
      var grown := if at >= |cut| then cut + [entries[0]] else cut;
      if at < upTo && log[at].term != entries[0].term {
        MergeKeeps(grown, at + 1, entries[1..], at + 1);
        assert Merge(log, at, entries)[at] == grown[..at + 1][at] == entries[0];
        assert Differs(log, at, upTo, entries[0]);
      } else {
        MergeKeeps(grown, at + 1, entries[1..], upTo);
        assert grown[..upTo] == log[..upTo];
        if at < upTo {
          assert forall i :: 0 <= i < |entries| - 1 ==> entries[1..][i] == entries[i + 1];
        }
      }
    }
  }

  /** With log matching, in terms of the sender's whole log. */
  lemma ConflictCuts(p: Peer, m: Request)
    requires m.AppendEntries? && Matches(p.log, m.prev, m.prevTerm) && p.commitIndex <= |p.log|
    ensures p.log[..p.commitIndex] <= Merge(p.log, m.prev, m.entries) <==> !Conflicts(p, m)
  {
    MergeKeeps(p.log, m.prev, m.entries, p.commitIndex);
  }

  // ------------------------------------------------------------------
  // What history's growth leaves in place
  // ------------------------------------------------------------------

  lemma SettledStays(g: Core, h: Core, log: Log, longer: Log, upTo: nat)
    requires Settled(g, log, upTo) && Grows(g, h)
    requires upTo <= |longer| && log[..upTo] == longer[..upTo]
    ensures Settled(h, longer, upTo)
  {
    if upTo > 0 {
      var t: nat, m: nat :| SettledBy(g, log, upTo, t, m);
      ChosenStays(g, h, t, m);
      assert h.reigns[t].log[..upTo] == h.reigns[t].log[..m][..upTo];
      assert g.reigns[t].log[..upTo] == g.reigns[t].log[..m][..upTo];
      assert SettledBy(h, longer, upTo, t, m);
    }
  }

  lemma StillSettled(g: Core, h: Core, log: Log, upTo: nat)
    requires Settled(g, log, upTo) && Grows(g, h)
    ensures Settled(h, log, upTo)
  {
    SettledStays(g, h, log, log, upTo);
  }

  /** Two settled prefixes agree wherever both reach. */
  lemma SettledAgree(core: Core, a: Log, b: Log, i: nat, j: nat)
    requires Inv(core) && Settled(core, a, i) && Settled(core, b, j) && i <= j
    ensures a[..i] == b[..i]
  {
    hide Inv;
    if i > 0 {
      var t: nat, m: nat :| SettledBy(core, a, i, t, m);
      var u: nat, l: nat :| SettledBy(core, b, j, u, l);
      forall k | 0 <= k < i ensures a[k] == b[k] {
        ChosenAgree(core, t, m, u, l, k);
        assert a[k] == a[..i][k] == core.reigns[t].log[k];
        assert b[k] == b[..j][k] == core.reigns[u].log[k];
      }
    }
  }

  lemma AppliedStays(g: Core, h: Core, e: Event)
    requires EventSettled(e, g) && Grows(g, h)
    ensures EventSettled(e, h)
  {
    if e.Applied? {
      var t: nat, m: nat :| AppliedIn(e, g, t, m);
      ChosenStays(g, h, t, m);
      assert g.reigns[t].log[e.index - 1] == g.reigns[t].log[..m][e.index - 1];
      assert h.reigns[t].log[e.index - 1] == h.reigns[t].log[..m][e.index - 1];
      assert AppliedIn(e, h, t, m);
    }
  }

  lemma AppliesSettled(core: Core, p: Peer)
    requires Settled(core, p.log, p.commitIndex)
    ensures forall e :: e in ApplyEvents(p) ==> EventSettled(e, core)
  {
    OnlyApplies(p, p.appliedIndex, ApplyLimit(p));
    forall e | e in ApplyEvents(p) ensures EventSettled(e, core) {
      assert AppliesEntry(e, p, p.appliedIndex, ApplyLimit(p));
      var t: nat, m: nat :| SettledBy(core, p.log, p.commitIndex, t, m);
      assert p.log[e.index - 1] == p.log[..p.commitIndex][e.index - 1];
      assert AppliedIn(e, core, t, m);
    }
  }

  /** All that was settled stays so as history grows. */
  lemma AllStay(c: Cluster, x: Shadow, y: Shadow)
    requires AllSettled(c, x) && Grows(x.core, y.core) && x.sent <= y.sent && |c.calls| == |x.sent|
    ensures AllSettled(c, y)
  {
    hide Grows, Settled;
    forall n | n in c.peers ensures PeerSettled(c.peers[n], y.core) {
      StillSettled(x.core, y.core, c.peers[n].log, c.peers[n].commitIndex);
    }
    forall id | 0 <= id < |c.calls| && id < |y.sent| ensures CallSettled(c.calls[id], y.sent[id], y.core) {
      assert CallSettled(c.calls[id], x.sent[id], x.core);
      if c.calls[id].request.AppendEntries? && y.sent[id].Some? {
        var log := y.sent[id].value.log;
        StillSettled(x.core, y.core, log, Min(c.calls[id].request.commit, |log|));
      }
    }
    forall e | e in c.events ensures EventSettled(e, y.core) {
      AppliedStays(x.core, y.core, e);
    }
  }

  // ------------------------------------------------------------------
  // The step that moves a follower's log and mark
  // ------------------------------------------------------------------

  /** An append that is taken leaves the mark on something settled exactly when it conflicts with
      nothing below the mark it finds. */
  lemma TakeExact(core: Core, p: Peer, m: Request, s: Log, o: Peer)
    requires Inv(core) && PeerSettled(p, core) && m.AppendEntries? && AppliesTo(p, m, o)
    requires Carries(m, s) && Settled(core, s, Min(m.commit, |s|)) && o.log == Adopted(p.log, s)
    ensures PeerSettled(o, core) <==> !Conflicts(p, m)
  {
    hide Inv, Settled, Merge, Matches, Conflicts;
    assert p.commitIndex <= |p.log| by { Reaches(core, p.log, p.commitIndex); }
    ConflictCuts(p, m);
    if PeerSettled(o, core) {
      Reaches(core, o.log, o.commitIndex);
      SettledAgree(core, p.log, o.log, p.commitIndex, o.commitIndex);
    }
    if !Conflicts(p, m) {
      assert Grows(core, core);
      if o.commitIndex == p.commitIndex {
        SettledStays(core, core, p.log, o.log, o.commitIndex);
      } else {
        SettledStays(core, core, s, o.log, o.commitIndex);
      }
    }
  }

  lemma Reaches(core: Core, log: Log, upTo: nat)
    requires Settled(core, log, upTo)
    ensures upTo <= |log|
  {
  }

  // ------------------------------------------------------------------
  // Every step
  // ------------------------------------------------------------------

  /** A follower handles an append, late or not. */
  lemma HandleExact(c: Cluster, x: Shadow, id: nat, y: Shadow)
    requires Sim(c, x) && Enabled(c, HandleAppend(id)) && Follows(x, y) && Inv(y.core) && AllSettled(c, y)
    ensures var k := c.calls[id];
      var (q, reply, events) := OnAppendEntries(c.peers[k.callee], k.request);
      && (PeerSettled(q, y.core) <==> !Cuts(c, HandleAppend(id)))
      && (!Cuts(c, HandleAppend(id)) ==> forall e :: e in events ==> EventSettled(e, y.core))
  {
    hide Sim, Inv, OnAppendEntries, Merge, Settled, EventSettled, Conflicts, Calm, Grows;
    var k := c.calls[id];
    var p := c.peers[k.callee];
    var o := AppendMarks(p, k.request);
    assert PeerSettled(p, y.core);
    if OnAppendEntries(p, k.request).1.ok {
      var s := AppendArrives(c, x, id);
      assert CallSettled(k, y.sent[id], y.core);
      TakeExact(y.core, p, k.request, s.log, o);
      if PeerSettled(o, y.core) {
        AppliesSettled(y.core, o);
      }
    } else {
      CalmSettled(p, OnAppendEntries(p, k.request).0, y.core);
    }
  }

  lemma CalmSettled(p: Peer, q: Peer, core: Core)
    requires PeerSettled(p, core) && Calm(p, q)
    ensures PeerSettled(q, core)
  {
    assert Grows(core, core);
    if q.commitIndex > 0 {
      SettledStays(core, core, p.log, q.log, q.commitIndex);
    }
  }

  /** A leader counts an acknowledgement, and may commit on the strength of it. */
  lemma ReplySettled(c: Cluster, s: Step, d: Cluster, y: Shadow)
    requires s.PushReply? && s.n in c.peers && s.n in d.peers
    requires Enabled(c, s) && d == Next(c, s) && Sim(d, y) && AllSettled(c, y)
    ensures PeerSettled(d.peers[s.n], y.core)
    ensures var k := c.calls[c.peers[s.n].pushers[s.peer].call];
      forall e :: e in OnAppendReply(c.peers[s.n], s.peer, k.request, k.reply).1 ==> EventSettled(e, y.core)
  {
    hide OnAppendReply, Sim, ApplyEvents, Chosen, EventSettled, Calm;
    var p := c.peers[s.n];
    var k := c.calls[p.pushers[s.peer].call];
    assert PeerSettled(p, y.core);
    var q := OnAppendReply(p, s.peer, k.request, k.reply).0;
    assert d.peers[s.n] == q;
    var o := ReplyMarks(p, s.peer, k.request, k.reply);
    if q.commitIndex > p.commitIndex {
      CommitIsChosen(c, s, d, y);
      assert SettledBy(y.core, q.log, q.commitIndex, q.term, q.commitIndex);
      AppliesSettled(y.core, o);
    } else {
      CalmSettled(p, q, y.core);
    }
  }

  lemma PeerAfter(c: Cluster, x: Shadow, s: Step, d: Cluster, y: Shadow, n: Name)
    requires Sim(c, x) && Enabled(c, s) && d == Next(c, s) && Sim(d, y) && Follows(x, y)
    requires AllSettled(c, y) && n in c.peers && n in d.peers
    ensures PeerSettled(d.peers[n], y.core) <==> !CutsAt(c, s, n)
  {
    hide Sim, Follows, OnAppendEntries, OnAppendReply, OnRequestVote, OnVoteReply, AppendRequest, Settled, Conflicts, Calm;
    assert PeerSettled(c.peers[n], y.core);
    if s.HandleAppend? && n == c.calls[s.call].callee {
      SimInv(d, y);
      HandleExact(c, x, s.call, y);
    } else if s.PushReply? && n == s.n {
      ReplySettled(c, s, d, y);
    } else if !s.HandleAppend? && !s.PushReply? {
      CalmStep(c, s, n);
      CalmSettled(c.peers[n], d.peers[n], y.core);
    }
  }

  lemma SimInv(d: Cluster, y: Shadow)
    requires Sim(d, y)
    ensures Inv(y.core)
  {
  }

  lemma CallAfter(c: Cluster, s: Step, d: Cluster, y: Shadow, id: nat)
    requires Enabled(c, s) && d == Next(c, s) && Sim(d, y) && AllSettled(c, y) && id < |d.calls| && id < |y.sent|
    ensures CallSettled(d.calls[id], y.sent[id], y.core)
  {
    hide Inv, PeersOk, CallsOk, Next, Enabled, Settled;
    CallsAfter(c, s);
    if id < |c.calls| {
      assert CallSettled(c.calls[id], y.sent[id], y.core);
    } else if d.calls[id].request.AppendEntries? {
      var p := c.peers[s.n];
      var l := PushedLog(d, y, id, s.n, p.log);
      assert PeerSettled(p, y.core);
      Reaches(y.core, p.log, p.commitIndex);
    }
  }

  lemma EventAfter(c: Cluster, x: Shadow, s: Step, d: Cluster, y: Shadow, e: Event)
    requires Sim(c, x) && Enabled(c, s) && d == Next(c, s) && Sim(d, y) && Follows(x, y)
    requires AllSettled(c, y) && !Cuts(c, s) && e in d.events
    ensures EventSettled(e, y.core)
  {
    hide Sim, Follows, OnAppendEntries, OnAppendReply, OnRequestVote, OnVoteReply, AppendRequest, AppliedIn, Settled, Conflicts;
    if e in c.events {
    } else if s.HandleAppend? {
      SimInv(d, y);
      HandleExact(c, x, s.call, y);
    } else if s.PushReply? {
      StepPeers(c, s);
      ReplySettled(c, s, d, y);
    }
  }

  /** One step, whatever it is, leaves every commit mark, every mark on its way and everything ever
      applied within what is settled exactly when it is not an accepted append that conflicts with
      something the follower has committed. */
  lemma StepExact(c: Cluster, x: Shadow, s: Step, d: Cluster, y: Shadow)
    requires Sim(c, x) && Enabled(c, s) && d == Next(c, s) && Sim(d, y) && Follows(x, y) && AllSettled(c, x)
    ensures AllSettled(d, y) <==> !Cuts(c, s)
  {
    hide Inv, PeersOk, CallsOk, Enabled, Next, Grows, PeerSettled, CallSettled, EventSettled, Conflicts, Accepts;
    AllStay(c, x, y);
    StepPeers(c, s);
    if Cuts(c, s) {
      CutsHere(c, s);
      PeerAfter(c, x, s, d, y, c.calls[s.call].callee);
    } else {
      forall n | n in d.peers ensures PeerSettled(d.peers[n], y.core) {
        PeerAfter(c, x, s, d, y, n);
      }
      forall id | 0 <= id < |d.calls| && id < |y.sent| ensures CallSettled(d.calls[id], y.sent[id], y.core) {
        CallAfter(c, s, d, y, id);
      }
      forall e | e in d.events ensures EventSettled(e, y.core) {
        EventAfter(c, x, s, d, y, e);
      }
    }
  }

  lemma CutsHere(c: Cluster, s: Step)
    requires Cuts(c, s)
    ensures s.HandleAppend? && s.call < |c.calls| && c.calls[s.call].callee in c.peers
  {
    hide Conflicts, OnAppendEntries;
  }

  // ------------------------------------------------------------------
  // Runs
  // ------------------------------------------------------------------

  /** No append that is accepted conflicts with what its follower has committed. */
  ghost predicate NothingCut(r: Run, k: nat)
    requires k <= |r.steps| && |r.states| == |r.steps| + 1
  {
    forall i :: 0 <= i < k ==> !Cuts(r.states[i], r.steps[i])
  }

  lemma StartSettled(c: Cluster, x: Shadow)
    requires Initial(c)
    ensures AllSettled(c, x)
  {
    forall n | n in c.peers ensures PeerSettled(c.peers[n], x.core) {
      assert c.peers[n] == Booted(n, c.peers[n].peers, 0, None, []);
    }
  }

  /** Along any run, everything is settled at every state up to the k-th exactly if nothing was cut
      on the way there. */
  lemma {:induction false} RunExact(r: Run, xs: seq<Shadow>, k: nat)
    requires IsRun(r) && k < |r.states| && Shadowed(r, xs, |r.steps|)
    ensures (forall j :: 0 <= j <= k ==> AllSettled(r.states[j], xs[j])) <==> NothingCut(r, k)
  {
    hide Sim, Enabled, Next, AllSettled, LedOk, Initial, Follows, Stamped, Cuts;
    if k == 0 {
      StartSettled(r.states[0], xs[0]);
    } else {
      RunExact(r, xs, k - 1);
      if NothingCut(r, k - 1) {
        StepExact(r.states[k - 1], xs[k - 1], r.steps[k - 1], r.states[k], xs[k]);
      }
    }
  }

  /** Nothing is ever applied as two different things at one index, as long as no accepted append
      conflicts with what its follower has committed. */
  lemma UncutSafety(r: Run, k: nat, a: Event, b: Event)
    requires IsRun(r) && k < |r.states| && NothingCut(r, k)
    requires a in r.states[k].events && b in r.states[k].events && a.Applied? && b.Applied? && a.index == b.index
    ensures a.term == b.term && a.command == b.command
  {
    assert |r.states| == |r.steps| + 1;
    hide IsRun, Inv, LedOk, Mirrors, Follows, Stamped, NothingCut, AllSettled;
    var xs := ShadowRun(r, |r.steps|);
    RunExact(r, xs, k);
    assert AllSettled(r.states[k], xs[k]);
    AppliedAgree(r.states[k], xs[k], a, b);
  }

  lemma AppliedAgree(c: Cluster, x: Shadow, a: Event, b: Event)
    requires Inv(x.core) && AllSettled(c, x) && a in c.events && b in c.events
    requires a.Applied? && b.Applied? && a.index == b.index
    ensures a.term == b.term && a.command == b.command
  {
    hide Inv, Settled;
    assert EventSettled(a, x.core) && EventSettled(b, x.core);
    var t: nat, m: nat :| AppliedIn(a, x.core, t, m);
    var u: nat, l: nat :| AppliedIn(b, x.core, u, l);
    ChosenAgree(x.core, t, m, u, l, a.index - 1);
  }

  /** Appends built while their sender leads never cut, so a prompt run is an uncut one. */
  lemma PromptNeverCuts(r: Run)
    requires IsPromptRun(r)
    ensures NothingCut(r, |r.steps|)
  {
    hide Sim, Enabled, Next, AllBacked, LedOk, Initial, Follows, Stamped, Prompt, BuiltPromptly, Accepts;
    var xs := ShadowRun(r, |r.steps|);
    OriginBacked(r.states[0], xs[0]);
    forall i | 0 <= i < |r.steps| ensures !Cuts(r.states[i], r.steps[i]) {
      PromptBacked(r, xs, i);
      StepTakesPrompt(r, xs, i);
      PromptKeeps(r.states[i], xs[i], r.steps[i]);
    }
  }

  lemma PromptKeeps(c: Cluster, x: Shadow, s: Step)
    requires Sim(c, x) && Enabled(c, s) && AllBacked(c, x) && TakesPrompt(c, x, s)
    ensures !Cuts(c, s)
  {
    hide Sim, Inv, Backed, OnAppendEntries, Merge, CallBacked, EventBacked, Conflicts;
    if Accepts(c, s) {
      var k := c.calls[s.call];
      var p := c.peers[k.callee];
      var o := AppendMarks(p, k.request);
      var sent := AppendArrives(c, x, s.call);
      assert PeerBacked(p, x.core);
      AdoptKeepsBacked(x.core, p.log, sent, p.commitIndex, p.term);
      BackedReaches(x.core, p.log, p.commitIndex, p.term);
      ConflictCuts(p, k.request);
    }
  }

  lemma BackedReaches(core: Core, log: Log, upTo: nat, bound: nat)
    requires Backed(core, log, upTo, bound)
    ensures upTo <= |log|
  {
  }
}
