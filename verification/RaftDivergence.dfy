/**
  Why state-machine safety needs appends to be built while their sender leads:
  a run of seven peers in which two of them apply different commands at one index.

  `a` leads term 1, `b` leads term 2 and `c` leads term 3 and commits `x`.  An
  append of `b`'s, carrying `y`, is still on its way to `a` when `c` deposes `b`;
  b's pusher then sends `a` what `b` has learnt from `c`, still under term 2.  `a`
  takes the newer append first and the older one after it, which leaves it with
  y in its log and a commit mark that vouches for x.  a's own pusher, never
  cancelled, passes both on to `g`.
*/
module RaftDivergence {
  import opened Helpers
  import opened RaftLog
  import opened RaftPeer
  import opened RaftCluster
  import opened RaftCommit
  import opened RaftReplicate
  import opened RaftPrompt

  ghost predicate Reachable(c: Cluster) {
    exists r :: Reaches(r, c)
  }

  ghost predicate Reaches(r: Run, c: Cluster) {
    IsRun(r) && r.states[|r.steps|] == c
  }

  lemma Walk(c: Cluster, s: Step) returns (d: Cluster)
    requires Reachable(c) && Enabled(c, s)
    ensures d == Next(c, s) && Reachable(d)
  {
    hide Enabled, Next;
    d := Next(c, s);
    var r :| Reaches(r, c);
    var q := Run(r.states + [d], r.steps + [s]);
    forall i | 0 <= i < |q.steps|
      ensures Enabled(q.states[i], q.steps[i]) && q.states[i + 1] == Next(q.states[i], q.steps[i])
    {
      if i < |r.steps| {
        assert Enabled(r.states[i], r.steps[i]) && r.states[i + 1] == Next(r.states[i], r.steps[i]);
      }
    }
    assert Reaches(q, d);
  }

  // ------------------------------------------------------------------
  // The start
  // ------------------------------------------------------------------

  ghost predicate Distinct(names: seq<Name>) {
    forall i, j :: 0 <= i < j < |names| ==> names[i] != names[j]
  }

  function Others(names: seq<Name>, n: Name): seq<Name> {
    if names == [] then []
    else (if names[0] != n then [names[0]] else []) + Others(names[1..], n)
  }

  lemma {:induction false} OthersAre(names: seq<Name>, n: Name)
    requires Distinct(names)
    ensures forall q :: q in Others(names, n) <==> q in names && q != n
    ensures Distinct(Others(names, n))
    ensures |Others(names, n)| == |names| - if n in names then 1 else 0
  {
    if names != [] {
      OthersAre(names[1..], n);
      assert names[0] !in names[1..];
      assert forall q :: q in names <==> q == names[0] || q in names[1..];
    }
  }

  function Fresh(names: seq<Name>): Cluster {
    Cluster(map n | n in names :: Booted(n, Others(names, n), 0, None, []), set n | n in names, [], [])
  }

  lemma FreshReachable(names: seq<Name>)
    requires Distinct(names)
    ensures Reachable(Fresh(names))
    ensures forall n :: n in names ==> |Others(names, n)| == |names| - 1
    ensures forall n, q :: n in names && q in names && q != n ==> q in Others(names, n)
    ensures forall n :: n in names ==> Distinct(Others(names, n))
  {
    var c := Fresh(names);
    forall n | n in names
      ensures Neighbours(c.peers.Keys, n, Others(names, n)) && |Others(names, n)| == |names| - 1
      ensures forall q :: q in names && q != n ==> q in Others(names, n)
      ensures Distinct(Others(names, n))
    {
      OthersAre(names, n);
    }
    assert Reaches(Run([c], []), c);
  }

  // ------------------------------------------------------------------
  // Elections
  // ------------------------------------------------------------------

  /** A peer that has just voted for `n` in a term new to it. */
  function Voter(q: Peer, t: nat, n: Name): Peer {
    q.(term := t, votedFor := Some(n), role := Follower)
  }

  function Asked(p: Peer, v: Name): Peer {
    p.(solicitors := p.solicitors - {v}, granted := p.granted + 1,
       settled := p.settled || p.granted + 1 >= QuorumOf(p))
  }

  ghost predicate CanAsk(c: Cluster, n: Name, v: Name) {
    && Running(c, n) && Running(c, v) && n != v
    && var p, q := c.peers[n], c.peers[v];
    && p.role == Candidate && p.term == p.campaign && p.name == n && p.log == []
    && v in p.solicitors && p.solicitors[v] == Unsent
    && q.term < p.term && q.log == []
  }

  lemma Ask(c: Cluster, n: Name, v: Name) returns (d: Cluster)
    requires Reachable(c) && CanAsk(c, n, v)
    ensures Reachable(d) && d.up == c.up && d.events == c.events && c.calls <= d.calls
    ensures d.peers == c.peers[n := Asked(c.peers[n], v)][v := Voter(c.peers[v], c.peers[n].term, n)]
  {
    var p, q, k := c.peers[n], c.peers[v], |c.calls|;
    var c1 := Walk(c, Solicit(n, v));
    var c2 := Walk(c1, HandleVote(k));
    assert c2.peers[v] == Voter(q, p.term, n);
    assert c2.calls[k].reply == Some(Voted(p.term, true));
    d := Walk(c2, CountVote(n, v));
    assert d.peers[n] == Asked(p, v);
  }

  /** What a won election leaves of a peer that stood with an empty log. */
  ghost predicate Leads(p: Peer, q: Peer) {
    && q.name == p.name && q.peers == p.peers
    && q.term == p.term + 1 && q.role == Leader && q.log == [Entry(q.term, "")]
    && q.pushTerm == Some(q.term) && q.pushers == Each(p.peers, Idle)
    && q.nextIndex == Each<Index>(p.peers, 1) && q.matchIndex == Each<nat>(p.peers, 0)
    && q.commitIndex == p.commitIndex && q.appliedIndex == p.appliedIndex
  }

  ghost predicate CanElect(c: Cluster, n: Name, v: Name, w: Name, z: Name) {
    && Running(c, n) && c.peers[n].role != Leader && c.peers[n].pushTerm == None
    && c.peers[n].name == n && c.peers[n].log == [] && |c.peers[n].peers| == 6
    && n !in [v, w, z] && v != w && v != z && w != z
    && (forall q :: q in [v, w, z] ==>
         Running(c, q) && q in c.peers[n].peers && c.peers[q].log == [] && c.peers[q].term <= c.peers[n].term)
  }

  lemma Elect(c: Cluster, n: Name, v: Name, w: Name, z: Name) returns (d: Cluster)
    requires Reachable(c) && CanElect(c, n, v, w, z)
    ensures Reachable(d) && d.up == c.up && c.calls <= d.calls && c.events <= d.events
    ensures d.peers.Keys == c.peers.Keys && Leads(c.peers[n], d.peers[n])
    ensures forall q :: q in [v, w, z] ==> d.peers[q] == Voter(c.peers[q], d.peers[n].term, n)
    ensures forall q :: q in c.peers && q !in [n, v, w, z] ==> d.peers[q] == c.peers[q]
  {
    hide Campaign, BecomeLeader, Reachable, Leads, Asked, CanAsk;
    var c0 := Stand(c, n);
    MayAsk(c, n, v, w, z, v);
    MayAsk(c, n, v, w, z, w);
    MayAsk(c, n, v, w, z, z);
    StandsTall(c.peers[n]);
    var c3 := AskThree(c0, n, v, w, z);
    CrownLeads(c.peers[n], v, w, z);
    d := Crown(c3, n);
  }

  lemma MayAsk(c: Cluster, n: Name, v: Name, w: Name, z: Name, u: Name)
    requires CanElect(c, n, v, w, z) && u in [v, w, z]
    ensures CanAsk(Put(c, n, Campaign(c.peers[n])), n, u)
  {
    hide Campaign;
    StandsTall(c.peers[n]);
  }

  lemma AskThree(c: Cluster, n: Name, v: Name, w: Name, z: Name) returns (d: Cluster)
    requires Reachable(c) && CanAsk(c, n, v) && CanAsk(c, n, w) && CanAsk(c, n, z)
    requires v != w && v != z && w != z
    ensures Reachable(d) && d.up == c.up && d.events == c.events && c.calls <= d.calls
    ensures d.peers.Keys == c.peers.Keys && d.peers[n] == Asked(Asked(Asked(c.peers[n], v), w), z)
    ensures forall q :: q in [v, w, z] ==> d.peers[q] == Voter(c.peers[q], c.peers[n].term, n)
    ensures forall q :: q in c.peers && q !in [n, v, w, z] ==> d.peers[q] == c.peers[q]
    ensures d.peers[n].term == d.peers[n].campaign && d.peers[n].role == Candidate
  {
    hide Reachable;
    var c1 := Ask(c, n, v);
    var c2 := Ask(c1, n, w);
    d := Ask(c2, n, z);
  }

  lemma Stand(c: Cluster, n: Name) returns (d: Cluster)
    requires Reachable(c) && Running(c, n) && c.peers[n].role != Leader && c.peers[n].pushTerm == None
    ensures Reachable(d) && d == Put(c, n, Campaign(c.peers[n]))
  {
    d := Walk(c, Timeout(n));
  }

  lemma StandsTall(p: Peer)
    ensures var q := Campaign(p);
      && q.role == Candidate && q.term == q.campaign == p.term + 1 && q.name == p.name && q.log == p.log
      && forall v :: v in p.peers ==> v in q.solicitors && q.solicitors[v] == Unsent
  {
  }

  lemma Crown(c: Cluster, n: Name) returns (d: Cluster)
    requires Reachable(c) && Running(c, n) && c.peers[n].role == Candidate && c.peers[n].settled
    requires c.peers[n].term == c.peers[n].campaign
    ensures Reachable(d) && d.up == c.up && d.calls == c.calls && c.events <= d.events
    ensures d.peers == c.peers[n := BecomeLeader(c.peers[n])]
  {
    d := Walk(c, Win(n));
  }

  lemma CrownLeads(p: Peer, v: Name, w: Name, z: Name)
    requires p.log == [] && |p.peers| == 6
    ensures var q := Asked(Asked(Asked(Campaign(p), v), w), z);
      q.settled && Leads(p, BecomeLeader(q))
  {
  }

  // ------------------------------------------------------------------
  // Appends
  // ------------------------------------------------------------------

  /** A pusher about to send its peer everything its node holds. */
  ghost predicate CanPush(c: Cluster, n: Name, v: Name) {
    && Running(c, n) && Running(c, v) && n != v
    && var p := c.peers[n];
    && p.name == n && p.pushTerm.Some? && v in p.pushers && p.pushers[v] == Idle
    && v in p.nextIndex && p.nextIndex[v] == 1
  }

  /** The append that carries a whole log. */
  function Whole(p: Peer): Request
    requires p.pushTerm.Some?
  {
    AppendEntries(p.pushTerm.value, p.name, 0, 0, p.log, p.commitIndex)
  }

  lemma PushWhole(c: Cluster, n: Name, v: Name) returns (d: Cluster)
    requires Reachable(c) && CanPush(c, n, v)
    ensures Reachable(d) && d.up == c.up && d.events == c.events
    ensures d.calls == c.calls + [Call(n, v, Whole(c.peers[n]), None)]
    ensures d.peers == c.peers[n := c.peers[n].(pushers := c.peers[n].pushers[v := Pushing(|c.calls|)])]
  {
    assert c.peers[n].log[0..] == c.peers[n].log;
    d := Walk(c, Push(n, v));
  }

  lemma Handle(c: Cluster, id: nat) returns (d: Cluster)
    requires Reachable(c) && Pending(c, id) && c.calls[id].request.AppendEntries?
    ensures Reachable(d) && d.up == c.up
    ensures var k := c.calls[id];
      var (p, reply, events) := OnAppendEntries(c.peers[k.callee], k.request);
      && d.peers == c.peers[k.callee := p] && d.events == c.events + events
      && d.calls == c.calls[id := k.(reply := Some(reply))]
  {
    hide OnAppendEntries;
    d := Walk(c, HandleAppend(id));
  }

  /** A two-entry log from nowhere in common replaces whatever was there. */
  ghost predicate Replaces(q: Peer, m: Request) {
    && m.AppendEntries? && q.term <= m.term && m.prev == 0 && |m.entries| == 2
    && (q.log == [] || q.log[0].term != m.entries[0].term)
    && m.entries[0].command == "" && m.entries[1].command != ""
    && q.commitIndex == q.appliedIndex <= 2 && m.commit <= 2
  }

  function Replaced(q: Peer, m: Request): Peer
    requires m.AppendEntries?
  {
    Heard(q, m.term).(log := m.entries)
  }

  lemma MergeReplaces(log: Log, entries: seq<Entry>)
    requires |entries| == 2 && (log == [] || log[0].term != entries[0].term)
    ensures Merge(log, 0, entries) == entries
  {
    var one := [entries[0]];
    assert entries[1..][1..] == [];
    assert log[..0] + one == one && [] + one == one;
    assert Merge(log, 0, entries) == Merge(one, 1, entries[1..]);
    assert Merge(one, 1, entries[1..]) == Merge(one + [entries[1]], 2, []);
    assert one + [entries[1]] == entries;
  }

  lemma Taking(q: Peer, m: Request)
    requires Replaces(q, m)
    ensures var (p, reply, events) := OnAppendEntries(q, m);
      && reply == Appended(m.term, true)
      && p == Replaced(q, m).(commitIndex := p.commitIndex, appliedIndex := p.appliedIndex, applied := p.applied)
      && p.commitIndex == p.appliedIndex == Max(m.commit, q.commitIndex)
      && (m.commit == 2 && q.commitIndex == 0 ==>
            events == [Applied(q.name, 2, m.entries[1].term, m.entries[1].command, m.term)])
  {
    hide Merge, OnAppendEntries, ApplyCommitted, ApplyEvents;
    MergeReplaces(q.log, m.entries);
    AppendTakes(q, m);
    var o := Taken(q, m);
    if m.commit > q.commitIndex {
      TakingApplies(o);
    }
  }

  lemma TakingApplies(o: Peer)
    requires |o.log| == 2 && o.log[0].command == "" && o.log[1].command != ""
    requires o.appliedIndex <= o.commitIndex <= 2
    ensures ApplyCommitted(o) == o.(appliedIndex := o.commitIndex, applied := ApplyCommitted(o).applied)
    ensures o.appliedIndex == 0 && o.commitIndex == 2 ==>
      ApplyEvents(o) == [Applied(o.name, 2, o.log[1].term, o.log[1].command, o.term)]
  {
    hide Visible;
    assert EventsBetween(o, 2, 2) == [];
    assert EventsBetween(o, 1, 2) == [Applied(o.name, 2, o.log[1].term, o.log[1].command, o.term)];
  }

  /** A push, its handling, and its reply. */
  lemma Replicate(c: Cluster, n: Name, v: Name) returns (d: Cluster)
    requires Reachable(c) && CanPush(c, n, v)
    requires c.peers[n].role == Leader && c.peers[n].pushTerm == Some(c.peers[n].term)
    requires Replaces(c.peers[v], Whole(c.peers[n]))
    ensures Reachable(d) && d.up == c.up && c.calls <= d.calls && c.events <= d.events
    ensures d.peers.Keys == c.peers.Keys && forall q :: q in c.peers && q !in [n, v] ==> d.peers[q] == c.peers[q]
    ensures d.peers[n] == AdvanceCommit(Counted(c.peers[n], v), c.peers[n].term).0
  {
    hide OnAppendEntries;
    var p, id := c.peers[n], |c.calls|;
    var c1 := PushWhole(c, n, v);
    var c2 := Handle(c1, id);
    Taking(c.peers[v], Whole(p));
    d := Hear(c2, n, v, id, p);
  }

  /** The leader once a peer is known to hold its whole log. */
  function Counted(p: Peer, v: Name): Peer {
    p.(matchIndex := p.matchIndex[v := |p.log|], nextIndex := p.nextIndex[v := |p.log| + 1],
       pushers := p.pushers[v := Idle])
  }

  lemma Hear(c: Cluster, n: Name, v: Name, id: nat, p: Peer) returns (d: Cluster)
    requires Reachable(c) && Running(c, n) && id < |c.calls| && v in p.nextIndex
    requires p.role == Leader && p.pushTerm == Some(p.term)
    requires c.peers[n] == p.(pushers := p.pushers[v := Pushing(id)])
    requires c.calls[id] == Call(n, v, Whole(p), Some(Appended(p.term, true)))
    ensures Reachable(d) && d.up == c.up && d.calls == c.calls && c.events <= d.events
    ensures d.peers == c.peers[n := AdvanceCommit(Counted(p, v), p.term).0]
  {
    hide AdvanceCommit;
    var q := c.peers[n];
    assert q.pushers[v := Idle] == p.pushers[v := Idle];
    assert OnAppendReply(q, v, c.calls[id].request, c.calls[id].reply) == AdvanceCommit(Counted(p, v), p.term);
    d := Walk(c, PushReply(n, v));
  }

  lemma GiveUp(c: Cluster, n: Name, v: Name, id: nat, p: Peer) returns (d: Cluster)
    requires Reachable(c) && Running(c, n) && id < |c.calls| && v in p.nextIndex && v in p.pushers
    requires p.role == Leader && p.pushTerm == Some(p.term) && p.pushers[v] == Idle
    requires c.peers[n] == p.(pushers := p.pushers[v := Pushing(id)]) && c.calls[id].request.AppendEntries?
    ensures Reachable(d) && d == Put(c, n, p)
  {
    var q := c.peers[n];
    assert q.pushers[v := Idle] == p.pushers;
    d := Walk(c, PushTimeout(n, v));
  }

  // ------------------------------------------------------------------
  // The run
  // ------------------------------------------------------------------

  ghost predicate Blank(names: seq<Name>, c: Cluster, n: Name, t: nat) {
    && Running(c, n)
    && var p := c.peers[n];
    && p.name == n && p.peers == Others(names, n) && p.role == Follower && p.log == [] && p.pushTerm == None
    && p.term == t && p.commitIndex == 0 && p.appliedIndex == 0
  }

  ghost predicate Reigning(names: seq<Name>, c: Cluster, n: Name, t: nat, log: Log) {
    && Running(c, n)
    && var p := c.peers[n];
    && p.name == n && p.peers == Others(names, n) && p.role == Leader && p.log == log && p.pushTerm == Some(t)
    && p.term == t && p.commitIndex == 0 && p.appliedIndex == 0
    && p.pushers == Each(p.peers, Idle) && p.nextIndex == Each<Index>(p.peers, 1) && p.matchIndex == Each<nat>(p.peers, 0)
  }

  /** Seven distinct names, each of which counts the other six as its peers. */
  ghost predicate Seven(s: seq<Name>) {
    && |s| == 7 && Distinct(s)
    && (forall n :: n in s ==> |Others(s, n)| == 6 && Distinct(Others(s, n)))
    && (forall n, q :: n in s && q in s && q != n ==> q in Others(s, n))
  }

  lemma InOthers(s: seq<Name>, i: nat, j: nat)
    requires Seven(s) && i < 7 && j < 7 && i != j
    ensures s[i] in Others(s, s[j]) && s[i] != s[j]
  {
    hide Others;
    assert s[i] in s && s[j] in s;
  }

  /** Whatever a move did not touch is as it was. */
  ghost predicate Untouched(c: Cluster, d: Cluster, touched: seq<Name>) {
    && d.up == c.up && d.peers.Keys == c.peers.Keys
    && forall q :: q in c.peers && q !in touched ==> d.peers[q] == c.peers[q]
  }

  lemma BlanksElect(s: seq<Name>, c: Cluster, n: Name, v: Name, w: Name, z: Name, t: nat, u: nat, x: nat, y: nat)
    requires Seven(s) && n in s && v in s && w in s && z in s && n !in [v, w, z] && v != w && v != z && w != z
    requires Blank(s, c, n, t) && Blank(s, c, v, u) && Blank(s, c, w, x) && Blank(s, c, z, y)
    requires u <= t && x <= t && y <= t
    ensures CanElect(c, n, v, w, z) && n in c.peers && v in c.peers && w in c.peers && z in c.peers
  {
    hide Others;
    assert |Others(s, n)| == 6;
    assert v in Others(s, n) && w in Others(s, n) && z in Others(s, n);
  }

  lemma VotedBlank(s: seq<Name>, c: Cluster, d: Cluster, n: Name, v: Name, u: nat, t: nat)
    requires Blank(s, c, v, u) && d.up == c.up && v in d.peers
    requires Blank(s, c, n, t) && n in d.peers && Leads(c.peers[n], d.peers[n])
    requires d.peers[v] == Voter(c.peers[v], d.peers[n].term, n)
    ensures Blank(s, d, v, t + 1)
  {
    hide Others, Each;
  }

  lemma LeadsReigns(s: seq<Name>, c: Cluster, d: Cluster, n: Name, t: nat)
    requires Blank(s, c, n, t) && d.up == c.up && n in d.peers && Leads(c.peers[n], d.peers[n])
    ensures Reigning(s, d, n, t + 1, [Entry(t + 1, "")])
  {
    hide Others, Each;
  }

  lemma Elected(s: seq<Name>, c: Cluster, n: Name, v: Name, w: Name, z: Name, t: nat, u: nat, x: nat, y: nat)
    returns (d: Cluster)
    requires Seven(s) && n in s && v in s && w in s && z in s && n !in [v, w, z] && v != w && v != z && w != z
    requires Reachable(c) && Blank(s, c, n, t) && Blank(s, c, v, u) && Blank(s, c, w, x) && Blank(s, c, z, y)
    requires u <= t && x <= t && y <= t
    ensures Reachable(d) && c.calls <= d.calls && c.events <= d.events && Untouched(c, d, [n, v, w, z])
    ensures Reigning(s, d, n, t + 1, [Entry(t + 1, "")])
    ensures Blank(s, d, v, t + 1) && Blank(s, d, w, t + 1) && Blank(s, d, z, t + 1)
  {
    hide Others, Reachable, Each, Leads, Reigning, Blank, CanElect;
    BlanksElect(s, c, n, v, w, z, t, u, x, y);
    d := Elect(c, n, v, w, z);
    LeadsReigns(s, c, d, n, t);
    VotedBlank(s, c, d, n, v, u, t);
    VotedBlank(s, c, d, n, w, x, t);
    VotedBlank(s, c, d, n, z, y, t);
  }

  ghost predicate AllUp(s: seq<Name>, c: Cluster) {
    forall q :: q in s ==> Running(c, q)
  }

  lemma EachHas(s: seq<Name>, c: Cluster, n: Name, v: Name, t: nat, log: Log)
    requires Seven(s) && Reigning(s, c, n, t, log) && n in s && v in s && v != n && Running(c, v)
    ensures CanPush(c, n, v) && v in c.peers[n].matchIndex && c.peers[n].matchIndex[v] == 0
  {
    hide Others;
    assert v in Others(s, n);
  }

  /** A leader pushes its log to a peer and hears nothing of it. */
  lemma Abandon(s: seq<Name>, c: Cluster, n: Name, v: Name, t: nat, log: Log) returns (d: Cluster)
    requires Seven(s) && Reachable(c) && Reigning(s, c, n, t, log) && n in s && v in s && v != n && AllUp(s, c)
    ensures Reachable(d) && Untouched(c, d, [n]) && Reigning(s, d, n, t, log) && AllUp(s, d)
    ensures d.calls == c.calls + [Call(n, v, AppendEntries(t, n, 0, 0, log, 0), None)] && d.events == c.events
  {
    hide Others, Each;
    EachHas(s, c, n, v, t, log);
    var c1 := PushWhole(c, n, v);
    d := GiveUp(c1, n, v, |c.calls|, c.peers[n]);
  }

  /** Its pushers all start before anything else happens. */
  lemma {:induction false} AbandonAll(s: seq<Name>, c: Cluster, n: Name, t: nat, log: Log, k: nat) returns (d: Cluster)
    requires Seven(s) && Reachable(c) && Reigning(s, c, n, t, log) && n in s && AllUp(s, c) && k <= 7
    ensures Reachable(d) && Untouched(c, d, [n]) && Reigning(s, d, n, t, log) && AllUp(s, d)
    ensures c.calls <= d.calls && d.events == c.events
  {
    hide Others, Each, Reigning, Reachable, AllUp;
    d := c;
    if k > 0 {
      d := AbandonAll(s, c, n, t, log, k - 1);
      if s[k - 1] != n {
        d := Abandon(s, d, n, s[k - 1], t, log);
      }
    }
  }

  lemma BlankStays(s: seq<Name>, c: Cluster, d: Cluster, touched: seq<Name>, n: Name, t: nat)
    requires Blank(s, c, n, t) && Untouched(c, d, touched) && n !in touched
    ensures Blank(s, d, n, t)
  {
    hide Others;
  }

  lemma ReigningStays(s: seq<Name>, c: Cluster, d: Cluster, touched: seq<Name>, n: Name, t: nat, log: Log)
    requires Reigning(s, c, n, t, log) && Untouched(c, d, touched) && n !in touched
    ensures Reigning(s, d, n, t, log)
  {
    hide Others, Each;
  }

  /** An election, and the first push to every peer. */
  lemma ElectedPushing(s: seq<Name>, c: Cluster, n: Name, v: Name, w: Name, z: Name, t: nat, u: nat, x: nat, y: nat)
    returns (d: Cluster)
    requires Seven(s) && n in s && v in s && w in s && z in s && n !in [v, w, z] && v != w && v != z && w != z
    requires Reachable(c) && Blank(s, c, n, t) && Blank(s, c, v, u) && Blank(s, c, w, x) && Blank(s, c, z, y)
    requires u <= t && x <= t && y <= t && AllUp(s, c)
    ensures Reachable(d) && c.calls <= d.calls && c.events <= d.events && Untouched(c, d, [n, v, w, z])
    ensures Reigning(s, d, n, t + 1, [Entry(t + 1, "")]) && AllUp(s, d)
    ensures Blank(s, d, v, t + 1) && Blank(s, d, w, t + 1) && Blank(s, d, z, t + 1)
  {
    hide Others, Reachable, Each, Reigning, Blank;
    var e := Elected(s, c, n, v, w, z, t, u, x, y);
    UpStays(s, c, e, [n, v, w, z]);
    d := AbandonAll(s, e, n, t + 1, [Entry(t + 1, "")], 7);
    BlankStays(s, e, d, [n], v, t + 1);
    BlankStays(s, e, d, [n], w, t + 1);
    BlankStays(s, e, d, [n], z, t + 1);
  }

  lemma UpStays(s: seq<Name>, c: Cluster, d: Cluster, touched: seq<Name>)
    requires AllUp(s, c) && Untouched(c, d, touched)
    ensures AllUp(s, d)
  {
  }

  lemma AllBlank(s: seq<Name>, n: Name)
    requires Seven(s) && n in s
    ensures Blank(s, Fresh(s), n, 0)
  {
    hide Others;
  }

  lemma FreshUp(s: seq<Name>)
    ensures AllUp(s, Fresh(s))
  {
    hide Others;
  }

  /** `a` leads the first term, with three votes. */
  lemma First(s: seq<Name>) returns (c: Cluster)
    requires Seven(s)
    ensures Reachable(c) && Reigning(s, c, s[0], 1, [Entry(1, "")])
    ensures Blank(s, c, s[1], 1) && Blank(s, c, s[2], 1) && Blank(s, c, s[3], 1)
    ensures Blank(s, c, s[4], 0) && Blank(s, c, s[5], 0) && Blank(s, c, s[6], 0) && AllUp(s, c)
  {
    hide Others, Reachable, Reigning, Blank, Untouched, Fresh, AllUp;
    FreshReachable(s);
    var c0 := Fresh(s);
    forall n | n in s ensures Blank(s, c0, n, 0) {
      AllBlank(s, n);
    }
    FreshUp(s);
    c := ElectedPushing(s, c0, s[0], s[1], s[2], s[3], 0, 0, 0, 0);
    forall n | n in [s[4], s[5], s[6]] ensures Blank(s, c, n, 0) {
      BlankStays(s, c0, c, [s[0], s[1], s[2], s[3]], n, 0);
    }
    assert s[4] in [s[4], s[5], s[6]] && s[5] in [s[4], s[5], s[6]] && s[6] in [s[4], s[5], s[6]];
  }

  /** The append that is still on its way. */
  ghost predicate InFlight(s: seq<Name>, c: Cluster, id: nat, y: string)
    requires Seven(s)
  {
    && id < |c.calls|
    && c.calls[id] == Call(s[1], s[0], AppendEntries(2, s[1], 0, 0, [Entry(2, ""), Entry(2, y)], 0), None)
  }

  lemma Proposed(s: seq<Name>, c: Cluster, n: Name, t: nat, x: string) returns (d: Cluster)
    requires Reachable(c) && Reigning(s, c, n, t, [Entry(t, "")]) && x != ""
    ensures Reachable(d) && d.calls == c.calls && d.events == c.events && Untouched(c, d, [n])
    ensures Reigning(s, d, n, t, [Entry(t, ""), Entry(t, x)])
  {
    hide Others, Each;
    assert [Entry(t, "")] + [Entry(t, x)] == [Entry(t, ""), Entry(t, x)];
    d := Walk(c, Propose(n, x));
  }

  /** `b` leads the second term; its first append is lost sight of, but not lost. */
  lemma Second(s: seq<Name>, y: string) returns (c: Cluster, id: nat)
    requires Seven(s) && y != ""
    ensures Reachable(c) && Reigning(s, c, s[0], 1, [Entry(1, "")])
    ensures Reigning(s, c, s[1], 2, [Entry(2, ""), Entry(2, y)]) && InFlight(s, c, id, y)
    ensures Blank(s, c, s[2], 2) && Blank(s, c, s[3], 2) && Blank(s, c, s[4], 2)
    ensures Blank(s, c, s[5], 0) && Blank(s, c, s[6], 0) && AllUp(s, c)
  {
    hide Others, Reachable, Each, Blank, Reigning, Untouched, AllUp;
    var c0 := First(s);
    var c1 := ElectedPushing(s, c0, s[1], s[2], s[3], s[4], 1, 1, 1, 0);
    ReigningStays(s, c0, c1, [s[1], s[2], s[3], s[4]], s[0], 1, [Entry(1, "")]);
    BlankStays(s, c0, c1, [s[1], s[2], s[3], s[4]], s[5], 0);
    BlankStays(s, c0, c1, [s[1], s[2], s[3], s[4]], s[6], 0);
    var c2 := Proposed(s, c1, s[1], 2, y);
    var d := [s[1]];
    ReigningStays(s, c1, c2, d, s[0], 1, [Entry(1, "")]);
    UpStays(s, c1, c2, d);
    id := |c2.calls|;
    c := Abandon(s, c2, s[1], s[0], 2, [Entry(2, ""), Entry(2, y)]);
    ReigningStays(s, c2, c, d, s[0], 1, [Entry(1, "")]);
    forall i | 2 <= i < 7 ensures Blank(s, c, s[i], if i < 5 then 2 else 0) {
      BlankStays(s, c1, c2, d, s[i], if i < 5 then 2 else 0);
      BlankStays(s, c2, c, d, s[i], if i < 5 then 2 else 0);
    }
  }

  // ------------------------------------------------------------------
  // The third term commits
  // ------------------------------------------------------------------

  /** Counting peers and moving the mark, and nothing else, as far as the log goes. */
  ghost predicate Counts(p: Peer, q: Peer) {
    && q == p.(pushers := q.pushers, nextIndex := q.nextIndex, matchIndex := q.matchIndex,
               commitIndex := q.commitIndex, appliedIndex := q.appliedIndex, applied := q.applied)
    && (p.commitIndex <= |p.log| ==> q.commitIndex <= |p.log|)
  }

  lemma {:induction false} ScanBounded(p: Peer, term: nat, index: nat)
    requires index <= |p.log|
    ensures Scan(p, term, index) <= Max(p.commitIndex, index)
  {
    if index > p.commitIndex {
      ScanBounded(p, term, index - 1);
    }
  }

  lemma AdvanceCounts(p: Peer, v: Name, t: nat)
    ensures var q := AdvanceCommit(Counted(p, v), t).0;
      && Counts(p, q) && q.pushers == p.pushers[v := Idle]
      && q.nextIndex == p.nextIndex[v := |p.log| + 1] && q.matchIndex == p.matchIndex[v := |p.log|]
  {
    hide Scan, Visible, ApplyEvents;
    ScanBounded(Counted(p, v), t, |p.log|);
  }

  /** The third of three matching peers makes a majority of seven. */
  lemma ThirdCommits(p: Peer, u: Name, v: Name, w: Name)
    requires |p.log| == 2 && p.log[1].term == p.term && |p.peers| == 6 && Distinct(p.peers)
    requires u in p.peers && v in p.peers && w in p.peers && u != v && u != w && v != w
    requires {u, v} <= p.matchIndex.Keys && p.matchIndex[u] == 2 && p.matchIndex[v] == 2 && p.commitIndex <= 2
    ensures AdvanceCommit(Counted(p, w), p.term).0.commitIndex == 2
  {
    hide Visible, ApplyEvents;
    var q := Counted(p, w);
    ReplicasCount(q.peers, q.matchIndex, 2);
    var holders := set k | k in q.peers && k in q.matchIndex && q.matchIndex[k] >= 2;
    assert {u, v, w} <= holders;
    SubsetSize({u, v, w}, holders);
    assert Scan(q, p.term, 2) == 2;
  }

  /** The leader of the third term has committed its two entries and not yet told `b`. */
  ghost predicate HasCommitted(s: seq<Name>, c: Cluster, x: string)
    requires Seven(s)
  {
    && CanPush(c, s[2], s[1])
    && var p := c.peers[s[2]];
    && p.pushTerm == Some(3) && p.log == [Entry(3, ""), Entry(3, x)] && p.commitIndex == 2
  }

  lemma BlankTakes(s: seq<Name>, c: Cluster, v: Name, m: Request)
    requires Blank(s, c, v, m.term) && m.AppendEntries? && m.prev == 0 && |m.entries| == 2 && m.commit <= 2
    requires m.entries[0].command == "" && m.entries[1].command != ""
    ensures Replaces(c.peers[v], m)
  {
    hide Others;
  }

  /** Where the leader stands after `done` of its three appends. */
  ghost predicate Partway(s: seq<Name>, c: Cluster, x: string, done: set<Name>)
    requires Seven(s)
  {
    && Running(c, s[2])
    && var p := c.peers[s[2]];
    && p.name == s[2] && p.peers == Others(s, s[2]) && p.role == Leader && p.pushTerm == Some(3) && p.term == 3
    && p.log == [Entry(3, ""), Entry(3, x)] && p.commitIndex <= 2
    && forall v :: v in s && v != s[2] ==>
         && v in p.pushers && p.pushers[v] == Idle && v in p.nextIndex && v in p.matchIndex
         && (v in done ==> p.matchIndex[v] == 2) && (v !in done ==> p.nextIndex[v] == 1)
  }

  lemma OneMore(s: seq<Name>, c: Cluster, x: string, done: set<Name>, v: Name) returns (d: Cluster)
    requires Seven(s) && x != "" && Reachable(c) && Partway(s, c, x, done)
    requires v in s && v != s[2] && v !in done && Blank(s, c, v, 3)
    ensures Reachable(d) && c.calls <= d.calls && Untouched(c, d, [s[2], v])
    ensures Partway(s, d, x, done + {v})
    ensures d.peers[s[2]] == AdvanceCommit(Counted(c.peers[s[2]], v), 3).0
  {
    hide AdvanceCommit, Others, Reachable;
    var p := c.peers[s[2]];
    BlankTakes(s, c, v, Whole(p));
    d := Replicate(c, s[2], v);
    AdvanceCounts(p, v, 3);
  }

  lemma Committing(s: seq<Name>, c: Cluster, x: string) returns (d: Cluster)
    requires Seven(s) && x != "" && Reachable(c) && Partway(s, c, x, {}) && Running(c, s[1])
    requires Blank(s, c, s[3], 3) && Blank(s, c, s[4], 3) && Blank(s, c, s[5], 3)
    ensures Reachable(d) && c.calls <= d.calls && Untouched(c, d, [s[2], s[3], s[4], s[5]])
    ensures HasCommitted(s, d, x)
  {
    hide Partway, Blank, Others, Reachable, HasCommitted;
    var c2 := TwoMore(s, c, x);
    d := LastMore(s, c2, x);
    UntouchedTwice(c, c2, d, [s[2], s[3], s[4]], [s[2], s[5]], [s[2], s[3], s[4], s[5]]);
  }

  lemma UntouchedTwice(c: Cluster, c1: Cluster, d: Cluster, a: seq<Name>, b: seq<Name>, ab: seq<Name>)
    requires Untouched(c, c1, a) && Untouched(c1, d, b) && forall n :: n in a || n in b ==> n in ab
    ensures Untouched(c, d, ab)
  {
  }

  lemma TwoMore(s: seq<Name>, c: Cluster, x: string) returns (d: Cluster)
    requires Seven(s) && x != "" && Reachable(c) && Partway(s, c, x, {})
    requires Blank(s, c, s[3], 3) && Blank(s, c, s[4], 3) && Blank(s, c, s[5], 3)
    ensures Reachable(d) && c.calls <= d.calls && Untouched(c, d, [s[2], s[3], s[4]])
    ensures Partway(s, d, x, {} + {s[3]} + {s[4]}) && Blank(s, d, s[5], 3)
  {
    hide Partway, AdvanceCommit, Others, Reachable, Counted, Blank;
    var c1 := OneMore(s, c, x, {}, s[3]);
    BlankStays(s, c, c1, [s[2], s[3]], s[4], 3);
    BlankStays(s, c, c1, [s[2], s[3]], s[5], 3);
    d := OneMore(s, c1, x, {} + {s[3]}, s[4]);
    BlankStays(s, c1, d, [s[2], s[4]], s[5], 3);
    UntouchedTwice(c, c1, d, [s[2], s[3]], [s[2], s[4]], [s[2], s[3], s[4]]);
  }

  lemma LastMore(s: seq<Name>, c: Cluster, x: string) returns (d: Cluster)
    requires Seven(s) && x != "" && Reachable(c) && Partway(s, c, x, {} + {s[3]} + {s[4]})
    requires Blank(s, c, s[5], 3) && Running(c, s[1])
    ensures Reachable(d) && c.calls <= d.calls && Untouched(c, d, [s[2], s[5]])
    ensures HasCommitted(s, d, x)
  {
    hide AdvanceCommit, Others, Reachable, Counted, Blank;
    d := OneMore(s, c, x, {} + {s[3]} + {s[4]}, s[5]);
    InOthers(s, 3, 2);
    InOthers(s, 4, 2);
    InOthers(s, 5, 2);
    ThirdCommits(c.peers[s[2]], s[3], s[4], s[5]);
  }

  lemma Starts(s: seq<Name>, c: Cluster, x: string)
    requires Seven(s) && Reigning(s, c, s[2], 3, [Entry(3, ""), Entry(3, x)])
    ensures Partway(s, c, x, {})
  {
    hide Others;
    forall v | v in s && v != s[2] ensures v in Others(s, s[2]) {
    }
  }

  /** `c` leads the third term and commits its two entries with `d`, `e` and `f`. */
  lemma Third(s: seq<Name>, x: string, y: string) returns (c: Cluster, id: nat)
    requires Seven(s) && x != "" && y != ""
    ensures Reachable(c) && Reigning(s, c, s[0], 1, [Entry(1, "")])
    ensures Reigning(s, c, s[1], 2, [Entry(2, ""), Entry(2, y)]) && InFlight(s, c, id, y)
    ensures HasCommitted(s, c, x) && Blank(s, c, s[6], 0)
  {
    hide Others, Reachable, Each, Blank, Reigning, Untouched, Partway, HasCommitted, AllUp;
    var c0, k := Second(s, y);
    id := k;
    var c1 := ElectedPushing(s, c0, s[2], s[3], s[4], s[5], 2, 2, 2, 0);
    var c2 := Proposed(s, c1, s[2], 3, x);
    Starts(s, c2, x);
    var four := [s[2], s[3], s[4], s[5]];
    BystandersStay(s, c0, c1, four, y);
    BystandersStay(s, c1, c2, [s[2]], y);
    BlankStays(s, c1, c2, [s[2]], s[3], 3);
    BlankStays(s, c1, c2, [s[2]], s[4], 3);
    BlankStays(s, c1, c2, [s[2]], s[5], 3);
    assert Running(c2, s[1]) by { BRuns(s, c2, y); }
    c := Committing(s, c2, x);
    BystandersStay(s, c2, c, four, y);
  }

  lemma BRuns(s: seq<Name>, c: Cluster, y: string)
    requires Seven(s) && Reigning(s, c, s[1], 2, [Entry(2, ""), Entry(2, y)])
    ensures Running(c, s[1])
  {
  }

  lemma BystandersStay(s: seq<Name>, c: Cluster, d: Cluster, touched: seq<Name>, y: string)
    requires Seven(s) && Untouched(c, d, touched) && s[0] !in touched && s[1] !in touched && s[6] !in touched
    requires Reigning(s, c, s[0], 1, [Entry(1, "")]) && Reigning(s, c, s[1], 2, [Entry(2, ""), Entry(2, y)])
    requires Blank(s, c, s[6], 0)
    ensures Reigning(s, d, s[0], 1, [Entry(1, "")]) && Reigning(s, d, s[1], 2, [Entry(2, ""), Entry(2, y)])
    ensures Blank(s, d, s[6], 0)
  {
    hide Others, Each, Reigning, Blank, Untouched;
    ReigningStays(s, c, d, touched, s[0], 1, [Entry(1, "")]);
    ReigningStays(s, c, d, touched, s[1], 2, [Entry(2, ""), Entry(2, y)]);
    BlankStays(s, c, d, touched, s[6], 0);
  }

  // ------------------------------------------------------------------
  // The deposed pass it on
  // ------------------------------------------------------------------

  /** The peer after a whole log replaced its own: nothing it had started has stopped. */
  ghost predicate Overwrites(q: Peer, m: Request, p: Peer)
    requires m.AppendEntries?
  {
    && p.name == q.name && p.term == m.term && p.log == m.entries
    && p.pushTerm == q.pushTerm && p.pushers == q.pushers && p.nextIndex == q.nextIndex
    && p.commitIndex == p.appliedIndex == Max(m.commit, q.commitIndex)
  }

  lemma Arrive(c: Cluster, id: nat) returns (d: Cluster)
    requires Reachable(c) && Pending(c, id) && Replaces(c.peers[c.calls[id].callee], c.calls[id].request)
    ensures var v, m := c.calls[id].callee, c.calls[id].request;
      var q := c.peers[v];
      && Reachable(d) && Untouched(c, d, [v]) && Overwrites(q, m, d.peers[v]) && c.events <= d.events
      && (m.commit == 2 && q.commitIndex == 0 ==>
            Applied(q.name, 2, m.entries[1].term, m.entries[1].command, m.term) in d.events)
    ensures |d.calls| == |c.calls| && forall k :: 0 <= k < |c.calls| && k != id ==> d.calls[k] == c.calls[k]
  {
    hide OnAppendEntries, Reachable;
    d := Handle(c, id);
    Taking(c.peers[c.calls[id].callee], c.calls[id].request);
  }

  lemma PassOn(c: Cluster, n: Name, v: Name) returns (d: Cluster)
    requires Reachable(c) && CanPush(c, n, v) && Replaces(c.peers[v], Whole(c.peers[n]))
    ensures var q, m := c.peers[v], Whole(c.peers[n]);
      && Reachable(d) && Untouched(c, d, [n, v]) && Overwrites(q, m, d.peers[v]) && c.events <= d.events
      && (m.commit == 2 && q.commitIndex == 0 ==>
            Applied(q.name, 2, m.entries[1].term, m.entries[1].command, m.term) in d.events)
    ensures c.calls <= d.calls
  {
    hide Overwrites, Replaces;
    var c1 := PushWhole(c, n, v);
    d := Arrive(c1, |c.calls|);
  }

  lemma StillPushes(s: seq<Name>, c: Cluster, n: Name, t: nat, log: Log, v: Name, p: Peer, d: Cluster)
    requires Seven(s) && Reigning(s, c, n, t, log) && n in s && v in s && v != n
    requires Running(d, n) && Running(d, v) && d.peers[n] == p
    requires p.name == c.peers[n].name && p.pushTerm == c.peers[n].pushTerm
    requires p.pushers == c.peers[n].pushers && p.nextIndex == c.peers[n].nextIndex
    ensures CanPush(d, n, v) && p.pushTerm == Some(t)
  {
    hide Others;
    assert v in Others(s, n);
  }

  /** c's entries reach the deposed b, and through it, under term 2, a. */
  lemma Fourth(s: seq<Name>, x: string, y: string) returns (c: Cluster, id: nat, p: Peer)
    requires Seven(s) && x != "" && y != ""
    ensures Reachable(c) && Running(c, s[0]) && CanPush(c, s[0], s[6]) && Blank(s, c, s[6], 0) && InFlight(s, c, id, y)
    ensures c.peers[s[0]].pushTerm == Some(1)
    ensures Overwrites(p, AppendEntries(2, s[1], 0, 0, [Entry(3, ""), Entry(3, x)], 2), c.peers[s[0]])
    ensures p.commitIndex == 0 && Applied(s[0], 2, 3, x, 2) in c.events
  {
    hide Others, Reachable, Each;
    var c0, k := Third(s, x, y);
    id := k;
    var c1 := PassOn(c0, s[2], s[1]);
    StillPushes(s, c0, s[1], 2, [Entry(2, ""), Entry(2, y)], s[0], c1.peers[s[1]], c1);
    p := c0.peers[s[0]];
    c := PassOn(c1, s[1], s[0]);
    StillPushes(s, c0, s[0], 1, [Entry(1, "")], s[6], c.peers[s[0]], c);
  }

  /** Nothing but prompt appends keeps state machines together: there is a run in which two peers
      apply different commands at one index. */
  lemma DeposedSendersDiverge() returns (r: Run, one: Event, other: Event)
    ensures IsRun(r)
    ensures one in r.states[|r.steps|].events && other in r.states[|r.steps|].events
    ensures one.Applied? && other.Applied? && one.index == other.index && one.command != other.command
  {
    hide Others, Each, Blank, Overwrites;
    var s := ["a", "b", "c", "d", "e", "f", "g"];
    FreshReachable(s);
    var c, id, p := Fourth(s, "x", "y");
    one := Applied("a", 2, 3, "x", 2);
    var d := Fifth(s, c, id, p, "x", "y");
    other := Applied("g", 2, 2, "y", 1);
    r :| Reaches(r, d);
  }

  /** The older append arrives after the newer one, and a hands its entries on as committed. */
  lemma Fifth(s: seq<Name>, c: Cluster, id: nat, p: Peer, x: string, y: string) returns (d: Cluster)
    requires Seven(s) && y != ""
    requires Reachable(c) && Running(c, s[0]) && CanPush(c, s[0], s[6]) && Blank(s, c, s[6], 0) && InFlight(s, c, id, y)
    requires c.peers[s[0]].pushTerm == Some(1) && p.commitIndex == 0
    requires Overwrites(p, AppendEntries(2, s[1], 0, 0, [Entry(3, ""), Entry(3, x)], 2), c.peers[s[0]])
    ensures Reachable(d) && c.events <= d.events && Applied(s[6], 2, 2, y, 1) in d.events
  {
    hide Others, Each, Reachable;
    var c1 := Arrive(c, id);
    d := PassOn(c1, s[0], s[6]);
  }
}
