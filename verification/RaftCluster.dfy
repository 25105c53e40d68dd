/**
  A cluster of peers: every interleaving of their atomic blocks, with requests
  and replies that may be delayed, reordered or lost without bound, crashes and
  reboots.

  A call is one request on its own connection: it is handled at most once and
  its reply goes back to the task that made it, or to nobody if that task is
  gone.  A request may be handled long after its caller stopped waiting.
*/
module RaftCluster {
  import opened Helpers
  import opened RaftLog
  import opened RaftPeer

  datatype Call = Call(caller: Name, callee: Name, request: Request, reply: Option<Reply>)

  datatype Cluster = Cluster(peers: map<Name, Peer>, up: set<Name>, calls: seq<Call>, events: seq<Event>)

  datatype Step =
    | Timeout(n: Name)                      // an election timeout opens a candidacy
    | Solicit(n: Name, peer: Name)          // a solicitor task sends its request
    | HandleVote(call: nat)
    | CountVote(n: Name, peer: Name)        // a solicitor task reads its reply
    | Win(n: Name)
    | Push(n: Name, peer: Name)             // a pusher task builds and sends an append
    | HandleAppend(call: nat)
    | PushReply(n: Name, peer: Name)        // a pusher task reads its reply
    | PushTimeout(n: Name, peer: Name)
    | StopPushing(n: Name)                  // a deposed leader's heartbeat notices
    | Propose(n: Name, command: string)
    | Crash(n: Name)
    | Restart(n: Name)

  predicate Running(c: Cluster, n: Name) {
    n in c.up && n in c.peers
  }

  predicate Enabled(c: Cluster, s: Step) {
    match s
    case Timeout(n) => Running(c, n) && c.peers[n].role != Leader && c.peers[n].pushTerm.None?
    case Solicit(n, peer) =>
      Running(c, n) && peer in c.peers[n].solicitors && c.peers[n].solicitors[peer].Unsent?
    case HandleVote(call) => Pending(c, call) && c.calls[call].request.RequestVote?
    case CountVote(n, peer) =>
      && Running(c, n) && peer in c.peers[n].solicitors && c.peers[n].solicitors[peer].Asking?
      && Answered(c, c.peers[n].solicitors[peer].call)
      && c.calls[c.peers[n].solicitors[peer].call].reply.value.Voted?
    case Win(n) =>
      && Running(c, n) && c.peers[n].role == Candidate && c.peers[n].settled
      && c.peers[n].term == c.peers[n].campaign
    case Push(n, peer) =>
      && Running(c, n) && peer in c.peers[n].pushers && c.peers[n].pushers[peer].Idle?
      && c.peers[n].pushTerm.Some? && peer in c.peers[n].nextIndex
    case HandleAppend(call) => Pending(c, call) && c.calls[call].request.AppendEntries?
    case PushReply(n, peer) =>
      && Waiting(c, n, peer)
      && c.calls[c.peers[n].pushers[peer].call].reply.Some?
      && c.calls[c.peers[n].pushers[peer].call].reply.value.Appended?
    case PushTimeout(n, peer) => Waiting(c, n, peer)
    case StopPushing(n) =>
      && Running(c, n) && c.peers[n].pushTerm.Some?
      && (c.peers[n].role != Leader || c.peers[n].pushTerm != Some(c.peers[n].term))
    case Propose(n, command) => Running(c, n)
    case Crash(n) => Running(c, n)
    case Restart(n) => n in c.peers && n !in c.up
  }

  /** A request that has reached nobody yet, addressed to a machine that is up. */
  predicate Pending(c: Cluster, call: nat) {
    call < |c.calls| && c.calls[call].reply.None? && Running(c, c.calls[call].callee)
  }

  predicate Answered(c: Cluster, call: nat) {
    call < |c.calls| && c.calls[call].reply.Some?
  }

  predicate Waiting(c: Cluster, n: Name, peer: Name) {
    && Running(c, n) && peer in c.peers[n].pushers && c.peers[n].pushers[peer].Pushing?
    && c.peers[n].pushers[peer].call < |c.calls|
    && c.calls[c.peers[n].pushers[peer].call].request.AppendEntries?
    && c.peers[n].pushTerm.Some? && peer in c.peers[n].nextIndex
  }

  function Put(c: Cluster, n: Name, p: Peer): Cluster {
    c.(peers := c.peers[n := p])
  }

  function Next(c: Cluster, s: Step): Cluster
    requires Enabled(c, s)
  {
    match s
    case Timeout(n) => Put(c, n, Campaign(c.peers[n]))
    case Solicit(n, peer) =>
      var p := c.peers[n];
      Put(c, n, p.(solicitors := p.solicitors[peer := Asking(|c.calls|)]))
        .(calls := c.calls + [Call(n, peer, VoteRequest(p), None)])
    case HandleVote(call) =>
      var k := c.calls[call];
      var (p, reply) := OnRequestVote(c.peers[k.callee], k.request);
      Put(c, k.callee, p).(calls := c.calls[call := k.(reply := Some(reply))])
    case CountVote(n, peer) =>
      var p := c.peers[n];
      Put(c, n, OnVoteReply(p, peer, c.calls[p.solicitors[peer].call].reply.value))
    case Win(n) =>
      var p := BecomeLeader(c.peers[n]);
      Put(c, n, p).(events := c.events + [Led(n, p.term, p.log)])
    case Push(n, peer) =>
      var p := c.peers[n];
      if p.nextIndex[peer] > |p.log| + 1 then
        // reading the entry before prev fails, and the pusher dies of it
        Put(c, n, p.(pushers := p.pushers - {peer}))
      else
        Put(c, n, p.(pushers := p.pushers[peer := Pushing(|c.calls|)]))
          .(calls := c.calls + [Call(n, peer, AppendRequest(p, peer), None)])
    case HandleAppend(call) =>
      var k := c.calls[call];
      var (p, reply, events) := OnAppendEntries(c.peers[k.callee], k.request);
      Put(c, k.callee, p).(calls := c.calls[call := k.(reply := Some(reply))], events := c.events + events)
    case PushReply(n, peer) =>
      var p := c.peers[n];
      var k := c.calls[p.pushers[peer].call];
      var (q, events) := OnAppendReply(p, peer, k.request, k.reply);
      Put(c, n, q).(events := c.events + events)
    case PushTimeout(n, peer) =>
      var p := c.peers[n];
      Put(c, n, OnAppendReply(p, peer, c.calls[p.pushers[peer].call].request, None).0)
    case StopPushing(n) => Put(c, n, c.peers[n].(pushTerm := None, pushers := map[]))
    case Propose(n, command) => Put(c, n, OnPropose(c.peers[n], command).0)
    case Crash(n) => Put(c, n, Reboot(c.peers[n])).(up := c.up - {n})
    case Restart(n) => c.(up := c.up + {n})
  }

  /** Peers are distinct and exclude self; everyone starts empty-handed. */
  ghost predicate Initial(c: Cluster) {
    && c.up == c.peers.Keys
    && c.calls == [] && c.events == []
    && (forall n :: n in c.peers ==>
         && c.peers[n] == Booted(n, c.peers[n].peers, 0, None, [])
         && Neighbours(c.peers.Keys, n, c.peers[n].peers))
  }

  ghost predicate Neighbours(names: set<Name>, n: Name, peers: seq<Name>) {
    && (forall i, j :: 0 <= i < j < |peers| ==> peers[i] != peers[j])
    && (forall q :: q in peers <==> q in names && q != n)
  }

  /** A run: a start, and one enabled step after another. */
  datatype Run = Run(states: seq<Cluster>, steps: seq<Step>)

  ghost predicate IsRun(r: Run) {
    && |r.states| == |r.steps| + 1
    && Initial(r.states[0])
    && (forall i :: 0 <= i < |r.steps| ==>
         Enabled(r.states[i], r.steps[i]) && r.states[i + 1] == Next(r.states[i], r.steps[i]))
  }

  /** The sender of an append leads the term it stamps at the moment it builds it. */
  ghost predicate Prompt(c: Cluster, s: Step) {
    s.Push? && s.n in c.peers ==>
      c.peers[s.n].role == Leader && c.peers[s.n].pushTerm == Some(c.peers[s.n].term)
  }

  /** The call was placed by a prompt push. */
  ghost predicate BuiltPromptly(r: Run, id: nat) {
    exists j :: 0 <= j < |r.steps| && j + 1 < |r.states| && BuiltAt(r, j, id)
  }

  ghost predicate BuiltAt(r: Run, j: nat, id: nat)
    requires j < |r.steps| && j + 1 < |r.states|
  {
    && r.steps[j].Push? && Prompt(r.states[j], r.steps[j])
    && |r.states[j].calls| == id && |r.states[j + 1].calls| == id + 1
  }

  /** The follower takes the append over. */
  ghost predicate Accepts(c: Cluster, s: Step) {
    && s.HandleAppend? && Enabled(c, s)
    && OnAppendEntries(c.peers[c.calls[s.call].callee], c.calls[s.call].request).1.ok
  }

  /** Every append that is accepted was built while its sender still led the term it stamps;
      those that are lost or refused may have been built at any time. */
  ghost predicate IsPromptRun(r: Run) {
    && IsRun(r)
    && forall i :: 0 <= i < |r.steps| && Accepts(r.states[i], r.steps[i]) ==> BuiltPromptly(r, r.steps[i].call)
  }
}
