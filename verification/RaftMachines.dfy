/**
  A cluster of peers as objects: nodes, each over a tearable disk of its own, and
  the network between them.  Whatever order their blocks run in and whenever the
  power fails, what they go through is a run of the cluster model, and so
  everything proved of its runs holds of the objects.
*/
module RaftMachines {
  import opened Helpers
  import opened RaftLog
  import opened RaftPeer
  import opened RaftCluster
  import opened RaftNode
  import opened RaftTheorems
  import opened RaftMarks
  import opened RaftApplied
  import SimDisk

  type Nodes = map<Name, Node>

  /** No two machines share a node or a disk. */
  ghost predicate Apart(nodes: Nodes) {
    forall m, n :: m in nodes && n in nodes && m != n ==>
      nodes[m] != nodes[n] && nodes[m].storage.disk != nodes[n].storage.disk
  }

  lemma ApartStays(nodes: Nodes, n: Name, x: Node)
    requires Apart(nodes) && n in nodes && x.storage == nodes[n].storage
    requires x == nodes[n] || forall k :: k in nodes ==> nodes[k] != x
    ensures Apart(nodes[n := x])
  {
  }

  class Machines {
    var nodes: Nodes
    var up: set<Name>
    var calls: seq<Call>
    var events: seq<Event>

    ghost function Parts(): set<object>
      reads this
    {
      (set n | n in nodes :: nodes[n] as object) + (set n | n in nodes :: nodes[n].storage.disk as object)
    }

    ghost predicate Valid()
      reads this, Parts()
    {
      Apart(nodes) && forall n :: n in nodes ==> nodes[n].Valid() && nodes[n].name == n
    }

    function Snapshot(): Cluster
      reads this, Parts()
    {
      Cluster(map n | n in nodes :: nodes[n].Snapshot(), up, calls, events)
    }

    /** One machine moved, or was booted again from its disk, and the others did neither. */
    twostate lemma OneMoved(n: Name)
      requires old(Valid()) && n in nodes && nodes[n].Valid() && nodes[n].name == n
      requires nodes.Keys == old(nodes).Keys && nodes[n].storage == old(nodes)[n].storage
      requires nodes[n] == old(nodes)[n] || fresh(nodes[n])
      requires forall k :: k in nodes && k != n ==>
        nodes[k] == old(nodes)[k] && unchanged(nodes[k]) && unchanged(nodes[k].storage.disk)
      ensures Valid()
      ensures Snapshot().peers == old(Snapshot()).peers[n := nodes[n].Snapshot()]
    {
      hide Node.Valid, Node.Snapshot, Apart;
      assert nodes == old(nodes)[n := nodes[n]];
      ApartStays(old(nodes), n, nodes[n]);
      forall k | k in nodes && k != n ensures nodes[k].Valid() && nodes[k].Snapshot() == old(nodes[k].Snapshot()) {
        Untouched(nodes[k]);
      }
    }

    /** Only the node that was booted again is new. */
    twostate lemma PartsStay(n: Name)
      requires n in old(nodes) && n in nodes && nodes == old(nodes)[n := nodes[n]]
      requires nodes[n].storage == old(nodes)[n].storage
      ensures Parts() <= old(Parts()) + {nodes[n]}
    {
    }

    constructor (wiring: map<Name, seq<Name>>, torn: bool)
      requires forall n :: n in wiring ==> Neighbours(wiring.Keys, n, wiring[n])
      ensures Valid() && Initial(Snapshot()) && nodes.Keys == wiring.Keys && fresh(Parts())
      ensures forall n :: n in nodes ==> nodes[n].storage.disk.torn == torn
    {
      var built := Assembled(wiring, torn);
      nodes, up, calls, events := built, wiring.Keys, [], [];
      new;
      hide Node.Snapshot, Node.Valid, Booted, Initial, Apart, Neighbours;
      StartsFresh(Snapshot(), wiring);
    }

    // ----------------------------------------------------------------
    // Elections
    // ----------------------------------------------------------------

    method OpenCampaign(n: Name)
      requires Valid() && Enabled(Snapshot(), Timeout(n))
      modifies this, Parts()
      ensures Valid() && nodes == old(nodes) && Snapshot() == Next(old(Snapshot()), Timeout(n))
      ensures nodes[n].Snapshot() == Campaign(old(nodes[n].Snapshot()))
    {
      hide Node.Valid;
      nodes[n].StartCampaign();
      OneMoved(n);
    }

    /** A solicitor's request says what its node's log holds as it is sent. */
    method SendSolicitation(n: Name, peer: Name)
      requires Valid() && Enabled(Snapshot(), Solicit(n, peer))
      modifies this, Parts()
      ensures Valid() && nodes == old(nodes) && Snapshot() == Next(old(Snapshot()), Solicit(n, peer))
      ensures calls == old(calls) + [Call(n, peer, VoteRequest(old(nodes[n].Snapshot())), None)]
    {
      hide Node.Valid;
      var request := nodes[n].Solicit(peer, |calls|);
      calls := calls + [Call(n, peer, request, None)];
      OneMoved(n);
    }

    method AnswerVote(call: nat)
      requires Valid() && Enabled(Snapshot(), HandleVote(call))
      modifies this, Parts()
      ensures Valid() && nodes == old(nodes) && Snapshot() == Next(old(Snapshot()), HandleVote(call))
      ensures var k := old(calls)[call];
        && calls == old(calls)[call := k.(reply := calls[call].reply)] && calls[call].reply.Some?
        && (nodes[k.callee].Snapshot(), calls[call].reply.value) == OnRequestVote(old(nodes[k.callee].Snapshot()), k.request)
    {
      hide OnRequestVote, Node.Valid;
      var k := calls[call];
      var reply := nodes[k.callee].HandleRequestVote(k.request);
      calls := calls[call := k.(reply := Some(reply))];
      OneMoved(k.callee);
    }

    method ReadVoteReply(n: Name, peer: Name)
      requires Valid() && Enabled(Snapshot(), CountVote(n, peer))
      modifies this, Parts()
      ensures Valid() && nodes == old(nodes) && Snapshot() == Next(old(Snapshot()), CountVote(n, peer))
      ensures nodes[n].Snapshot() ==
        OnVoteReply(old(nodes[n].Snapshot()), peer, calls[old(nodes[n].tasks.solicitors)[peer].call].reply.value)
    {
      hide Node.Valid;
      nodes[n].ReadVote(peer, calls[nodes[n].tasks.solicitors[peer].call].reply.value);
      OneMoved(n);
    }

    method Lead(n: Name)
      requires Valid() && Enabled(Snapshot(), Win(n))
      modifies this, Parts()
      ensures Valid() && nodes == old(nodes) && Snapshot() == Next(old(Snapshot()), Win(n))
      ensures nodes[n].Snapshot() == BecomeLeader(old(nodes[n].Snapshot()))
      ensures events == old(events) + [Led(n, nodes[n].state.term, nodes[n].state.log)]
    {
      hide Node.Valid, BecomeLeader;
      var known := |nodes[n].events|;
      nodes[n].TakeLead();
      events := events + nodes[n].events[known..];
      OneMoved(n);
    }

    // ----------------------------------------------------------------
    // Replication
    // ----------------------------------------------------------------

    /** A pusher sends what its node holds, or dies if it would read past the end of its log. */
    method SendAppend(n: Name, peer: Name)
      requires Valid() && Enabled(Snapshot(), Push(n, peer))
      modifies this, Parts()
      ensures Valid() && nodes == old(nodes) && Snapshot() == Next(old(Snapshot()), Push(n, peer))
      ensures old(nodes[n].nextIndex)[peer] <= |old(nodes[n].state.log)| + 1 ==>
        calls == old(calls) + [Call(n, peer, AppendRequest(old(nodes[n].Snapshot()), peer), None)]
      ensures old(nodes[n].nextIndex)[peer] > |old(nodes[n].state.log)| + 1 ==> calls == old(calls) && peer !in nodes[n].tasks.pushers
    {
      hide AppendRequest, Node.Valid;
      var request := nodes[n].SendAppend(peer, |calls|);
      if request.Some? {
        calls := calls + [Call(n, peer, request.value, None)];
      }
      OneMoved(n);
    }

    method AnswerAppend(call: nat)
      requires Valid() && Enabled(Snapshot(), HandleAppend(call))
      modifies this, Parts()
      ensures Valid() && nodes == old(nodes) && Snapshot() == Next(old(Snapshot()), HandleAppend(call))
      ensures var k := old(calls)[call];
        && calls == old(calls)[call := k.(reply := calls[call].reply)] && calls[call].reply.Some?
        && var (p, reply, news) := OnAppendEntries(old(nodes[k.callee].Snapshot()), k.request);
           nodes[k.callee].Snapshot() == p && calls[call].reply.value == reply && events == old(events) + news
    {
      hide OnAppendEntries, Node.Valid;
      var k := calls[call];
      var known := |nodes[k.callee].events|;
      var reply := nodes[k.callee].HandleAppendEntries(k.request);
      calls := calls[call := k.(reply := Some(reply))];
      events := events + nodes[k.callee].events[known..];
      OneMoved(k.callee);
    }

    method ReadReply(n: Name, peer: Name)
      requires Valid() && Enabled(Snapshot(), PushReply(n, peer))
      modifies this, Parts()
      ensures Valid() && nodes == old(nodes) && Snapshot() == Next(old(Snapshot()), PushReply(n, peer))
      ensures var k := calls[old(nodes[n].tasks.pushers)[peer].call];
        var (p, news) := OnAppendReply(old(nodes[n].Snapshot()), peer, k.request, k.reply);
        nodes[n].Snapshot() == p && events == old(events) + news
    {
      hide OnAppendReply, Node.Valid;
      var k, known := calls[nodes[n].tasks.pushers[peer].call], |nodes[n].events|;
      nodes[n].ReadAppendReply(peer, k.request, k.reply);
      events := events + nodes[n].events[known..];
      OneMoved(n);
    }

    method GiveUpReply(n: Name, peer: Name)
      requires Valid() && Enabled(Snapshot(), PushTimeout(n, peer))
      modifies this, Parts()
      ensures Valid() && nodes == old(nodes) && Snapshot() == Next(old(Snapshot()), PushTimeout(n, peer))
      ensures nodes[n].Snapshot() ==
        OnAppendReply(old(nodes[n].Snapshot()), peer, calls[old(nodes[n].tasks.pushers)[peer].call].request, None).0
    {
      hide OnAppendReply, Node.Valid;
      nodes[n].ReadAppendReply(peer, calls[nodes[n].tasks.pushers[peer].call].request, None);
      OneMoved(n);
    }

    method EndPushing(n: Name)
      requires Valid() && Enabled(Snapshot(), StopPushing(n))
      modifies this, Parts()
      ensures Valid() && nodes == old(nodes) && Snapshot() == Next(old(Snapshot()), StopPushing(n))
      ensures nodes[n].Snapshot() == old(nodes[n].Snapshot()).(pushTerm := None, pushers := map[])
    {
      hide Node.Valid;
      nodes[n].StopPushing();
      OneMoved(n);
    }

    method TakeProposal(n: Name, command: string)
      requires Valid() && Enabled(Snapshot(), Propose(n, command))
      modifies this, Parts()
      ensures Valid() && nodes == old(nodes) && Snapshot() == Next(old(Snapshot()), Propose(n, command))
      ensures nodes[n].Snapshot() == OnPropose(old(nodes[n].Snapshot()), command).0
    {
      hide Node.Valid;
      var ok, index := nodes[n].HandlePropose(command);
      OneMoved(n);
    }

    // ----------------------------------------------------------------
    // Power
    // ----------------------------------------------------------------

    /** The power fails, and what boots from the disk is what the model says is left. */
    method CutPower(n: Name)
      requires Valid() && Enabled(Snapshot(), RaftCluster.Crash(n))
      modifies this, Parts()
      ensures n in old(nodes) && n in nodes && nodes[n].Snapshot() == Reboot(old(nodes[n].Snapshot())) && up == old(up) - {n}
      ensures Snapshot() == Next(old(Snapshot()), RaftCluster.Crash(n))
      ensures Valid() && fresh(Parts() - old(Parts()))
    {
      hide Reboot, Node.Snapshot, Node.Valid, Next;
      var next := Reborn(nodes[n]);
      nodes, up := nodes[n := next], up - {n};
      OneMoved(n);
      PartsStay(n);
      CrashIs(old(Snapshot()), n, Snapshot());
    }

    method Boot(n: Name)
      requires Valid() && Enabled(Snapshot(), Restart(n))
      modifies this
      ensures Valid() && nodes == old(nodes) && Snapshot() == Next(old(Snapshot()), Restart(n))
      ensures up == old(up) + {n}
    {
      hide Apart, Node.Valid, Node.Snapshot;
      up := up + {n};
    }

    // ----------------------------------------------------------------
    // Runs
    // ----------------------------------------------------------------

    method Perform(s: Step)
      requires Valid() && Enabled(Snapshot(), s)
      modifies this, Parts()
      ensures Valid() && fresh(Parts() - old(Parts())) && Snapshot() == Next(old(Snapshot()), s)
    {
      hide Enabled, Next;
      match s {
        case Timeout(n) => OpenCampaign(n);
        case Solicit(n, peer) => SendSolicitation(n, peer);
        case HandleVote(call) => AnswerVote(call);
        case CountVote(n, peer) => ReadVoteReply(n, peer);
        case Win(n) => Lead(n);
        case Push(n, peer) => SendAppend(n, peer);
        case HandleAppend(call) => AnswerAppend(call);
        case PushReply(n, peer) => ReadReply(n, peer);
        case PushTimeout(n, peer) => GiveUpReply(n, peer);
        case StopPushing(n) => EndPushing(n);
        case Propose(n, command) => TakeProposal(n, command);
        case Crash(n) => CutPower(n);
        case Restart(n) => Boot(n);
      }
    }

    /** Any list of steps, those that cannot be taken skipped: the machines trace out a run of the model,
        no term has two leaders, where two logs agree on a term they agree up to there, and as long as no
        append cut into what its taker had committed, no index was applied as two different things and of
        two state machines one has seen all that the other has, in the same order. */
    method Drive(steps: seq<Step>) returns (ghost r: Run)
      requires Valid() && Initial(Snapshot())
      modifies this, Parts()
      ensures Valid() && Snapshot() == AfterSteps(old(Snapshot()), steps)
      ensures IsRun(r) && r.states[|r.steps|] == Snapshot()
      ensures OneLeaderATerm(Snapshot().events) && LogsMatch(Snapshot().peers)
      ensures NothingCut(r, |r.steps|) ==> AppliedAlike(Snapshot().events) && InStep(Snapshot().peers)
    {
      hide Enabled, Next, Initial, OneLeaderATerm, LogsMatch, AppliedAlike, InStep, NothingCut, Machines.Valid, Machines.Snapshot;
      r := Run([Snapshot()], []);
      for i := 0 to |steps|
        invariant Valid() && fresh(Parts() - old(Parts())) && IsRun(r) && r.states[|r.steps|] == Snapshot()
        invariant Snapshot() == AfterSteps(old(Snapshot()), steps[..i])
      {
        assert steps[..i + 1][..i] == steps[..i];
        if Enabled(Snapshot(), steps[i]) {
          OneStepMore(r, steps[i]);
          Perform(steps[i]);
          r := Run(r.states + [Snapshot()], r.steps + [steps[i]]);
        }
      }
      assert steps[..|steps|] == steps;
      RunIsSafe(r);
    }
  }

  twostate lemma Untouched(node: Node)
    requires allocated(node) && unchanged(node) && unchanged(node.storage.disk) && old(node.Valid())
    ensures node.Valid() && node.Snapshot() == old(node.Snapshot())
  {
  }

  /** A node for every name, each over a blank disk of its own. */
  method Assembled(wiring: map<Name, seq<Name>>, torn: bool) returns (nodes: Nodes)
    ensures nodes.Keys == wiring.Keys && Apart(nodes)
    ensures forall n :: n in nodes ==> Blank(nodes[n], n, wiring[n], torn)
    ensures forall n :: n in nodes ==> fresh(nodes[n]) && fresh(nodes[n].storage.disk)
  {
    nodes := map[];
    var left := wiring.Keys;
    while left != {}
      invariant left <= wiring.Keys && nodes.Keys == wiring.Keys - left && Apart(nodes)
      invariant forall n :: n in nodes ==> Blank(nodes[n], n, wiring[n], torn)
      invariant forall n :: n in nodes ==> fresh(nodes[n]) && fresh(nodes[n].storage.disk)
    {
      var n :| n in left;
      var node := NewNode(n, wiring[n], torn);
      nodes, left := nodes[n := node], left - {n};
    }
  }

  method NewNode(n: Name, peers: seq<Name>, torn: bool) returns (node: Node)
    ensures fresh(node) && fresh(node.storage.disk) && Blank(node, n, peers, torn)
  {
    var disk := new SimDisk.Disk<Record>();
    var ok := disk.Configure(torn, torn);
    var storage := new DiskStorage(disk);
    node := new Node(n, peers, storage, []);
  }

  /** The power fails with nothing in flight to the disk. */
  method Reborn(node: Node) returns (next: Node)
    requires node.Valid()
    modifies node.storage.disk
    ensures fresh(next) && next.Valid() && next.storage == node.storage && next.name == node.name
    ensures next.Snapshot() == Reboot(old(node.Snapshot()))
  {
    next := PowerCycle(node, 0);
  }

  lemma CrashIs(c: Cluster, n: Name, d: Cluster)
    requires Running(c, n) && d.peers == c.peers[n := Reboot(c.peers[n])] && d.up == c.up - {n}
    requires d.calls == c.calls && d.events == c.events
    ensures d == Next(c, RaftCluster.Crash(n))
  {
  }

  lemma StartsFresh(c: Cluster, wiring: map<Name, seq<Name>>)
    requires c.peers.Keys == c.up == wiring.Keys && c.calls == [] && c.events == []
    requires forall n :: n in wiring ==>
      c.peers[n] == Booted(n, wiring[n], 0, None, []) && Neighbours(wiring.Keys, n, wiring[n])
    ensures Initial(c)
  {
    hide Neighbours;
  }

  ghost predicate Blank(node: Node, n: Name, peers: seq<Name>, torn: bool)
    reads node, node.storage.disk
  {
    && node.Valid() && node.name == n && node.storage.disk.torn == torn
    && node.Snapshot() == Booted(n, peers, 0, None, [])
  }

  /** Where the model gets to with those of the steps that it can take. */
  function AfterSteps(c: Cluster, steps: seq<Step>): Cluster {
    if steps == [] then c
    else
      var d := AfterSteps(c, steps[..|steps| - 1]);
      if Enabled(d, steps[|steps| - 1]) then Next(d, steps[|steps| - 1]) else d
  }

  lemma OneStepMore(r: Run, s: Step)
    requires IsRun(r) && Enabled(r.states[|r.steps|], s)
    ensures IsRun(Run(r.states + [Next(r.states[|r.steps|], s)], r.steps + [s]))
  {
    hide Enabled, Next, Initial;
    var q := Run(r.states + [Next(r.states[|r.steps|], s)], r.steps + [s]);
    forall i | 0 <= i < |q.steps|
      ensures Enabled(q.states[i], q.steps[i]) && q.states[i + 1] == Next(q.states[i], q.steps[i])
    {
      if i < |r.steps| {
        assert Enabled(r.states[i], r.steps[i]) && r.states[i + 1] == Next(r.states[i], r.steps[i]);
      }
    }
  }

  ghost predicate OneLeaderATerm(events: seq<Event>) {
    forall i, j :: 0 <= i < j < |events| && events[i].Led? && events[j].Led? ==> events[i].term != events[j].term
  }

  ghost predicate AppliedAlike(events: seq<Event>) {
    forall a, b :: a in events && b in events && a.Applied? && b.Applied? && a.index == b.index ==>
      a.term == b.term && a.command == b.command
  }

  ghost predicate InStep(peers: map<Name, Peer>) {
    forall m, n :: m in peers && n in peers && peers[m].appliedIndex <= peers[n].appliedIndex ==>
      peers[m].applied <= peers[n].applied
  }

  /** Where two logs have an entry of the same term at the same place, they agree up to it. */
  ghost predicate LogsMatch(peers: map<Name, Peer>) {
    forall a, b, i: nat :: a in peers && b in peers && SameTermAt(peers[a].log, peers[b].log, i) ==>
      peers[a].log[..i + 1] == peers[b].log[..i + 1]
  }

  ghost predicate SameTermAt(a: Log, b: Log, i: nat) {
    i < |a| && i < |b| && a[i].term == b[i].term
  }

  lemma RunIsSafe(r: Run)
    requires IsRun(r)
    ensures OneLeaderATerm(r.states[|r.steps|].events) && LogsMatch(r.states[|r.steps|].peers)
    ensures NothingCut(r, |r.steps|) ==> AppliedAlike(r.states[|r.steps|].events) && InStep(r.states[|r.steps|].peers)
  {
    assert |r.states| == |r.steps| + 1;
    hide IsRun, NothingCut;
    var k := |r.steps|;
    var c := r.states[k];
    forall i, j | 0 <= i < j < |c.events| && c.events[i].Led? && c.events[j].Led?
      ensures c.events[i].term != c.events[j].term
    {
      ElectionSafety(r, k, i, j);
    }
    forall a, b, i: nat | a in c.peers && b in c.peers && SameTermAt(c.peers[a].log, c.peers[b].log, i)
      ensures c.peers[a].log[..i + 1] == c.peers[b].log[..i + 1]
    {
      LogMatching(r, k, a, b, i);
    }
    if NothingCut(r, k) {
      forall a, b | a in c.events && b in c.events && a.Applied? && b.Applied? && a.index == b.index
        ensures a.term == b.term && a.command == b.command
      {
        UncutSafety(r, k, a, b);
      }
      forall m, n | m in c.peers && n in c.peers && c.peers[m].appliedIndex <= c.peers[n].appliedIndex
        ensures c.peers[m].applied <= c.peers[n].applied
      {
        MachinesAgree(r, k, m, n);
      }
    }
  }
}
