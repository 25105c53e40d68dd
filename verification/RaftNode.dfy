/**
  The peer as it runs: an object over a buffered, tearable disk, whose handlers
  persist before they reply.  Each atomic block is proved to be its function on
  peers, and to leave the durable record equal to memory, so that losing power
  and booting again loses only what the peer keeps in memory alone.
*/
module RaftNode {
  import opened Helpers
  import opened RaftLog
  import opened RaftPeer
  import opened RaftRules
  import SimDisk

  /** What a peer must remember across restarts, written as one value. */
  datatype Record = Record(term: nat, votedFor: Option<Name>, log: Log)

  const KEY := "raft-state"

  /** The record a disk's contents stand for; a blank disk is a blank peer. */
  function Stored(contents: map<string, Record>): Record {
    if KEY in contents then contents[KEY] else Record(0, None, [])
  }

  class DiskStorage {
    const disk: SimDisk.Disk<Record>

    constructor (disk: SimDisk.Disk<Record>)
      ensures this.disk == disk
    {
      this.disk := disk;
    }

    method Load() returns (r: Record)
      requires disk.Valid()
      ensures r == Stored(disk.View())
    {
      var found := disk.Get(KEY);
      return if found.Some? then found.value else Record(0, None, []);
    }

    /** Atomic against a power cut: a save over a synced disk can be cut back to
        the record before it, never to a mixture of the two. */
    method Save(r: Record)
      requires disk.Valid()
      modifies disk
      ensures disk.Valid() && Stored(disk.View()) == r
      ensures disk.History() ==
        SimDisk.AfterWrite(old(disk.History()), disk.buffered, SimDisk.Write(KEY, SimDisk.Put(r)))
      ensures old(disk.journal) == [] ==> forall contents :: contents in disk.History() ==>
        Stored(contents) == r || contents == old(disk.data)
    {
      disk.Set(KEY, r);
      if old(disk.journal) == [] {
        assert old(disk.History()) == [old(disk.data)];
      }
    }

    method Sync()
      requires disk.Valid()
      modifies disk
      ensures disk.Valid() && disk.journal == []
      ensures disk.data == old(disk.View())
    {
      disk.Sync();
    }
  }

  /** What the tasks a peer has started keep to themselves: its candidacy's and its pushers'. */
  datatype Tasks = Tasks(
    campaign: nat,
    granted: nat,
    settled: bool,
    solicitors: map<Name, Solicitor>,
    pushTerm: Option<nat>,
    pushers: map<Name, Pusher>)

  class Node {
    const name: Name
    const peers: seq<Name>
    const storage: DiskStorage
    var state: Record
    var role: Role
    var tasks: Tasks
    var nextIndex: map<Name, Index>
    var matchIndex: map<Name, nat>
    var commitIndex: nat
    var appliedIndex: nat
    var applied: seq<Entry>
    var events: seq<Event>

    /** Nothing is in flight to the disk, and the disk holds what memory holds. */
    ghost predicate Valid()
      reads this, storage.disk
    {
      && storage.disk.Valid()
      && storage.disk.journal == []
      && Stored(storage.disk.data) == state
    }

    function Snapshot(): Peer
      reads this
    {
      Peer(name, peers, state.term, state.votedFor, state.log, role,
           tasks.campaign, tasks.granted, tasks.settled, tasks.solicitors,
           tasks.pushTerm, tasks.pushers, nextIndex, matchIndex, commitIndex, appliedIndex, applied)
    }

    constructor (name: Name, peers: seq<Name>, storage: DiskStorage, events: seq<Event>)
      requires storage.disk.Valid()
      ensures this.storage == storage && this.events == events
      ensures var r := Stored(storage.disk.View());
        state == r && Snapshot() == Booted(name, peers, r.term, r.votedFor, r.log)
      ensures role == Follower && commitIndex == 0 && appliedIndex == 0 && applied == []
      ensures nextIndex == map[] && matchIndex == map[] && tasks == Tasks(0, 0, false, map[], None, map[])
      ensures storage.disk.journal == [] ==> Valid()
    {
      this.name, this.peers, this.storage, this.events := name, peers, storage, events;
      role := Follower;
      tasks := Tasks(0, 0, false, map[], None, map[]);
      nextIndex, matchIndex := map[], map[];
      commitIndex, appliedIndex, applied := 0, 0, [];
      var loaded := storage.Load();
      state := loaded;
    }

    method Persist()
      requires storage.disk.Valid()
      modifies storage.disk
      ensures Valid()
    {
      storage.Save(state);
      storage.Sync();
    }

    // ----------------------------------------------------------------
    // Elections
    // ----------------------------------------------------------------

    method BecomeFollowerAt(newTerm: nat)
      requires Valid()
      modifies this`state, this`role, storage.disk
      ensures Valid() && state == Record(newTerm, None, old(state.log)) && role == Follower
      ensures Snapshot() == BecomeFollower(old(Snapshot()), newTerm)
    {
      state := state.(term := newTerm, votedFor := None);
      Persist();
      role := Follower;
    }

    method StartCampaign()
      requires Valid()
      modifies this`state, this`role, this`tasks, storage.disk
      ensures Valid() && state == Record(old(state.term) + 1, Some(name), old(state.log)) && role == Candidate
      ensures tasks.campaign == state.term && tasks.granted == 1 && !tasks.settled
      ensures tasks.solicitors.Keys == (set q | q in peers) && forall q :: q in peers ==> tasks.solicitors[q] == Unsent
      ensures Snapshot() == Campaign(old(Snapshot()))
    {
      role := Candidate;
      state := state.(term := state.term + 1, votedFor := Some(name));
      Persist();
      tasks := tasks.(campaign := state.term, granted := 1, settled := false, solicitors := Each(peers, Unsent));
    }

    /** A solicitor's first step: what it says of its node is what the log holds now. */
    method Solicit(peer: Name, call: nat) returns (m: Request)
      requires Valid()
      modifies this`tasks
      ensures Valid() && m == VoteRequest(old(Snapshot()))
      ensures m.term == tasks.campaign && m.candidate == name && m.lastIndex == |state.log|
      ensures m.lastTerm == if state.log == [] then 0 else state.log[|state.log| - 1].term
      ensures Snapshot() == old(Snapshot()).(solicitors := old(tasks.solicitors)[peer := Asking(call)])
    {
      tasks := tasks.(solicitors := tasks.solicitors[peer := Asking(call)]);
      return RequestVote(tasks.campaign, name, |state.log|, LastTerm(state.log));
    }

    /** A vote is given exactly if the term is current, the vote in it is free or already the candidate's,
        and the candidate's log ends in a later term than the voter's or in the same and is no shorter. */
    method HandleRequestVote(m: Request) returns (reply: Reply)
      requires Valid() && m.RequestVote?
      modifies this`state, this`role, storage.disk
      ensures Valid() && reply.Voted? && reply.term == state.term == Max(old(state.term), m.term)
      ensures reply.granted <==>
        && m.term >= old(state.term)
        && (m.term > old(state.term) || old(state.votedFor) == None || old(state.votedFor) == Some(m.candidate))
        && (old(state.log) == []
            || m.lastTerm > old(state.log)[|old(state.log)| - 1].term
            || (m.lastTerm == old(state.log)[|old(state.log)| - 1].term && m.lastIndex >= |old(state.log)|))
      ensures state.log == old(state.log)
      ensures state.votedFor ==
        if reply.granted then Some(m.candidate) else if m.term > old(state.term) then None else old(state.votedFor)
      ensures role == if m.term > old(state.term) then Follower else old(role)
      ensures (Snapshot(), reply) == OnRequestVote(old(Snapshot()), m)
    {
      hide Stored;
      if m.term > state.term {
        BecomeFollowerAt(m.term);
      }
      var refused := Voted(state.term, false);
      if m.term < state.term {
        return refused;
      }
      if state.votedFor.Some? && state.votedFor.value != m.candidate {
        return refused;
      }
      if !AtLeastAsFresh(m.lastTerm, m.lastIndex, state.log) {
        return refused;
      }
      state := state.(votedFor := Some(m.candidate));
      Persist();
      return Voted(state.term, true);
    }

    /** A later term deposes and settles; a vote for the candidacy in progress counts, and the one that
        makes a majority settles; anything else is ignored. */
    method ReadVote(from: Name, reply: Reply)
      requires Valid() && reply.Voted?
      modifies this`state, this`role, this`tasks, storage.disk
      ensures Valid() && tasks == old(tasks).(solicitors := old(tasks.solicitors) - {from}, granted := tasks.granted, settled := tasks.settled)
      ensures reply.term > old(state.term) ==>
        && state == Record(reply.term, None, old(state.log)) && role == Follower
        && tasks.granted == old(tasks.granted) && tasks.settled
      ensures reply.term <= old(state.term) ==>
        var counts := old(role) == Candidate && old(state.term) == old(tasks.campaign) && reply.granted;
        && state == old(state) && role == old(role)
        && tasks.granted == old(tasks.granted) + (if counts then 1 else 0)
        && (tasks.settled <==> old(tasks.settled) || (counts && 2 * tasks.granted > |peers| + 1))
      ensures Snapshot() == OnVoteReply(old(Snapshot()), from, reply)
    {
      tasks := tasks.(solicitors := tasks.solicitors - {from});
      if reply.term > state.term {
        BecomeFollowerAt(reply.term);
        tasks := tasks.(settled := true);
        return;
      }
      if role != Candidate || state.term != tasks.campaign {
        return;
      }
      if reply.granted {
        tasks := tasks.(granted := tasks.granted + 1);
        if tasks.granted >= Quorum(|peers| + 1) {
          tasks := tasks.(settled := true);
        }
      }
    }

    method TakeLead()
      requires Valid()
      modifies this`state, this`role, this`tasks, this`nextIndex, this`matchIndex, this`events, storage.disk
      ensures Valid() && role == Leader && state == old(state).(log := old(state.log) + [Entry(old(state.term), "")])
      ensures nextIndex.Keys == matchIndex.Keys == (set q | q in peers)
      ensures forall q :: q in peers ==> nextIndex[q] == |old(state.log)| + 1 && matchIndex[q] == 0
      ensures tasks.pushTerm == Some(state.term)
      ensures Snapshot() == BecomeLeader(old(Snapshot()))
      ensures events == old(events) + [Led(name, state.term, state.log)]
    {
      hide Stored, Each;
      role := Leader;
      StartAfresh();
      state := state.(log := state.log + [Entry(state.term, "")]);
      Persist();
      events := events + [Led(name, state.term, state.log)];
      tasks := tasks.(solicitors := map[], pushTerm := Some(state.term), pushers := Each(peers, Idle));
    }

    /** Nothing is known of any peer but where this log ends. */
    method StartAfresh()
      modifies this`nextIndex, this`matchIndex
      ensures nextIndex.Keys == matchIndex.Keys == set q | q in peers
      ensures forall q :: q in peers ==> nextIndex[q] == |state.log| + 1 && matchIndex[q] == 0
      ensures nextIndex == BecomeLeader(Snapshot()).nextIndex && matchIndex == BecomeLeader(Snapshot()).matchIndex
    {
      nextIndex := Each(peers, |state.log| + 1);
      matchIndex := Each(peers, 0);
    }

    // ----------------------------------------------------------------
    // Replication
    // ----------------------------------------------------------------

    /** An append is taken exactly if its term is current and the log holds an entry of the term it names
        at the index it names.  Then every entry it brings has its place, the mark follows the sender's as
        far as the append reaches, and what is newly committed is applied. */
    method HandleAppendEntries(m: Request) returns (reply: Reply)
      requires Valid() && m.AppendEntries?
      modifies this`state, this`role, this`commitIndex, this`appliedIndex, this`applied, this`events, storage.disk
      ensures Valid() && reply.Appended? && reply.term == state.term == Max(old(state.term), m.term)
      ensures reply.ok <==>
        && m.term >= old(state.term) && m.prev <= |old(state.log)|
        && (m.prev > 0 ==> old(state.log)[m.prev - 1].term == m.prevTerm)
      ensures state.votedFor == if m.term > old(state.term) then None else old(state.votedFor)
      ensures role == if m.term > old(state.term) || (m.term == old(state.term) && old(role) == Candidate) then Follower else old(role)
      ensures !reply.ok ==> state.log == old(state.log) && commitIndex == old(commitIndex) && appliedIndex == old(appliedIndex)
      ensures reply.ok ==>
        && Merged(old(state.log), m.prev, m.entries, state.log)
        && |state.log| >= m.prev + |m.entries| && state.log[..m.prev] == old(state.log)[..m.prev]
        && forall i :: 0 <= i < |m.entries| ==> InPlace(old(state.log), m.prev + i, m.entries[i], state.log)
      ensures reply.ok ==> commitIndex == Max(old(commitIndex), Min(m.commit, m.prev + |m.entries|))
      ensures appliedIndex == if reply.ok && m.commit > old(commitIndex)
        then Max(old(appliedIndex), Min(commitIndex, |state.log|)) else old(appliedIndex)
      ensures AppliesOn(name, state.term, state.log, old(appliedIndex), appliedIndex, old(applied), applied, old(events), events)
      ensures var (p, answer, news) := OnAppendEntries(old(Snapshot()), m);
        Snapshot() == p && reply == answer && events == old(events) + news
    {
      hide ApplyCommitted, ApplyEvents, Merge, ApplyLimit, Stored, Merged, InPlace, AppliesOn;
      AppliesNone(name, Max(state.term, m.term), state.log, appliedIndex, applied, events);
      if m.term > state.term {
        BecomeFollowerAt(m.term);
      }
      if m.term < state.term {
        return Appended(state.term, false);
      }
      if role == Candidate {
        role := Follower;
      }
      if m.prev > |state.log| || (m.prev > 0 && state.log[m.prev - 1].term != m.prevTerm) {
        return Appended(state.term, false);
      }
      MergeEntries(m.prev, m.entries);
      MergedHolds(old(state.log), m.prev, m.entries, state.log);
      AppliesNone(name, state.term, state.log, appliedIndex, applied, events);
      Persist();
      if m.commit > commitIndex {
        commitIndex := Max(commitIndex, Min(m.commit, m.prev + |m.entries|));
        Apply();
      }
      return Appended(state.term, true);
    }

    method MergeEntries(prev: nat, entries: seq<Entry>)
      requires prev <= |state.log|
      modifies this`state
      ensures state == old(state).(log := state.log) && Merged(old(state.log), prev, entries, state.log)
      ensures state.log == Merge(old(state.log), prev, entries)
    {
      MergeIs(state.log, prev, entries);
      for offset := 0 to |entries|
        invariant prev + offset <= |state.log| && state == old(state).(log := state.log)
        invariant Merge(state.log, prev + offset, entries[offset..]) == Merge(old(state.log), prev, entries)
      {
        var index, entry := prev + 1 + offset, entries[offset];
        assert entries[offset..][1..] == entries[offset + 1..];
        if index <= |state.log| && state.log[index - 1].term != entry.term {
          state := state.(log := state.log[..index - 1]);
        }
        if index > |state.log| {
          state := state.(log := state.log + [entry]);
        }
      }
    }

    method Apply()
      requires Valid()
      modifies this`appliedIndex, this`applied, this`events
      ensures Valid() && appliedIndex == Max(old(appliedIndex), Min(commitIndex, |state.log|))
      ensures AppliesOn(name, state.term, state.log, old(appliedIndex), appliedIndex, old(applied), applied, old(events), events)
      ensures Snapshot() == ApplyCommitted(old(Snapshot()))
      ensures events == old(events) + ApplyEvents(old(Snapshot()))
    {
      hide Stored, ApplyCommitted, ApplyEvents, AppliesOn;
      ApplyRule(Snapshot(), events);
      while appliedIndex < Min(commitIndex, |state.log|)
        invariant Valid()
        invariant ApplyCommitted(Snapshot()) == ApplyCommitted(old(Snapshot()))
        invariant events + ApplyEvents(Snapshot()) == old(events) + ApplyEvents(old(Snapshot()))
        decreases |state.log| - appliedIndex
      {
        ApplyRest(Snapshot());
        EventsRest(Snapshot());
        ApplyNext();
      }
      ApplyDone(Snapshot());
      assert events == old(events) + ApplyEvents(old(Snapshot()));
    }

    method ApplyNext()
      requires appliedIndex < ApplyLimit(Snapshot())
      modifies this`appliedIndex, this`applied, this`events
      ensures Snapshot() == AppliedOne(old(Snapshot()))
      ensures var e := state.log[old(appliedIndex)];
        events == old(events) + if e.command != "" then [Applied(name, appliedIndex, e.term, e.command, state.term)] else []
    {
      var entry := state.log[appliedIndex];
      appliedIndex := appliedIndex + 1;
      if entry.command != "" {
        events := events + [Applied(name, appliedIndex, entry.term, entry.command, state.term)];
        applied := applied + [entry];
      }
    }

    /** The replica count the leader makes, itself included. */
    method CountReplicas(index: nat) returns (n: nat)
      ensures n == Replicas(peers, matchIndex, index)
    {
      n := 1;
      for i := 0 to |peers|
        invariant n + Replicas(peers[i..], matchIndex, index) == 1 + Replicas(peers, matchIndex, index)
      {
        assert peers[i..][1..] == peers[i + 1..];
        if peers[i] in matchIndex && matchIndex[peers[i]] >= index {
          n := n + 1;
        }
      }
    }

    method AdvanceCommitIn(term': nat)
      requires Valid()
      modifies this`commitIndex, this`appliedIndex, this`applied, this`events
      ensures Valid() && Marks(peers, matchIndex, state.log, old(commitIndex), term', commitIndex)
      ensures appliedIndex ==
        if commitIndex == old(commitIndex) then old(appliedIndex) else Max(old(appliedIndex), Min(commitIndex, |state.log|))
      ensures AppliesOn(name, state.term, state.log, old(appliedIndex), appliedIndex, old(applied), applied, old(events), events)
      ensures var (p, news) := AdvanceCommit(old(Snapshot()), term');
        Snapshot() == p && events == old(events) + news
    {
      hide Marks, AppliesOn, Stored;
      ScanRule(Snapshot(), term', |state.log|);
      AppliesNone(name, state.term, state.log, appliedIndex, applied, events);
      var index: nat := |state.log|;
      while index > commitIndex
        invariant index <= |state.log| && Snapshot() == old(Snapshot()) && events == old(events)
        invariant Scan(Snapshot(), term', |state.log|) == Scan(Snapshot(), term', index)
      {
        var replicas := CountReplicas(index);
        if replicas < Quorum(|peers| + 1) {
          index := index - 1;
          continue;
        }
        if state.log[index - 1].term != term' {
          return;
        }
        commitIndex := index;
        Apply();
        return;
      }
    }

    /** A pusher reads its live log; past its end there is nothing to read, and it dies. */
    method BuildAppend(to: Name) returns (m: Option<Request>)
      requires tasks.pushTerm.Some? && to in nextIndex
      ensures m.None? <==> nextIndex[to] > |state.log| + 1
      ensures m.Some? ==>
        && m.value.AppendEntries? && m.value.term == tasks.pushTerm.value && m.value.leader == name && m.value.commit == commitIndex
        && m.value.prev + 1 == nextIndex[to] && m.value.entries == state.log[m.value.prev..]
        && m.value.prevTerm == (if m.value.prev == 0 then 0 else state.log[m.value.prev - 1].term)
      ensures m.Some? ==> m.value == AppendRequest(Snapshot(), to)
    {
      var prev := (nextIndex[to] as int) - 1;
      if prev > |state.log| {
        return None;
      }
      var entries := state.log[prev..];
      return Some(AppendEntries(tasks.pushTerm.value, name, prev, if prev > 0 then state.log[prev - 1].term else 0,
                                entries, commitIndex));
    }

    /** A pusher's turn: it waits on the call it has built, or it has died of building it. */
    method SendAppend(to: Name, call: nat) returns (m: Option<Request>)
      requires Valid() && tasks.pushTerm.Some? && to in nextIndex
      modifies this`tasks
      ensures Valid() && (m.None? <==> old(Snapshot()).nextIndex[to] > |old(Snapshot()).log| + 1)
      ensures m.Some? ==> m.value == AppendRequest(old(Snapshot()), to)
      ensures Snapshot() == old(Snapshot()).(pushers :=
        if m.None? then old(tasks.pushers) - {to} else old(tasks.pushers)[to := Pushing(call)])
    {
      hide AppendRequest;
      m := BuildAppend(to);
      tasks := tasks.(pushers := if m.None? then tasks.pushers - {to} else tasks.pushers[to := Pushing(call)]);
    }

    method StopPushing()
      requires Valid()
      modifies this`tasks
      ensures Valid() && Snapshot() == old(Snapshot()).(pushTerm := None, pushers := map[])
    {
      tasks := tasks.(pushTerm := None, pushers := map[]);
    }

    /** A later term deposes; a reply to a leadership that is over ends the pusher; success moves both indices
        past what was sent and the mark to the greatest index a majority holds; refusal backs off by one. */
    method ReadAppendReply(from: Name, m: Request, reply: Option<Reply>)
      requires Valid() && m.AppendEntries? && tasks.pushTerm.Some? && from in nextIndex
      requires reply.Some? ==> reply.value.Appended?
      modifies this`state, this`role, this`tasks, this`nextIndex, this`matchIndex, this`commitIndex, this`appliedIndex, this`applied, this`events, storage.disk
      ensures Valid() && state.log == old(state.log)
      ensures reply.Some? && reply.value.term > old(state.term) ==>
        state == Record(reply.value.term, None, old(state.log)) && role == Follower
      ensures !(reply.Some? && reply.value.term > old(state.term)) ==> state == old(state) && role == old(role)
      ensures tasks == old(tasks).(pushers := tasks.pushers)
      ensures var leads := old(role) == Leader && old(state.term) == old(tasks.pushTerm).value
          && !(reply.Some? && reply.value.term > old(state.term));
        var held := m.prev + |m.entries|;
        && tasks.pushers == (if leads then old(tasks.pushers)[from := Idle] else old(tasks.pushers) - {from})
        && (!leads || reply.None? ==>
              nextIndex == old(nextIndex) && matchIndex == old(matchIndex) && commitIndex == old(commitIndex))
        && (leads && reply.Some? && reply.value.ok ==>
              && nextIndex == old(nextIndex)[from := held + 1] && matchIndex == old(matchIndex)[from := held]
              && Marks(peers, matchIndex, state.log, old(commitIndex), state.term, commitIndex))
        && (leads && reply.Some? && !reply.value.ok ==>
              && matchIndex == old(matchIndex) && commitIndex == old(commitIndex)
              && nextIndex == old(nextIndex)[from := if old(nextIndex)[from] == 1 then 1 else old(nextIndex)[from] - 1])
      ensures var (p, news) := OnAppendReply(old(Snapshot()), from, m, reply);
        Snapshot() == p && events == old(events) + news
    {
      hide AdvanceCommit, Stored, Marks, AppliesOn;
      if reply.Some? && reply.value.term > state.term {
        tasks := tasks.(pushers := tasks.pushers - {from});
        BecomeFollowerAt(reply.value.term);
        return;
      }
      if role != Leader || state.term != tasks.pushTerm.value {
        tasks := tasks.(pushers := tasks.pushers - {from});
        return;
      }
      tasks := tasks.(pushers := tasks.pushers[from := Idle]);
      if reply.Some? {
        Hear(from, m, reply.value.ok);
      }
    }

    /** A follower's answer to the leader of the current term. */
    method Hear(from: Name, m: Request, ok: bool)
      requires Valid() && m.AppendEntries? && from in nextIndex
      modifies this`nextIndex, this`matchIndex, this`commitIndex, this`appliedIndex, this`applied, this`events
      ensures Valid()
      ensures ok ==>
        && nextIndex == old(nextIndex)[from := m.prev + |m.entries| + 1]
        && matchIndex == old(matchIndex)[from := m.prev + |m.entries|]
        && Marks(peers, matchIndex, state.log, old(commitIndex), state.term, commitIndex)
      ensures !ok ==>
        && matchIndex == old(matchIndex) && commitIndex == old(commitIndex)
        && nextIndex == old(nextIndex)[from := if old(nextIndex)[from] == 1 then 1 else old(nextIndex)[from] - 1]
      ensures var o := old(Snapshot()).(nextIndex := nextIndex, matchIndex := matchIndex);
        (Snapshot(), events) == if ok then var (p, news) := AdvanceCommit(o, state.term); (p, old(events) + news) else (o, old(events))
    {
      hide AdvanceCommit, Stored, Marks, AppliesOn;
      if ok {
        matchIndex := matchIndex[from := m.prev + |m.entries|];
        nextIndex := nextIndex[from := m.prev + |m.entries| + 1];
        AdvanceCommitIn(state.term);
      } else {
        nextIndex := nextIndex[from := Max(1, (nextIndex[from] as int) - 1)];
      }
    }

    method HandlePropose(command: string) returns (ok: bool, index: nat)
      requires Valid()
      modifies this`state, storage.disk
      ensures Valid() && (ok <==> role == Leader && command != "")
      ensures state == old(state).(log := old(state.log) + if ok then [Entry(old(state.term), command)] else [])
      ensures (Snapshot(), ok) == OnPropose(old(Snapshot()), command)
      ensures ok ==> index == |state.log| > 0 && state.log[index - 1] == Entry(state.term, command)
    {
      if role != Leader {
        return false, 0;
      }
      if command == "" {
        return false, 0;
      }
      state := state.(log := state.log + [Entry(state.term, command)]);
      Persist();
      return true, |state.log|;
    }
  }

  /** The peer after its state machine has seen one more entry. */
  ghost function AppliedOne(p: Peer): Peer
    requires p.appliedIndex < ApplyLimit(p)
  {
    var e := p.log[p.appliedIndex];
    p.(appliedIndex := p.appliedIndex + 1, applied := if e.command != "" then p.applied + [e] else p.applied)
  }

  lemma ApplyDone(p: Peer)
    requires p.appliedIndex >= ApplyLimit(p)
    ensures ApplyCommitted(p) == p && ApplyEvents(p) == []
  {
  }

  /** Applying one entry and then the rest is applying all of them. */
  lemma ApplyRest(p: Peer)
    requires p.appliedIndex < ApplyLimit(p)
    ensures ApplyCommitted(AppliedOne(p)) == ApplyCommitted(p)
  {
    hide Visible;
    var q, i, hi := AppliedOne(p), p.appliedIndex, ApplyLimit(p);
    assert ApplyLimit(q) == hi;
    VisibleRest(p.applied, p.log, i, hi);
    if i + 1 == hi {
      assert ApplyCommitted(q) == q;
    } else {
      assert ApplyCommitted(q) == q.(appliedIndex := hi, applied := q.applied + Visible(p.log[i + 1..hi]));
    }
  }

  lemma VisibleRest(applied: seq<Entry>, log: Log, i: nat, hi: nat)
    requires i < hi <= |log|
    ensures var more := if log[i].command != "" then applied + [log[i]] else applied;
      && applied + Visible(log[i..hi]) == more + Visible(log[i + 1..hi])
      && (i + 1 == hi ==> more == applied + Visible(log[i..hi]))
  {
    var rest := log[i + 1..hi];
    assert log[i..hi] == [log[i]] + rest;
    assert ([log[i]] + rest)[1..] == rest;
    assert rest == [] ==> Visible(rest) == [];
  }

  lemma EventsRest(p: Peer)
    requires p.appliedIndex < ApplyLimit(p)
    ensures var e := p.log[p.appliedIndex];
      var event := Applied(p.name, p.appliedIndex + 1, e.term, e.command, p.term);
      ApplyEvents(p) == (if e.command != "" then [event] else []) + ApplyEvents(AppliedOne(p))
  {
    EventsSame(p, AppliedOne(p), p.appliedIndex + 1, ApplyLimit(p));
  }

  lemma {:induction false} EventsSame(p: Peer, q: Peer, lo: nat, hi: nat)
    requires p.log == q.log && p.name == q.name && p.term == q.term
    ensures EventsBetween(p, lo, hi) == EventsBetween(q, lo, hi)
    decreases hi - lo
  {
    if lo < hi && lo < |p.log| {
      EventsSame(p, q, lo + 1, hi);
    }
  }

  /** A power cut at any point, even inside a save, and a boot from what is left. */
  method PowerCycle(node: Node, draw: nat) returns (next: Node)
    requires node.storage.disk.Valid() && draw <= |node.storage.disk.journal|
    modifies node.storage.disk
    ensures fresh(next) && next.Valid() && next.storage == node.storage && next.events == node.events
    ensures var r := Stored(old(node.storage.disk.History())[if node.storage.disk.torn then draw else 0]);
      next.Snapshot() == Booted(node.name, node.peers, r.term, r.votedFor, r.log)
    ensures old(node.Valid()) ==> next.Snapshot() == Reboot(old(node.Snapshot()))
  {
    node.storage.disk.Crash(draw);
    next := new Node(node.name, node.peers, node.storage, node.events);
  }
}
