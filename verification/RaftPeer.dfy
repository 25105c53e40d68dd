/**
  One Raft peer as a value, and every block of its code that runs between two
  awaits as a function on that value.
*/
module RaftPeer {
  import opened Helpers
  import opened RaftLog

  datatype Role = Follower | Candidate | Leader

  datatype Request =
    | RequestVote(term: nat, candidate: Name, lastIndex: nat, lastTerm: nat)
    | AppendEntries(term: nat, leader: Name, prev: nat, prevTerm: nat, entries: seq<Entry>, commit: nat)

  datatype Reply =
    | Voted(term: nat, granted: bool)
    | Appended(term: nat, ok: bool)

  /** The observable facts the safety checks read. */
  datatype Event =
    | Led(name: Name, term: nat, log: Log)
    | Applied(name: Name, index: nat, term: nat, command: string, nodeTerm: nat)

  /** A solicitor task has not sent its request yet, or waits on one call. */
  datatype Solicitor = Unsent | Asking(call: nat)

  /** A pusher task is between calls, or waits on one call. */
  datatype Pusher = Idle | Pushing(call: nat)

  /** A log position counted from one. */
  type Index = k: nat | k > 0 witness 1

  datatype Peer = Peer(
    name: Name,
    peers: seq<Name>,
    term: nat,
    votedFor: Option<Name>,
    log: Log,
    role: Role,
    // the candidacy in progress: its term, the count, and its solicitor tasks
    campaign: nat,
    granted: nat,
    settled: bool,
    solicitors: map<Name, Solicitor>,
    // the leadership whose pusher tasks are alive, and what is known of each peer
    pushTerm: Option<nat>,
    pushers: map<Name, Pusher>,
    nextIndex: map<Name, Index>,
    matchIndex: map<Name, nat>,
    commitIndex: nat,
    appliedIndex: nat,
    applied: seq<Entry>)

  /** A fresh incarnation: what storage kept, and nothing else. */
  function Booted(name: Name, peers: seq<Name>, term: nat, votedFor: Option<Name>, log: Log): Peer {
    Peer(name, peers, term, votedFor, log, Follower, 0, 0, false, map[], None, map[], map[], map[], 0, 0, [])
  }

  function Reboot(p: Peer): Peer {
    Booted(p.name, p.peers, p.term, p.votedFor, p.log)
  }

  /** A dictionary giving every peer the same entry. */
  function Each<T>(peers: seq<Name>, v: T): map<Name, T> {
    map q | q in peers :: v
  }

  function QuorumOf(p: Peer): nat {
    Quorum(|p.peers| + 1)
  }

  // ------------------------------------------------------------------
  // Elections
  // ------------------------------------------------------------------

  function BecomeFollower(p: Peer, term: nat): Peer {
    p.(term := term, votedFor := None, role := Follower)
  }

  function CatchUp(p: Peer, term: nat): Peer {
    if term > p.term then BecomeFollower(p, term) else p
  }

  function Campaign(p: Peer): Peer {
    p.(term := p.term + 1, votedFor := Some(p.name), role := Candidate,
       campaign := p.term + 1, granted := 1, settled := false,
       solicitors := Each(p.peers, Unsent))
  }

  /** What a solicitor says of its node when it first runs, under the term it was started for. */
  function VoteRequest(p: Peer): Request {
    RequestVote(p.campaign, p.name, |p.log|, LastTerm(p.log))
  }

  function OnRequestVote(p: Peer, m: Request): (Peer, Reply)
    requires m.RequestVote?
  {
    var q := CatchUp(p, m.term);
    var refused := (q, Voted(q.term, false));
    if m.term < q.term then refused
    else if q.votedFor.Some? && q.votedFor.value != m.candidate then refused
    else if !AtLeastAsFresh(m.lastTerm, m.lastIndex, q.log) then refused
    else (q.(votedFor := Some(m.candidate)), Voted(q.term, true))
  }

  function OnVoteReply(p: Peer, from: Name, reply: Reply): Peer
    requires reply.Voted?
  {
    var q := p.(solicitors := p.solicitors - {from});
    if reply.term > q.term then BecomeFollower(q, reply.term).(settled := true)
    else if q.role != Candidate || q.term != q.campaign then q
    else if reply.granted then
      q.(granted := q.granted + 1, settled := q.settled || q.granted + 1 >= QuorumOf(q))
    else q
  }

  function BecomeLeader(p: Peer): Peer {
    p.(role := Leader,
       nextIndex := Each(p.peers, |p.log| + 1),
       matchIndex := Each(p.peers, 0),
       log := p.log + [Entry(p.term, "")],
       solicitors := map[],
       pushTerm := Some(p.term),
       pushers := Each(p.peers, Idle))
  }

  // ------------------------------------------------------------------
  // Replication
  // ------------------------------------------------------------------

  /** The append a pusher builds from the live log, under the term it was started for. */
  function AppendRequest(p: Peer, to: Name): Request
    requires p.pushTerm.Some? && to in p.nextIndex && p.nextIndex[to] <= |p.log| + 1
  {
    var prev := (p.nextIndex[to] as int) - 1;
    AppendEntries(p.pushTerm.value, p.name, prev, if prev > 0 then p.log[prev - 1].term else 0,
                  p.log[prev..], p.commitIndex)
  }

  /** The follower's loop: cut at the first conflicting term, append what is missing. */
  function Merge(log: Log, at: nat, entries: seq<Entry>): Log
    decreases |entries|
  {
    if entries == [] then log
    else
      var cut := if at < |log| && log[at].term != entries[0].term then log[..at] else log;
      var grown := if at >= |cut| then cut + [entries[0]] else cut;
      Merge(grown, at + 1, entries[1..])
  }

  predicate Matches(log: Log, prev: nat, prevTerm: nat) {
    prev <= |log| && (prev > 0 ==> log[prev - 1].term == prevTerm)
  }

  function OnAppendEntries(p: Peer, m: Request): (Peer, Reply, seq<Event>)
    requires m.AppendEntries?
  {
    var q := CatchUp(p, m.term);
    if m.term < q.term then (q, Appended(q.term, false), [])
    else
      var r := if q.role == Candidate then q.(role := Follower) else q;
      if !Matches(r.log, m.prev, m.prevTerm) then (r, Appended(r.term, false), [])
      else
        var s := r.(log := Merge(r.log, m.prev, m.entries));
        if m.commit <= s.commitIndex then (s, Appended(s.term, true), [])
        else
          var c := s.(commitIndex := Max(s.commitIndex, Min(m.commit, m.prev + |m.entries|)));
          (ApplyCommitted(c), Appended(s.term, true), ApplyEvents(c))
  }

  /** The no-op never reaches the state machine. */
  function Visible(entries: seq<Entry>): seq<Entry> {
    if entries == [] then []
    else (if entries[0].command != "" then [entries[0]] else []) + Visible(entries[1..])
  }

  function ApplyLimit(p: Peer): nat {
    Min(p.commitIndex, |p.log|)
  }

  function ApplyCommitted(p: Peer): Peer {
    var hi := ApplyLimit(p);
    if p.appliedIndex < hi then
      p.(appliedIndex := hi, applied := p.applied + Visible(p.log[p.appliedIndex..hi]))
    else p
  }

  function ApplyEvents(p: Peer): seq<Event> {
    EventsBetween(p, p.appliedIndex, ApplyLimit(p))
  }

  function EventsBetween(p: Peer, lo: nat, hi: nat): seq<Event>
    decreases hi - lo
  {
    if lo >= hi || lo >= |p.log| then []
    else
      var e := p.log[lo];
      (if e.command != "" then [Applied(p.name, lo + 1, e.term, e.command, p.term)] else [])
      + EventsBetween(p, lo + 1, hi)
  }

  /** How many nodes, the leader included, are known to hold the log through `index`. */
  function Replicas(peers: seq<Name>, matchIndex: map<Name, nat>, index: nat): nat {
    if peers == [] then 1
    else
      (if peers[0] in matchIndex && matchIndex[peers[0]] >= index then 1 else 0)
      + Replicas(peers[1..], matchIndex, index)
  }

  /** The downward scan over the log, with its early return past the leader's own term. */
  function Scan(p: Peer, term: nat, index: nat): nat
    requires index <= |p.log|
  {
    if index <= p.commitIndex then p.commitIndex
    else if Replicas(p.peers, p.matchIndex, index) < QuorumOf(p) then Scan(p, term, index - 1)
    else if p.log[index - 1].term != term then p.commitIndex
    else index
  }

  function AdvanceCommit(p: Peer, term: nat): (Peer, seq<Event>) {
    var to := Scan(p, term, |p.log|);
    if to <= p.commitIndex then (p, [])
    else
      var c := p.(commitIndex := to);
      (ApplyCommitted(c), ApplyEvents(c))
  }

  /** One pusher hears back from its call, or gives up on it. */
  function OnAppendReply(p: Peer, from: Name, m: Request, reply: Option<Reply>): (Peer, seq<Event>)
    requires m.AppendEntries? && p.pushTerm.Some? && from in p.nextIndex
    requires reply.Some? ==> reply.value.Appended?
  {
    var gone := p.(pushers := p.pushers - {from});
    var idle := p.(pushers := p.pushers[from := Idle]);
    if reply.Some? && reply.value.term > p.term then (BecomeFollower(gone, reply.value.term), [])
    else if p.role != Leader || p.term != p.pushTerm.value then (gone, [])
    else if reply.None? then (idle, [])
    else if reply.value.ok then
      var held := m.prev + |m.entries|;
      AdvanceCommit(idle.(matchIndex := p.matchIndex[from := held], nextIndex := p.nextIndex[from := held + 1]),
                    p.pushTerm.value)
    else (idle.(nextIndex := p.nextIndex[from := Max(1, (p.nextIndex[from] as int) - 1)]), [])
  }

  function OnPropose(p: Peer, command: string): (Peer, bool) {
    if p.role != Leader || command == "" then (p, false)
    else (p.(log := p.log + [Entry(p.term, command)]), true)
  }
}
