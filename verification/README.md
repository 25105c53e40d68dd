# A verified model of simloop and its two demos

simloop is a deterministic asyncio event loop: it draws every scheduling
decision, simulates hosts, disks, links and streams, records what it did, and can
replay, shrink and search schedules.  Two distributed systems are built on it: a
Raft peer and a leased job queue.  This project models the parts of all three
that are hard to get right, and proves what they promise for every input, every
run and every reachable state.

`dafny verify dfyconfig.toml` checks everything.

## How the pieces fit

**Raft** (`Raft*.dfy`).  `RaftPeer` gives every block of the peer that runs
between two awaits as a function.  `RaftCluster` is the step relation: any
interleaving of those blocks at any number of peers, requests and replies delayed,
reordered or lost without bound, crashes and reboots.  A pusher builds its append
from the live log under the term it was started for, so a just-deposed leader can
send a newer leader's log under an older term; the cluster allows it.  `RaftCore`
and `RaftActions` are the argument: the history a run leaves behind (who won which
term on whose votes, with which log, and who acknowledged what) and an invariant
its moves keep.  `RaftShadow`, `RaftSim` and `RaftReplicate` show that every
cluster step is a move of that core, `RaftSafety` carries it along runs,
`RaftCommit` ties the commit scan to it, and `RaftTheorems` and `RaftPrompt` draw
the conclusions.  State-machine safety holds when the appends that are accepted were
built while their sender still led; `RaftDivergence` is a run of seven peers that
shows what happens otherwise.  `RaftMarks` says which step does the harm, in any run:
every commit mark, every mark on its way and everything applied stays within what a
majority has settled exactly until a follower accepts an append that conflicts with
an entry below its own mark.  `RaftApplied` follows that to the state machines: of
any two, one has seen all that the other has.  `RaftRules` says what the peer's loops
come to without naming them.  `RaftNode` is the peer as an object over `SimDisk`,
each method proved equal to its function and to leave the durable record equal to
memory, and `RaftMachines` a cluster of such objects with power cuts, which is proved
to trace out runs of `RaftCluster` and nothing else.

**Disk** (`SimDisk`).  A durable map behind an ordered journal and an overlay,
against a plain list of the maps a host could have read after each write.

**Scheduler** (`Loop`, `LoopRules`, `Replay`, `SimLoop`, `PctPolicy`).  The loop's state and
step as functions over a workload that is any deterministic function of the trace,
runs under any policy, record and replay, and the loop and the policies as
objects.

**Shrinker** (`Shrink`, `ShrinkExample`).  Two binary searches and ddmin over an
arbitrary oracle, with a budget, and a workload that defeats them.

**Streams** (`Stream`, `StreamProof`, `StreamOrder`, `StreamData`,
`StreamBreaks`, `StreamEnds`).  One direction of a connection.  Protocol callbacks may act on a
transport before the call that invoked them returns, so calls in progress are a
stack of frames, and any protocol action may come between two frames' own moves; a
buffered protocol is fed a packet in pieces of any size and may act between them.
`StreamProof` is what every run keeps, `StreamOrder` what a run keeps whose resumes
are orderly, `StreamData` ties the bytes to the writes, `StreamBreaks` exactly which resumes are not and two runs in which one
is made, and `StreamEnds` the connection as an object with a driver.

**Job queue** (`JobBroker`, `EffectStore`, `JobKeys`, `JobQueue`, `JobProof`,
`JobServices`, `JobExample`).  Broker, store, workers and clients, each on its own
and as one machine, and a run of it from submit to commit.

**Search and trace** (`Parallel`, `Trace`, `Decimals`).  `Helpers` holds what many
modules share.

## What a reader might not expect

- The textbook bound that log terms never exceed the current term does not hold
  for followers here, because of a deposed leader's pusher; it is proved for
  leaders (`RaftTheorems.LogsSorted`), which is where the commit scan needs it.
- A follower may be handed, and takes, an append that replaces entries it has already
  committed.  `RaftMarks.Conflicts` is the test it could make before taking one; with
  it state-machine safety needs nothing said about senders (`RaftMarks.UncutSafety`).
- `_trace.py` relies on labels holding no field separator.  The label is the last
  field of its line, so only a line end in it would matter.
- `_ddmin` promises that reverting any single step it keeps stops the failure.
  That fails for one step kept by a search that never tried all-FIFO
  (`ShrinkExample.OneStepTooMany`), and only then (`Shrink.ShrinkSchedule`).
- A buffered protocol that offers less room than a packet needs, and pauses and
  resumes reading between two pieces of it, can be handed later bytes, or the end of
  stream, before the rest of that packet (`StreamBreaks.BytesOvertake`,
  `StreamBreaks.EndOvertakes`).  `StreamOrder.Orderly` is the test to make before
  resuming; nothing else breaks order.
- A broker whose attempt limit is 0 still grants one lease before a job dies.

## Model

| member | source | states |
|---|---|---|
| RaftTheorems.ElectionSafety | examples/raft/raft/node.py:172-234 | Over any run, with restarts, no two leader events carry one term |
| RaftTheorems.WinHasMajority | examples/raft/raft/node.py:172-220 | Whoever wins does so on a majority of distinct nodes, each of which was once, in that term, on record as voting for it |
| RaftTheorems.VoteDurable | examples/raft/raft/node.py:322-340 | A vote once given is unchanged for as long as its term lasts, across crashes and reboots |
| RaftTheorems.CandidateLogFixed | examples/raft/raft/node.py:172-220 | A candidate's log is the same at every state of its candidacy, so what it said of it when asking is true when it wins |
| RaftTheorems.TermsRise | examples/raft/raft/node.py:383-387 | No peer's term ever falls, whatever happens to its process |
| RaftTheorems.LogMatching | examples/raft/raft/node.py:342-360 | In every reachable state two logs with the same term at an index agree up to it |
| RaftTheorems.LogsSorted | examples/raft/raft/node.py:222-234 | Every log's terms are non-decreasing, and a leader's are bounded by its own term |
| RaftTheorems.LeaderCompleteness | examples/raft/raft/node.py:290-306 | Whatever a leader of term t commits is at the head of the log of every leader of a later term, whichever event came first |
| RaftTheorems.ScanExact | examples/raft/raft/node.py:290-306 | On every run a leader's downward scan finds the greatest index it may commit, or leaves the mark alone |
| RaftCommit.ScanIsGreatest | examples/raft/raft/node.py:291-303 | With sorted terms no higher than the leader's, the early return misses nothing |
| RaftCommit.ReplicasCount | examples/raft/raft/node.py:292-295 | The replica count is one more than the number of distinct peers known to match |
| RaftCommit.CommitIsChosen | examples/raft/raft/node.py:290-306 | When a leader moves its mark, a majority has acknowledged its log to there, and the entry is of its own term |
| RaftRules.FreshTotal | examples/raft/raft/node.py:333-336 | Of any two logs one is at least as fresh as the other, and both are only if they are equally long and end in one term |
| RaftRules.MergeIs | examples/raft/raft/node.py:354-359 | A merge is the log itself if it knows every entry by term, and else its head up to the first it does not know and the entries from there |
| RaftRules.MergedHolds | examples/raft/raft/node.py:354-359 | After a merge every entry's place holds the entry, or one of its term that stood there |
| RaftRules.ApplyRule | examples/raft/raft/node.py:402-420 | Applying moves the cursor to the mark or the end of the log and applies and reports exactly the entries on the way that say something, once, in log order |
| RaftRules.ScanRule | examples/raft/raft/node.py:290-306 | The scan goes to the greatest index a majority is known to hold if its entry is of the leader's term, and otherwise leaves the mark alone |
| RaftApplied.AcceptedInPlace | examples/raft/raft/node.py:342-360 | In every run an accepted append leaves every entry it brought at its index, word for word |
| RaftApplied.MachinesAgree | examples/raft/raft/node.py:402-420 | As long as no accepted append cut into what its taker had committed, every state machine has seen what its log says up to its cursor, and of any two one has seen all that the other has, in the same order |
| RaftPrompt.StateMachineSafety | examples/raft/raft/node.py:402-420 | If every append that is accepted was built while its sender led the stamped term, no index is ever applied as two different things, at any node in any incarnation; appends that are lost or refused may have been built at any time |
| RaftPrompt.CommitWithinLog | examples/raft/raft/node.py:361-367 | Under the same hypothesis the commit mark never passes the end of the log |
| RaftPrompt.AppliedReachesLeaders | examples/raft/raft/node.py:402-420 | Under the same hypothesis an entry applied by a node in a term is in the log of every leader of a later term |
| RaftDivergence.DeposedSendersDiverge | examples/raft/raft/node.py:249-268 | Without the hypothesis there is a run, every pusher started as soon as it can be, in which two peers apply different commands at one index |
| RaftMarks.StepExact | examples/raft/raft/node.py:342-367 | From a state where every commit mark, every mark on its way and everything applied is within something chosen, a step of any kind leaves it so exactly when it is not an accepted append that conflicts with an entry below its follower's mark |
| RaftMarks.RunExact | examples/raft/raft/node.py:309-367 | Along any run, late appends and all, everything is so settled at every state up to the k-th exactly if no accepted append before it conflicted so |
| RaftMarks.UncutSafety | examples/raft/raft/node.py:402-420 | With no such append, no index is ever applied as two different things, at any node in any incarnation, however late appends were built |
| RaftMarks.PromptNeverCuts | examples/raft/raft/node.py:249-268 | If every accepted append was built while its sender led the stamped term, none conflicts with what its follower has committed |
| RaftMarks.MergeKeeps | examples/raft/raft/node.py:354-359 | The loop leaves the first entries of a log alone exactly when nothing it brings differs from them in term |
| RaftActions.ChosenSurvives | examples/raft/raft/node.py:172-220 | Every later reign opens with whatever a majority acknowledged |
| RaftActions.ChosenAgree | examples/raft/raft/node.py:290-306 | Any two chosen prefixes agree as far as both reach |
| RaftActions.GrantKeeps | examples/raft/raft/node.py:322-340 | A vote for a fresh candidate keeps the core invariant |
| RaftActions.AdoptKeeps | examples/raft/raft/node.py:342-360 | Taking over a sender's whole log, stale or not, keeps the core invariant |
| RaftActions.WinKeeps | examples/raft/raft/node.py:222-234 | Opening a reign on a majority's votes keeps the core invariant and finds the term unwon |
| RaftActions.ExtendKeeps | examples/raft/raft/node.py:370-377 | A leader's own append keeps the core invariant |
| RaftReplicate.MergeAdopts | examples/raft/raft/node.py:354-359 | Cutting at the first conflict and appending what is missing leaves the sender's whole log, or the receiver's own if that already extends it |
| RaftSafety.StepSim | examples/raft/raft/node.py:309-367 | Every step of the cluster is matched by moves of the core, so that what the core keeps the cluster keeps |
| RaftNode.Node.HandleRequestVote | examples/raft/raft/node.py:322-340 | A vote is given exactly if the term is current, the vote in it is free or already the candidate's, and the candidate's log ends in a later term than the voter's or in the same and is no shorter; term, vote and role are then what the answer says, and durable before it is told |
| RaftNode.Node.HandleAppendEntries | examples/raft/raft/node.py:342-368 | An append is taken exactly if its term is current and the log has the term it names at the index it names; then every entry it brings has its place, the mark follows the sender's as far as the append reaches, what it newly commits is applied once and in order, and memory and disk agree |
| RaftNode.Node.MergeEntries | examples/raft/raft/node.py:354-359 | The loop leaves the log alone if it knows every entry by term, and else keeps it up to the first it does not know and continues with the entries from there |
| RaftNode.Node.Apply | examples/raft/raft/node.py:402-420 | The cursor goes to the mark or the end of the log, and every entry passed that says something is applied and reported once, in log order, and nothing else is |
| RaftNode.Node.CountReplicas | examples/raft/raft/node.py:292-295 | The inner sum counts the matching peers and the leader |
| RaftNode.Node.AdvanceCommitIn | examples/raft/raft/node.py:290-306 | The mark goes to the greatest index a majority holds if its entry is of the leader's own term, and otherwise nowhere; what is newly committed is applied |
| RaftNode.Node.HandlePropose | examples/raft/raft/node.py:370-377 | A command is taken exactly if the peer leads and it is not the empty one, and is appended under the leader's term |
| RaftNode.Node.StartCampaign | examples/raft/raft/node.py:164-178 | A candidacy raises the term and votes for itself, durably |
| RaftNode.Node.Solicit | examples/raft/raft/node.py:182-195 | What a candidate says of its log is true of it as the request is sent |
| RaftNode.Node.ReadVote | examples/raft/raft/node.py:180-207 | A reply of a later term deposes and settles; a vote for the candidacy in progress counts, and the one that makes a majority settles; nothing else does |
| RaftNode.Node.TakeLead | examples/raft/raft/node.py:222-234 | The indices are one past the log before the no-op, which is durable before it is announced |
| RaftNode.Node.BuildAppend | examples/raft/raft/node.py:249-266 | The append is cut from the live log; past its end there is nothing to build |
| RaftNode.Node.SendAppend | examples/raft/raft/node.py:249-268 | A pusher waits on an append built from the live log under its own term, or dies of building it |
| RaftNode.Node.ReadAppendReply | examples/raft/raft/node.py:269-283 | A later term deposes; a reply to a leadership that is over ends the pusher; success moves both indices just past what was sent and the mark to the greatest index a majority holds; refusal backs the next index off by one, never below one |
| RaftNode.Node.BecomeFollowerAt | examples/raft/raft/node.py:383-387 | The new term and the cleared vote are durable |
| RaftNode.Node.Persist | examples/raft/raft/node.py:389-393 | Afterwards nothing is in flight and the disk holds what memory holds |
| RaftNode.DiskStorage.Save | examples/raft/raft/storage.py:88-93 | A power cut after a save finds the new record or the disk as it was, never a mixture |
| RaftNode.DiskStorage.Load | examples/raft/raft/storage.py:78-86 | What is read back is the record the disk's contents stand for |
| RaftNode.PowerCycle | examples/raft/raft/storage.py:78-96 | A torn power cut at any point and a boot lose only role, commit mark, applied list and tasks |
| RaftMachines.Machines.Perform | examples/raft/raft/node.py:161-420 | One block of one node object, one power cut or one boot: the cluster of objects moves as the cluster model does, and every disk agrees with its node's memory again |
| RaftMachines.Machines.CutPower | examples/raft/raft/storage.py:78-96 | What boots from the disk after a cut between two blocks is the node without what it kept in memory alone, and no other machine is touched |
| RaftMachines.Machines.Drive | examples/raft/raft/node.py:161-420 | Driven by any list of blocks and power cuts, the node objects trace out a run of the model; no term has two leaders, logs match, and unless an append cut into what was committed no index was applied as two different things and of two state machines one has seen all that the other has |
| SimDisk.OverlayReadsReplay | src/simloop/_net.py:328-334 | Reading through the overlay is reading the journal replayed over the durable map |
| SimDisk.SnapshotsAppend | src/simloop/_net.py:336-341 | A queued write adds one map a torn crash may return to |
| SimDisk.Disk.Sync | src/simloop/_net.py:296-304 | Everything the host reads becomes durable, and nothing it reads changes |
| SimDisk.Disk.Configure | src/simloop/_net.py:306-311 | What is queued lands first; tearing without a buffer is refused |
| SimDisk.Disk.Crash | src/simloop/_net.py:313-326 | What is left is what the host could read after some first k writes since the last sync; k is 0 if the disk does not tear, and nothing is lost if it is unbuffered |
| SimDisk.Disk.Get | src/simloop/_net.py:328-334 | A read finds exactly what the plain map holds |
| SimDisk.Disk.Set | src/simloop/_net.py:336-341 | A write changes one key of what the host reads |
| SimDisk.Disk.Delete | src/simloop/_net.py:343-349 | A delete removes a key the host can read, and refuses any other without changing anything |
| SimDisk.Disk.Len | src/simloop/_net.py:356-370 | The merged count is the size of the plain map |
| SimDisk.MergedKeys | src/simloop/_net.py:356-365 | Durable keys not deleted and keys the queue invented are the readable ones, each once |
| Loop.RunKeeps | src/simloop/_loop.py:344-508 | In every run of every policy, every callback is accounted for once, the trace is in time order with ends after starts, timers are kept in the order of deadline and number, none is ready or has run before its true deadline, and the choices logged are those made |
| Loop.OncePlaced | src/simloop/_loop.py:344-508 | Every callback was scheduled once and is ready, waiting or finished, once |
| Loop.StepKeeps | src/simloop/_loop.py:469-491 | A step keeps the invariant, moves no clock back, erases no event and logs its choice |
| Loop.PreparedKeeps | src/simloop/_loop.py:493-508 | A policy is shown an empty queue only if nothing is ready and every timer is cancelled |
| Loop.PushIds | src/simloop/_loop.py:445-467 | Pushing a timer adds it once and loses none |
| Loop.AtPunctual | src/simloop/_loop.py:427-467 | A timer scheduled off any host's clock keeps every timer due no earlier than its true deadline |
| Loop.ReleaseConserves | src/simloop/_loop.py:503-508 | A due timer moves to the ready queue or to the cancelled, and to one of them only |
| Loop.ClockAdvances | src/simloop/_loop.py:493-502 | Over any run the true clock never goes back |
| LoopRules.FireIs | src/simloop/_loop.py:482-491 | The chosen callback leaves the queue with one event: a cancel event, and nothing else changes, exactly if it was cancelled; otherwise a run event, and what it asks for follows |
| LoopRules.RunHeeds | src/simloop/_loop.py:482-508 | In every run, what a step runs had not been cancelled before the step and what it skips had |
| LoopRules.CancelledNeverRuns | src/simloop/_loop.py:485-490 | Nothing runs once it has been cancelled |
| LoopRules.SkippedWereCancelled | src/simloop/_loop.py:485-508 | Every cancel event is of a callback cancelled before the step that recorded it |
| LoopRules.ClockStops | src/simloop/_loop.py:493-508 | With nothing ready the clock stops at the earliest live deadline, exactly the live timers due by then become ready, in order of deadline and then of number, and with no live timer it does not move |
| LoopRules.PerformJoin | src/simloop/_loop.py:344-470 | What a callback asks for is done one thing after another |
| Replay.RecordReplay | src/simloop/_policy.py:102-112 | Replaying a recording reproduces every state and trace event of the run that made it, with no divergence |
| Replay.RecordedReplays | src/simloop/_loop.py:270-285 | Any policy's run is itself a replay of the choices it logged |
| Replay.ReplayDetermined | src/simloop/_policy.py:75-112 | Two replays of one list agree step for step |
| Replay.EditedReplays | src/simloop/_policy.py:102-112 | Any list of choices replays as a legal run, for as long as there is anything to run |
| Replay.DivergenceExact | src/simloop/_policy.py:114-118 | No divergence is reported exactly when the list was long enough and followed to the letter |
| Replay.DivergedFirst | src/simloop/_policy.py:114-118 | The step remembered is the first for which the script had no choice that was there to make |
| Replay.TrailingZero | src/simloop/_shrink.py:91-94 | A trailing FIFO choice changes nothing about how a list replays |
| Replay.ReplayOracleBlind | src/simloop/_shrink.py:157-163 | So an oracle that judges lists by their replays cannot see trailing zeros |
| SimLoop.ScriptedPolicy.Choose | src/simloop/_policy.py:102-118 | The choice is the script's clamped to the queue, FIFO past the end, and the first step whose choice the script did not make is remembered |
| SimLoop.FromChoices | src/simloop/_policy.py:91-100 | Exactly the lists that could have been recorded make a policy |
| SimLoop.EventLoop.CallLater | src/simloop/_loop.py:411-425 | The new timer is due the delay after the true clock; the handle shows the caller's |
| SimLoop.EventLoop.CallAt | src/simloop/_loop.py:427-443 | The new timer is due at the reading less the caller's offset, in true time, and keeps that number and deadline |
| SimLoop.EventLoop.AdvanceClock | src/simloop/_loop.py:493-508 | The two loops stop the clock at the earliest live deadline and ready exactly what is due, in order, or report the deadlock |
| SimLoop.EventLoop.RunChosen | src/simloop/_loop.py:469-491 | The chosen callback leaves the queue; if it was cancelled one cancel event says so and nothing else changes; if not, one run event does and what it asks for follows |
| SimLoop.EventLoop.StepScripted | src/simloop/_loop.py:469-491 | One step under a script is the model's step with the scripted answer, and the policy never sees an empty queue |
| SimLoop.EventLoop.RunScript | src/simloop/_loop.py:270-285 | Driving the loop with a script is a replay of it, to the same state and the same divergence |
| PctPolicy.Policy.Choose | src/simloop/_policy.py:187-199 | The highest price runs, the earliest of equals, new owners priced by their draw; a change point demotes the one that runs below everything; so a demoted owner runs only when all ready owners are demoted, then the one whose latest demotion is oldest; never more than depth - 1 demotions, and all of them once the horizon is past |
| PctPolicy.Policy.Leader | src/simloop/_policy.py:187-195 | The earliest of the highest priorities wins, with every ready owner priced |
| PctPolicy.LeaderDiscipline | src/simloop/_policy.py:173-185 | Priorities order owners by first draw and then by the age of their demotion |
| PctPolicy.PassedBound | src/simloop/_policy.py:166-169 | Change points passed never exceed those sampled, and reach them at the horizon |
| Shrink.ShrinkSchedule | src/simloop/_shrink.py:58-102 | None exactly when the recording does not fail; otherwise a reduction of it that fails, after as many runs as the search costs or the budget allows; and if the budget covers the cost, resetting any kept step stops the failure exactly unless one step is kept and all-FIFO fails; so it always does if all-FIFO passes |
| ShrinkExample.OneStepTooMany | src/simloop/_shrink.py:216-252 | The exception is real: a workload and a recording of it for which the finished search keeps one step whose reset still fails |
| ShrinkExample.WrongIsReplayed | src/simloop/_shrink.py:157-163 | That workload's oracle is, for every list, the verdict of replaying it |
| Shrink.Search.Probe | src/simloop/_shrink.py:142-150 | The budget counts runs; a failing reduction of the best becomes the best |
| Shrink.Search.ShortestPrefix | src/simloop/_shrink.py:181-197 | The prefix kept is known to fail, is the best so far, and one step fewer was seen not to; the pass is done exactly when the budget covers its runs |
| Shrink.Search.FifoPrefix | src/simloop/_shrink.py:200-213 | The tail kept is known to fail, is the best so far, and one step more was seen not to; the pass is done exactly when the budget covers its runs |
| Shrink.Search.Ddmin | src/simloop/_shrink.py:216-252 | What is kept is known to fail, is the best so far, and if more than one step is left none can be dropped; the pass is done exactly when the budget covers its runs |
| Shrink.Search.FirstFailingChunk | src/simloop/_shrink.py:234-237 | Either a chunk fails and becomes the best, or every chunk was seen to pass |
| Shrink.Search.FirstFailingComplement | src/simloop/_shrink.py:255-267 | Likewise for the complements of the chunks |
| Shrink.Search.Minimize | src/simloop/_shrink.py:84-88 | The three passes together run exactly what they cost or all that the budget has, and come to the finished search exactly when it covers them |
| Shrink.ReductionRanks | src/simloop/_shrink.py:148-154 | A list cut short or handed back to FIFO ranks strictly better unless it is the same list |
| Shrink.WeightCounts | src/simloop/_shrink.py:153-154 | The first rank of a list is the number of its steps that are not FIFO |
| Shrink.BuildCandidate | src/simloop/_shrink.py:171-178 | Recorded choices at the kept steps, FIFO elsewhere |
| Shrink.Split | src/simloop/_shrink.py:270-277 | Non-empty, near-equal cuts that put together are the whole |
| Shrink.SinglesDecide | src/simloop/_shrink.py:232-250 | At the finest granularity the probes that passed are 1-minimality |
| Shrink.ReturnedMinimal | src/simloop/_shrink.py:91-102 | Minimality of the selection is minimality of the trimmed list, but for the one exception |
| Parallel.FindLowestFailure | src/simloop/_parallel.py:114-154 | For any jobs, batch size and completion order, the answer is the first failing position |
| Parallel.Frontier.Take | src/simloop/_parallel.py:189-197 | A batch that is taken could hold an earlier failure, and a refusal means no batch still waiting could |
| Parallel.Frontier.Record | src/simloop/_parallel.py:199-204 | The earlier of two failures is kept |
| Parallel.RunBatch | src/simloop/_parallel.py:236-253 | A worker reports the first failure of its batch |
| Parallel.BatchSize | src/simloop/_parallel.py:157-165 | Between one and the cap, and the greatest that leaves four turns a worker |
| Parallel.BatchesTile | src/simloop/_parallel.py:168-170 | The batches cover the positions end to end |
| Parallel.EarliestIs | src/simloop/_parallel.py:236-253 | The sequential answer fails, and nothing before it does |
| Parallel.DoneIsEarliest | src/simloop/_parallel.py:149-150 | With nothing running and nothing worth taking, the best so far is the sequential answer |
| StreamOrder.PrefixDelivery | src/simloop/_transports.py:418-460 | Under any latencies, cuts, heals, losses and pauses, and with packets taken whole or in any pieces, a reader whose resumes are orderly has been handed a prefix of what was written, and the end is reported only after all of it |
| StreamOrder.NothingStuck | src/simloop/_net.py:667-687 | With nothing on the wire, held or lost and reading not paused, such a reader has been handed every byte, in order |
| StreamOrder.PlainIsOrderly | src/simloop/_transports.py:418-422 | A protocol that takes packets whole has no packet half fed, so every run of it is orderly |
| StreamData.SentSays | src/simloop/_transports.py:261-267 | Over any run the data in the stream is the data of the writes that were not refused, in order |
| StreamData.DataInOrder | src/simloop/_transports.py:418-460 | Over any orderly run the bytes handed up are a prefix of what the accepted writes said, and all of it when the end is told |
| StreamData.DataArrived | src/simloop/_net.py:667-687 | With nothing on the wire, held or lost and reading not paused, they are all of it |
| StreamData.DataTrue | src/simloop/_transports.py:438-447 | Over any run, orderly or not, a byte handed up is the byte that was written at its place |
| StreamOrder.StepOrder | src/simloop/_transports.py:418-493 | Every orderly step keeps what was dispatched equal to what was handed up, then fed, then parked |
| StreamBreaks.ResumeExact | src/simloop/_transports.py:481-493 | A resume keeps its promises whatever comes of the calls it is in the middle of exactly when nothing of a packet is left to feed, or nothing is parked behind it |
| StreamBreaks.BytesOvertake | src/simloop/_transports.py:418-436 | A run in which a reader that takes one byte, pauses and resumes is handed the next packet before the rest of this one |
| StreamBreaks.EndOvertakes | src/simloop/_transports.py:481-493 | A run in which such a reader is told of the end before its last byte |
| StreamProof.EachOnce | src/simloop/_transports.py:438-447 | In every run, orderly or not, no byte is handed up twice and none that was not written |
| StreamProof.NothingLost | src/simloop/_net.py:667-687 | In every run, with nothing on the wire, held or lost and reading not paused, every byte has been handed up, once |
| StreamProof.FlowConserved | src/simloop/_transports.py:335-359 | At every step boundary an open writer's buffer is the bytes written less those handed up, in every run; only a peer that went away in the middle of a packet leaves bytes unpaid |
| StreamProof.WatermarksHold | src/simloop/_transports.py:361-387 | Over the high mark means paused, paused means over the low one, and the callbacks alternate |
| StreamProof.SignalsDue | src/simloop/_transports.py:361-387 | A writer is told to pause only with more than the high mark in its buffer and to resume only with no more than the low one, one thing a step |
| StreamProof.HandedGrows | src/simloop/_transports.py:438-447 | Over any run, what was handed up is never taken back |
| StreamProof.StepKeeps | src/simloop/_net.py:726-823 | Every step of a stream, pieces of packets included, keeps every packet in one place, every byte accounted for, and every count right |
| StreamProof.DrainKeeps | src/simloop/_transports.py:481-493 | A drain turn starts on what was parked first, loses nothing of it, and lets the end of stream through only after the backlog |
| StreamProof.FeedKeeps | src/simloop/_transports.py:418-436 | A turn of the feeding loop hands up any piece of a packet, or pays for the whole of it, and keeps every count right |
| StreamProof.CreditKeeps | src/simloop/_transports.py:341-359 | A credit pays off what was charged and is never clamped |
| StreamProof.LimitsLegal | src/simloop/_transports.py:29-43 | The derived watermarks are those given, four times the low one, a quarter of the high one, or 64 KiB, and are accepted exactly for ordered, non-negative arguments |
| StreamEnds.Connection.WriteData | src/simloop/_transports.py:261-267 | A write that is not refused adds its bytes, in their order, to the end of the stream and is charged for; a refused one leaves no trace; the invariant holds before and after |
| StreamEnds.Connection.SendEof | src/simloop/_transports.py:273-277 | Unless the connection is gone the end of stream is in the stream afterwards, once, behind everything written |
| StreamEnds.Connection.CloseGently | src/simloop/_transports.py:282-289 | A close refuses later writes and leaves the end of stream sent, behind everything written |
| StreamEnds.Connection.ForceClose | src/simloop/_transports.py:291-305 | An abort refuses later writes and takes its turn behind everything sent |
| StreamEnds.Connection.Finish | src/simloop/_transports.py:307-324 | Nothing is owed on a connection that is gone, and no paused writer is told to resume |
| StreamEnds.Connection.DispatchTurn | src/simloop/_net.py:787-823 | The head of the reassembly queue is never skipped, the loop ends only when there is none, and every packet does to the reader and its protocol what its kind says |
| StreamEnds.Connection.DrainTurn | src/simloop/_transports.py:481-493 | What was parked first goes up first, and the end of stream only with nothing parked in front of it |
| StreamEnds.Connection.FeedTurn | src/simloop/_transports.py:418-447 | Pieces of a packet go up in order, and its whole credit is paid, unclamped, when none is left |
| StreamEnds.Connection.PauseRead | src/simloop/_transports.py:476-479 | An open reader is paused afterwards, with everything given to it still accounted for |
| StreamEnds.Connection.ResumeRead | src/simloop/_transports.py:481-484 | An orderly resume keeps a stream in order; the result says whether it was one |
| StreamEnds.Connection.Deliver | src/simloop/_net.py:750-785 | A packet leaves the wire for exactly one place: lost with a machine, held by a cut, or the reassembly queue |
| StreamEnds.Connection.HealLink | src/simloop/_net.py:667-672 | Every held packet is on the wire again, and none is lost |
| StreamEnds.Connection.Drive | src/simloop/_transports.py:183-493 | Driven by any list of steps, the object hands up no byte twice, keeps its write buffer exact, and, as long as every resume was orderly, delivers in order with the end last |
| JobBroker.SubmitKeeps | examples/jobqueue/jobqueue/broker.py:86-95 | A known key names the job it has; a new one makes a job |
| JobBroker.NextReadyIs | examples/jobqueue/jobqueue/broker.py:114-119 | What is found is queued and due; if nothing is found nothing is |
| JobBroker.NextReadyFirst | examples/jobqueue/jobqueue/broker.py:114-119 | What is found is due and nothing before it in the queue is; if nothing is found nothing in the queue is |
| JobBroker.LeaseIs | examples/jobqueue/jobqueue/broker.py:121-135 | A lease is one more attempt under one more token with a timer armed for it, and changes nothing else |
| JobBroker.ExpireIs | examples/jobqueue/jobqueue/broker.py:137-149 | A job whose lease lapses is dead if its attempts are spent, and otherwise last in the queue and due after its backoff |
| JobBroker.BackoffDoubles | examples/jobqueue/jobqueue/broker.py:145 | The first requeue waits the base and each further one twice as long as the one before |
| JobBroker.LeaseKeeps | examples/jobqueue/jobqueue/broker.py:121-135 | A lease takes the next token and keeps the broker's invariant |
| JobBroker.LeaseWithinLimit | examples/jobqueue/jobqueue/broker.py:121-143 | Attempts stay within the limit exactly when it allows one |
| JobBroker.ExpireKeeps | examples/jobqueue/jobqueue/broker.py:137-149 | A live timer ends one lease: its job dies if its attempts are spent and is queued again otherwise, closer to being settled, and no other job changes |
| JobBroker.RenewKeeps | examples/jobqueue/jobqueue/broker.py:151-163 | A renewal succeeds exactly for the current holder and changes only its timer |
| JobBroker.CompleteKeeps | examples/jobqueue/jobqueue/broker.py:165-178 | A completion answers yes exactly when the job is done, and only the holder makes it so |
| JobBroker.LiveBroker.SubmitJob | examples/jobqueue/jobqueue/broker.py:86-95 | A key has one job for good: seen before, nothing changes; new, its job is queued last, untried and due at once; and the broker's books balance |
| JobBroker.LiveBroker.Acquire | examples/jobqueue/jobqueue/broker.py:97-135 | A turn of the acquire loop takes the first due job in queue order, and only it, out of the queue and leases it under its next token, or changes nothing because none is due |
| JobBroker.LiveBroker.FindReady | examples/jobqueue/jobqueue/broker.py:114-119 | The loop finds a due job with no due job before it in the queue, or none is due |
| JobBroker.LiveBroker.OnExpiry | examples/jobqueue/jobqueue/broker.py:137-149 | The lease behind the timer ends and only that one: its job is dead if its attempts are spent and queued last if not, due after its backoff; the timer is gone, and the books balance |
| JobBroker.LiveBroker.RenewLease | examples/jobqueue/jobqueue/broker.py:151-163 | Only the holder renews, and its lease is then backed by exactly one live timer, a new one |
| JobBroker.LiveBroker.CompleteJob | examples/jobqueue/jobqueue/broker.py:165-178 | The answer is yes exactly for a job that is done afterwards, only the holder makes it so, and no timer is left to bring it back |
| EffectStore.BeginKeeps | examples/jobqueue/jobqueue/store.py:35-43 | An announcement is accepted exactly when no newer token was seen for the job |
| EffectStore.CommitKeeps | examples/jobqueue/jobqueue/store.py:45-58 | A commit is stale exactly when a newer token was seen, and accepted at most once a job |
| EffectStore.Effects.Begin | examples/jobqueue/jobqueue/store.py:35-43 | An announcement is taken exactly when no newer lease of the job was seen, and commits nothing |
| EffectStore.Effects.Write | examples/jobqueue/jobqueue/store.py:45-58 | A write is stale exactly when a newer lease was seen, is accepted only as a job's first, and unless stale leaves the job's effect in the store |
| JobServices.Serve | examples/jobqueue/jobqueue/broker.py:69-81 | Each request goes to its method; a submit is answered with its key's job, an acquire with the first due job, a renewal by whether the lease was held and a completion by whether the job is done |
| JobServices.Work | examples/jobqueue/jobqueue/worker.py:57-78 | While other workers announce and write as they please, a worker reports a job complete exactly if the payload is sound and no newer lease of the job has been seen, and then the job's effect is in the store; to what the others add it adds one commit, its own, exactly if it reports and the job had none |
| JobServices.AfterAllKeeps | examples/jobqueue/jobqueue/store.py:35-58 | Whatever is announced and written, in whatever order, the store stays fenced and commits once a job, and nothing seen or committed is forgotten |
| JobKeys.KeysDiffer | examples/jobqueue/jobqueue/client.py:44-45 | Distinct logical submits have distinct keys, whatever the clients are called |
| JobKeys.KeyReads | examples/jobqueue/jobqueue/client.py:45 | A key is the client's name, a dot, and digits that stand for its counter |
| JobProof.SubmitOnce | examples/jobqueue/jobqueue/client.py:40-60 | However often retried, and however many a client has under way, a logical submit makes at most one job, shares it with no other, and is acknowledged with it |
| JobProof.ExactlyOnce | examples/jobqueue/jobqueue/worker.py:57-78 | Each job has at most one accepted commit, a done job has one, with the value its client submitted and a token its broker granted, and a poison job has none and is never done |
| JobProof.BrokerAnswers | examples/jobqueue/jobqueue/broker.py:69-81 | Over any run every request is answered as the state it finds demands; no lease passes over a due job earlier in the queue |
| JobProof.LeaseLapses | examples/jobqueue/jobqueue/broker.py:137-149 | Over any run a lease that lapses does so by the clock of that moment |
| JobProof.ToldDone | examples/jobqueue/jobqueue/broker.py:165-178 | A worker told that its job is complete finds it done at any later time |
| JobExample.OneJobDone | examples/jobqueue/jobqueue/worker.py:57-78 | Any job that is not poison can be submitted, acknowledged, worked on and found done, with its one commit |
| JobProof.TokensFenced | examples/jobqueue/jobqueue/store.py:35-58 | Nothing is accepted for a job under a token below one the store has seen for it |
| JobProof.LeaseHeldOnce | examples/jobqueue/jobqueue/broker.py:121-135 | No two leases of a job carry one token |
| JobProof.JobsEndure | examples/jobqueue/jobqueue/broker.py:165-178 | Over any run a job keeps its key and payload, its token never falls, and done and dead are final |
| JobProof.BrokerSound | examples/jobqueue/jobqueue/broker.py:114-178 | In every state the queue lists the queued jobs once each, timers and leases match one to one, and tokens count attempts within the limit |
| JobProof.StepKeeps | examples/jobqueue/jobqueue/worker.py:44-98 | Every step of clients, workers, broker and store keeps leases granted, commits true to their jobs, keys unique and completions backed by commits |
| Trace.TextInjective | src/simloop/_trace.py:58-72 | Two traces with the same text are the same trace |
| Trace.LineInjective | src/simloop/_trace.py:61-70 | Every field of an event can be read back from its line |
| Trace.LineNests | src/simloop/_trace.py:61-70 | A line is kind, time, number, host and label, in that order, parted by bars and ended by a line end |
| Trace.TextJoin | src/simloop/_trace.py:58-72 | The text of a trace is the lines of its events, one after another |
| Decimals.DecimalValue | src/simloop/_trace.py:61-70 | A number is printed as the digits that stand for it, none to spare |
| Trace.Recorder.Serialize | src/simloop/_trace.py:58-72 | The loop feeds the digest the lines of all events in order |

## Left out

- RaftPrompt.StateMachineSafety: the hypothesis is sufficient, not necessary; an untimely append that is accepted may still say nothing untrue. `RaftMarks` has the exact condition for the marks.
- RaftMarks.UncutSafety: one direction only; after an append has cut into a committed prefix, peers may still happen never to apply two different things at one index.
- JobServices.Work: the renewal task beside it is left to `JobQueue`, where it only sends the broker requests.
- Raft safeguards switched off, unfenced brokers and stores that are not idempotent: they exist to break these properties.
- Liveness: elections finishing, jobs settling, drains ending. Nothing the code guarantees decides them.
- Wire formats (JSON, frame lengths), socket errors and the retry timing of calls: a call is handled at most once and answered at most once, or not.
- Raft peers kept on `MemoryStorage`; the heap inside `heapq`, random draws, `repr` of floats and SHA-256 are taken at their contracts. Clocks, latencies and priorities are reals.
- The order in which a disk iterates its keys: only contents are claimed.
- Transports whose flow control is armed, disarmed or given new watermarks mid-run, protocols that raise (a buffer with no room among them), datagrams, refused and cancelled connections, TLS, fake sockets, name resolution.
- A stream's two directions are modelled one at a time; what one end does to the other direction's packets is arbitrary here.
- The waiting inside the broker's acquire and the worker's and client's sleeps: time passes by any amount between steps.
- The labels the shrinker reports, the comparison of failure messages, and re-running a parallel failure in the parent process.
- The choice log's machine-word limit on a choice, beyond the check made when a script is built.
- Tasks, futures, contexts, executors, pytest plugin, timeline and reports.
