# Raft KV store: a verified model

A Dafny model of a distributed key-value store written in Go: the Raft protocol of
`raft/` as a step system over whole runs, and the store of `kv/` and `storage/` with
its write-ahead log and snapshots. `dafny verify dfyconfig.toml` checks everything.

## How it is built

- `Log.dfy`, `LogStore.dfy`: the log, as a value with its scanning lookups and as the
  mutable store with its loops.
- `Node.dfy`, `NodeImpl.dfy`: one node, as a value with a function per critical
  section, and as a class whose methods and loops are proved equal to those functions.
- `Cluster.dfy`: the cluster. Every critical section under a node's lock is one event.
  The network is the set of messages ever sent, so messages may be lost, delayed,
  duplicated and reordered. Timers may fire at any moment. A run is a sequence of
  states and events from the initial state.
- `Actors.dfy`: what an event leaves alone. `Candidates.dfy`: the turns of the vote loop
  are events of the cluster, whatever happens between two turns.
- `Elections.dfy`, `ElectionSafety.dfy`, `Collection.dfy`: every run of the code.
- `Ledger.dfy`, `Replication.dfy`, `ReplicationSafety.dfy`, `Requests.dfy`: runs with
  guarded heartbeats. `Ledger.dfy` records each term's leader log and holds the
  induction for Leader Completeness.
- `Credits.dfy`: runs with guarded heartbeats whose leaders credit successes in their own
  term; match indices and the commits that heartbeats bring about.
- `Commits.dfy`, `StateMachineSafety.dfy`, `Replicas.dfy`: runs that keep all four
  disciplines below.
- `Handlers.dfy`: what each critical section does, field by field, and what follows from
  being told of a higher term.
- `CommitRule.dfy`, `CatchUp.dfy`: the commit loop as an order statistic, the back-off
  of Replicate and of heartbeats.
- `Counterexamples.dfy`, `Exactness.dfy`: why the disciplines are needed, and exactly
  when one call keeps what the proofs rely on.
- `KvLog.dfy`, `Recovery.dfy`, `KvStore.dfy`: replay, the store with its files as a
  step system, and the store as classes with loops.

## Four disciplines

The code does not have all the guards that Raft's safety needs. A `Discipline` says
which of four guards a run keeps, and the theorems name the ones they use. For each
guard there is a run of the code that keeps the other three and in which safety fails,
and an if-and-only-if about the single call that lacks it: whatever the rest of the
cluster has done, as far as the node can know, the call keeps what the proofs rely on
exactly under the guard. The node could check each guard before it acts.

| guard | missing in | without it | exact condition |
|---|---|---|---|
| `guarded`: a heartbeat with entries is built only by a leader or by a node whose last entry is of its own term | the role is read before the lock is taken (`raft/election.go:164`, `raft/replication.go:147-151`) | a deposed leader rewrites its successor's log: Log Matching and Leader Append-Only fail (`UnguardedHeartbeatBreaksLogMatching`) | `HeartbeatSafeIff` |
| `checked`: a request with neither entries nor a predecessor moves the commit index only of a node whose last entry is of the request's term | an empty heartbeat carries predecessor 0 and skips the comparison (`raft/replication.go:153-164`, `raft/election.go:252`) | a follower applies its own diverging entry (`UncheckedCommitBreaksSafety`) | `CommitLearntSoundlyIff` |
| `ownTerm`: a success raises a leader's match index only in the term of its request | match indices are updated without looking at the term (`raft/replication.go:122-128`, `194-201`) | in a cluster of five, two nodes apply different entries at one index (`LateReplyBreaksSafety`) | `ReplicateCreditSoundIff`, and `HeartbeatCreditSoundIff` for a leader |
| `leading`: a node that does not lead handles a heartbeat's success only if its match indices then leave nothing to commit | the commit index is recomputed without looking at the role (`raft/replication.go:194-203`, `215-235`) | a deposed leader counts match indices of its former terms for an entry of the present one; in a cluster of five, two nodes apply different entries at one index (`DeposedCommitBreaksSafety`) | `HeartbeatCreditSoundIff` for a node that does not lead |

Election Safety, gap-free logs, request windows and the order of collection need none
of them. Log Matching, Leader Append-Only, survival of acknowledged writes and the
landing of checked commits need `guarded` only. The meaning of match indices and the
survival of what a leader commits through heartbeats need `guarded` and `ownTerm`.
State Machine Safety needs all four.

## Assumptions

- Nodes crash and stop. Term, vote and log are in memory only, so a stopped node does
  not come back under the same id.
- All nodes know the same set of at least two members; a node's peers are distinct and
  exclude it.
- Terms and indices do not overflow 64 bits. The one place where the code can wrap, a
  next index of zero, is modelled as it is (`Dec64`) and proved not to occur.
- Receiving from the step-down channel and becoming a follower are one event, although
  the code takes the lock in between (`raft/election.go:21-24`, `91-94`, `157-160`). A
  fifth signal sent between the two is dropped in the model and queued in the code.
- What a node collects for apply is ordered by its lock. The order in which concurrent
  collectors send to the apply channel is not claimed.
- The store's files start empty where a theorem says so. An append fails before its
  line is written or after it; a snapshot is replaced in one step.

Where the repository's README says that recovery replays the log entries after the
snapshot, the code replays the whole log on top of it (`kv/store.go:35-52`). The model
follows the code.

## Model

| member | source | states |
|---|---|---|
| RaftLogStore.LogStore.constructor | raft/log.go:13-17 | a new log holds just the sentinel |
| RaftLogStore.LogStore.LastIndexAndTerm | raft/log.go:19-26 | index and term of the last entry |
| RaftLogStore.LogStore.EntryAt | raft/log.go:28-35 | the first entry with the index, or nothing if and only if no entry has it |
| RaftLogStore.LogStore.AppendEntry | raft/log.go:37-39 | adds the entry at the end |
| RaftLogStore.LogStore.TruncateAfter | raft/log.go:42-49 | the longest prefix before the first entry of a higher index, on any log |
| RaftLogStore.LogStore.EntriesFrom | raft/log.go:52-61 | the suffix from the first entry that reaches the index, on any log |
| RaftLog.ScanIsIndexing | raft/log.go:28-61 | on a gap-free log the three scans are direct indexing and slicing |
| RaftNodeImpl.Node.constructor | raft/raft.go:67-83 | a new node is a follower of term 0 without vote |
| RaftNodeImpl.Node.BecomeFollower | raft/raft.go:129-137 | a higher term is entered without vote; the role becomes follower in any case |
| RaftNodeImpl.Node.SignalStepDown | raft/raft.go:146-151 | the term is queued unless four are waiting |
| RaftNodeImpl.Node.StartElection | raft/election.go:44-49 | next term, vote for itself, and the request that goes out |
| RaftNodeImpl.Node.ElectionTurn | raft/election.go:87-116 | one turn of the select, on the node as it is by then: new state, votes and whether the loop ends; LeaderIff, LoopEnds and NoMajority say what the turns add up to |
| Candidates.AnswerTurnIsCountVote | raft/election.go:102-115 | a turn that reads an answer is the event CountVote, in whatever state the cluster is: same node, same votes, and Win is enabled when the turn reaches a majority |
| Candidates.MajorityTurnIsWin | raft/election.go:112 | becomeLeader after the majority is the event Win, on the node as it is by then |
| Candidates.StepDownTurnIsStepDown | raft/election.go:91-95 | a turn that reads the step-down channel is the event StepDown |
| Candidates.EventsAreTurns | raft/election.go:83-117 | every CountVote and Win happens to a running loop, and Win does what the turn that reaches the majority does |
| RaftNodeImpl.Node.RunElection | raft/election.go:83-117 | the whole loop, with nothing in between, computes CountVotes of what its select delivers |
| RaftNodeImpl.WinsOnlyWithMajority | raft/election.go:83-117 | the loop makes a leader only of a candidate still in its term that a majority, itself included, voted for |
| RaftNodeImpl.LeaderIff | raft/election.go:83-117 | the loop makes a leader if and only if the node is still a candidate of the term and, with nothing but answers of no higher term before, the grants counted first reach a majority at some event |
| RaftNodeImpl.MajorityWins | raft/election.go:108-113 | at that event the node takes office, whatever comes later |
| RaftNodeImpl.LoopEnds | raft/election.go:87-107 | stopping or the election timer before a majority leaves the node exactly as it was, and a higher term makes it a follower of it; nothing later is read |
| RaftNodeImpl.NoMajority | raft/election.go:101-116 | answers that never reach a majority change nothing |
| Handlers.OfficeLaw | raft/election.go:120-142 | a node takes office if and only if it is still a candidate of the term; then every peer starts just after the log with nothing credited, and nothing else changes |
| Handlers.VoteLaw | raft/election.go:184-221 | the reply carries the higher of the two terms, which is the voter's from then on; the vote is granted if and only if the request is not stale, its log is no older by last term and then last index, and the voter has no other vote in that term; the rest of the node stays |
| Handlers.StaleCandidateStepsDown | raft/election.go:102-107 | over a whole run, a candidate that counts the answer of a voter ahead of its request ends its campaign as a follower of a term no lower than the voter's |
| Handlers.FollowerLaw | raft/raft.go:129-137 | the role becomes follower, the term the higher one, and the vote is dropped exactly when the term rises |
| Handlers.SignalIsKept | raft/raft.go:146-151 | over a whole run, a term that reached the step-down channel waits there until the node is in a term no lower |
| Handlers.QueueBounded | raft/raft.go:146-151 | in no state of any run do more than four terms wait |
| Handlers.HigherReplyStepsDown | raft/replication.go:185-188 | over a whole run, a node that gets a reply of a higher term while fewer than four wait is in no lower term once its channel is empty, and is a follower after taking a term from it |
| RaftNodeImpl.Node.BecomeLeader | raft/election.go:120-142 | only a candidate of that term takes office; indices of all peers are reset |
| RaftNodeImpl.Node.HandleRequestVote | raft/election.go:184-221 | the method does what VoteLaw says, on every branch |
| RaftNodeImpl.Node.HandleAppendEntries | raft/election.go:223-281 | the method does what AppendEntriesAnswer and AppendEntriesChanges say, on every branch |
| Handlers.AppendEntriesAnswer | raft/election.go:223-258 | on a gap-free log the reply carries the higher term, which is the node's from then on, and is a success if and only if the request is not stale and the predecessor is at its index with its term |
| Handlers.AppendEntriesChanges | raft/election.go:229-280 | a stale request changes nothing; a rejected one at most term, vote and role; an accepted one cuts the log at the first conflict and adds the rest, and moves the commit index to LeaderCommit or the end of the log |
| RaftNodeImpl.Node.AppendWindow | raft/election.go:260-271 | the conflict loop computes Merge |
| RaftLog.MergeIsCutAndAdd | raft/election.go:260-271 | entry by entry, the loop keeps the log if the window is there by term, otherwise cuts at the first conflict and adds the rest |
| RaftLog.MergeIdempotent | raft/election.go:260-271 | the same window a second time changes nothing |
| RaftLog.MergeWindow | raft/election.go:251-271 | accepting a window of a matching leader's log keeps the log if it agrees so far, otherwise makes it the leader's log up to there |
| RaftLog.WindowsNeverShrinkAgreement | raft/election.go:251-271 | duplicated and reordered windows of one leader's log never shrink what the follower agrees on |
| RaftNodeImpl.Node.AppendCommand | raft/replication.go:17-34 | only a leader appends, one entry of its term at the next index |
| Handlers.AppendLaw | raft/replication.go:24-34 | the log gains one entry of the present term at the next index, credited to the node itself, and nothing else changes |
| RaftNodeImpl.Node.BuildReplicate | raft/replication.go:84-110 | the request of one round, looked up index by index |
| RaftNodeImpl.Node.BuildHeartbeat | raft/replication.go:147-174 | the heartbeat with all outstanding entries, or an empty one |
| RaftNodeImpl.Node.BackOff | raft/replication.go:132-140 | the next index falls by one but not below one |
| RaftNodeImpl.Node.HandleReplicateReply | raft/replication.go:117-140 | the method does what ReplicateReplyLaw says, whatever the node's term is by then |
| RaftNodeImpl.Node.HandleHeartbeatReply | raft/replication.go:185-210 | the method does what HeartbeatReplyLaw says, on every branch |
| Handlers.ReplicateReplyLaw | raft/replication.go:117-140 | a higher term is queued and changes nothing else; a rejection lowers that peer's next index by exactly one, not below one; a success sets it just after the entry and credits the entry if it is news |
| Handlers.HeartbeatReplyLaw | raft/replication.go:185-210 | the same for heartbeats: an answer to an empty one changes nothing, and a success credits what was sent if it is news and commits the majority-th match index if that is ahead and of the current term |
| RaftNodeImpl.Node.CommitEntry | raft/replication.go:56-60 | a confirmed call raises the commit index to its entry |
| Handlers.ReturnLaw | raft/replication.go:50-64 | in every run, a call that returns nil has a majority, leaves its leader's commit index at the higher of the entry and what it was, and changes nothing else of any node |
| RaftNodeImpl.Node.AdvanceCommitIndex | raft/replication.go:215-235 | the two nested loops compute AdvanceCommit |
| RaftNodeImpl.Node.CountMatching | raft/replication.go:224-229 | the peers whose match index reaches an index |
| RaftNodeImpl.Node.ApplyCommitted | raft/replication.go:240-248 | collects the entries after lastApplied through the commit index |
| CommitRule.SortDownSorts | raft/replication.go:215-235 | the reference sort of match indices: same elements, never rising |
| CommitRule.AdvanceIsOrderStatistic | raft/replication.go:215-235 | the loop commits the majority-th largest match index capped at the last index, if it is ahead and of the current term, and otherwise leaves the commit index |
| CommitRule.CommitStaysIff | raft/replication.go:215-235 | the loop leaves the commit index alone if and only if that match index is not ahead or not of the current term |
| CatchUp.ReplicateToPeer | raft/replication.go:77-142 | with a reachable follower and matching logs it succeeds exactly when the node leads the term and the follower is not ahead, with the first request whose predecessor the follower has, and both logs then agree through the entry; otherwise nothing changes except that a higher term is queued |
| CatchUp.HeartbeatRound | raft/replication.go:147-210 | one heartbeat round with entries outstanding is accepted if and only if the follower has the leader's entry before the next index; then both logs agree through the last index, which is credited if news; a rejected one lowers the next index by exactly one and leaves the follower's log alone |
| CatchUp.HeartbeatUntilAccepted | raft/election.go:144-170 | heartbeat rounds to a reachable follower that is not ahead and lacks something reach an accepted one after fewer rejections than nextIndex, at the first index whose predecessor the follower has; both logs then agree through the last index, matchIndex reaches it, and nextIndex is one past it if that was news |
| CatchUp.QuietRound | raft/replication.go:153-192 | with nothing outstanding a heartbeat leaves the leader and the follower's log as they are and moves the follower's commit index to the leader's, not beyond its log |
| Elections.ElectionInvStep | raft/election.go:43-142 | every event of the code keeps: one vote per node and term on record, voters of a campaign voted for it, an election is a majority |
| Elections.LogInvStep | raft/replication.go:84-174 | every event of the code keeps logs, requests and next indices gap-free |
| ElectionSafety.OneVotePerTerm | raft/election.go:184-212 | over a whole run a node's term never falls and within a term its vote never changes |
| ElectionSafety.ElectionSafety | raft/election.go:83-142 | over a whole run at most one node ever leads a given term |
| ElectionSafety.GapFreeLogs | raft/log.go:28-61 | in every state index i is at position i, terms never fall and stay within the node's term, and no next index of a leader is zero |
| Requests.HeartbeatsAreWindows | raft/replication.go:149-174 | every heartbeat of every run is the stretch of the sender's log from the next index to its end, or empty |
| Requests.ReplicatesAreWindows | raft/replication.go:84-110 | every request of Replicate in every run is the stretch from the next index to the call's entry |
| Collection.BatchCompleteIff | raft/replication.go:240-248 | a batch is complete if and only if the commit index lies within the log or nothing is new |
| Collection.CollectedInOrder | raft/replication.go:240-248 | in every run whose batches are taken with the commit index within the log, each node collects indices 1..lastApplied once each, in order |
| Ledger.LeaderCompleteness | raft/election.go:200-211 | an entry that a majority acknowledged in its own term is in the log with which every later leader was elected |
| Replication.AcceptedLog | raft/election.go:251-271 | a rooted log that passes the check agrees with the leader's log through the end of the request |
| Replication.ReplicationInvStep | raft/replication.go:16-142 | every event of a guarded run keeps: requests are windows of their leader's log, successes are acknowledgements, a leader's log is its term's ledger |
| ReplicationSafety.LogMatching | raft/election.go:251-271 | logs of any two nodes at any two moments with an equal term at an index are identical up to it |
| ReplicationSafety.LeaderAppendOnly | raft/election.go:229-271 | while a node leads a term its log only grows at the end |
| ReplicationSafety.AcknowledgedWritesSurvive | raft/replication.go:50-64 | once Replicate returned nil, every leader of a later term has the entry at its index, at any moment of the run |
| ReplicationSafety.CommittedSurvives | raft/election.go:200-211 | what a majority acknowledged in its own term by one state, every leader of a later term holds in every state of the run |
| ReplicationSafety.OneAcknowledgedHistory | raft/replication.go:24-64 | no two calls that returned nil own the same index |
| Requests.CommitLands | raft/election.go:251-277 | an accepted window that reaches LeaderCommit moves the commit index, if at all, to exactly LeaderCommit, where both logs agree |
| Requests.HeartbeatCommitsLand | raft/replication.go:149-174 | the same for every heartbeat with entries of a guarded run, however late it is handled |
| Requests.ReplicateCommitsLand | raft/replication.go:84-110 | the same for every request of Replicate, all of which are checked |
| Credits.RunMatchInv | raft/replication.go:122-128 | in every state of a run with guarded heartbeats and own-term credits, every match index of a leader was acknowledged in its term |
| Credits.AckWasAgreement | raft/election.go:251-280 | whatever a node acknowledged in a term, it agreed on with that term's leader in some state of that term |
| Credits.MatchIndexWasAgreement | raft/replication.go:194-203 | if a leader's match index for p reaches x, p acknowledged x in that term, and agreed with the leader through x in some state of it |
| Credits.HeartbeatCommitsSurvive | raft/replication.go:194-203 | when a heartbeat's reply moves a leader's commit index to x, every leader of a later term, in every state of the run, agrees with it through x |
| Credits.ReplicatedIsCommitted | raft/replication.go:215-235 | what the leader's loop counts as replicated was acknowledged by a majority in its term |
| Commits.UncheckedCommit | raft/election.go:274-277 | an empty request that moves the commit index of a node whose last entry is of its term moves it forward, no further than LeaderCommit, to where the node agrees with the leader |
| Commits.CommitInvStep | raft/replication.go:194-248 | every event of a disciplined run keeps every commit index on entries that all later leaders hold |
| StateMachineSafety.StateMachineSafety | raft/replication.go:239-248 | no two nodes ever collect different entries for apply at the same index, at any moments of the run |
| StateMachineSafety.ExactlyOnceCollection | raft/replication.go:240-248 | in a disciplined run what a node collected is its log's entries 1..lastApplied, and the commit index stays within the log |
| StateMachineSafety.CommittedEntriesSurvive | raft/replication.go:194-235 | whatever a node has committed, every leader of a later term holds |
| Counterexamples.UnguardedHeartbeatBreaksLogMatching | raft/election.go:164-167 | a run of three nodes in which a deposed leader's heartbeat rewrites the present leader's log |
| Counterexamples.UncheckedCommitBreaksSafety | raft/replication.go:153-164 | a run of three nodes in which an empty heartbeat makes two nodes apply different entries at index 1 |
| Counterexamples.LateReplyBreaksSafety | raft/replication.go:122-128 | a run of five nodes in which a late success makes two nodes apply different entries at index 2 |
| Counterexamples.DeposedCommitBreaksSafety | raft/replication.go:194-203 | a run of five nodes in which a deposed leader commits on a late heartbeat success, a later leader lacks the entry, and the two apply different entries at index 2 |
| Exactness.HeartbeatSafeIff | raft/replication.go:147-174 | a heartbeat sends only what the leader of its term holds, whatever the leaders' logs are, if and only if its sender leads, or its last entry is of its term, or the peer has caught up |
| Exactness.CommitLearntSoundlyIff | raft/election.go:251-277 | an empty request moves a node's commit index soundly, whatever the leader's log is, if and only if the node's last entry is of its term or the index does not move |
| Exactness.ReplicateCreditSoundIff | raft/replication.go:122-128 | a success of Replicate leaves match indices acknowledged in the present term if and only if the node does not lead another term or nothing changes |
| Exactness.HeartbeatCreditSoundIff | raft/replication.go:194-203 | a success of a heartbeat leaves match indices acknowledged, and the recomputed commit index acknowledged by a majority, in the present term if and only if the node leads and the success is of its term or no news, or it does not lead and is left with nothing to commit |
| KvLog.LastWriteWins | kv/store.go:126-133 | after a replay a key has the value of the last entry naming it, or is absent if that deletes it |
| KvLog.ReplayedKeyIff | kv/store.go:126-133 | replaying from nothing, a key is there if and only if the last entry naming it is an upsert, with that value |
| KvLog.RecordsReplay | kv/store.go:73-86 | lines replay as the commands they record, although a delete is written without a value |
| Recovery.RecoveredKey | kv/store.go:32-55 | a restart takes each key from the last line of the log that names it, and from the snapshot if none does |
| Recovery.ApplyChanges | kv/apply.go:11-24 | a command that is taken deletes or sets its key and nothing else in memory; the log gains a line with its operation, key and value, confirmed or not; the counter and the snapshot move exactly when they are due |
| Recovery.OutcomeIff | kv/store.go:135-157 | a command is reported as done if and only if it is accepted, its append is confirmed or there is no log, and the save succeeds or none is due; each failing condition gives its own error |
| Recovery.OutcomeMeans | kv/store.go:135-157 | a command reported as done is in memory, and a restart shows it if there is a log; a failed append or a refusal leaves memory alone; a failed save leaves the command in memory |
| Recovery.KeyAfterRun | kv/store.go:32-55 | after any run a restart shows a key if and only if the last accepted command naming it that reached the log is an upsert, with its value; after a settled run so does memory |
| KvLog.SnapshotAbsorbedIff | kv/store.go:35-52 | replaying a whole log on a table equals replaying it from nothing if and only if the log names every key of the table |
| KvLog.RedeliveryHarmlessIff | kv/apply.go:28-39 | redelivery ends in the replay of the history if and only if the history names every key the store held |
| KvLog.RedeliveryOfExtension | kv/apply.go:28-39 | a full history that extends what was applied replays to itself, and so does the log with the duplicates |
| Recovery.RecoveryIsReplay | kv/store.go:32-55 | after any run from empty files a restart rebuilds the replay of all writes that reached the log, whichever snapshot is on disk |
| Recovery.WriteStaysRecoverableIff | kv/store.go:135-157 | a write leaves memory equal to what a restart rebuilds if and only if its append did not fail after writing, or memory shows it already |
| Recovery.LiveIsRecoverable | kv/store.go:135-157 | memory is what a restart rebuilds when no append failed after writing since the last restart |
| Recovery.UnsyncedAppendDiverges | storage/logstore.go:69-73 | a line written but not synced is reported as failed and not applied, yet a restart applies it |
| Recovery.ApplyLoopReplays | kv/apply.go:28-39 | whatever appends and saves do, the loop replays into memory the commands it takes, and the log gains lines that record those that reached it |
| Recovery.RedeliveredHistory | kv/apply.go:28-39 | a node that restarts and is sent the whole history again ends with its replay, in memory and on disk |
| Recovery.SavesCover | kv/store.go:142-156 | without a log the snapshot is the state after the writes up to the last successful save |
| Recovery.BoundedLoss | kv/store.go:142-156 | without a log and with saves that succeed, a restart misses fewer than snapshotInterval of the latest writes |
| KvStore.FileWal.Append | storage/logstore.go:56-74 | unknown operations are refused; a line may be written although an error is returned |
| KvStore.FileWal.Load | storage/logstore.go:76-107 | all entries if every line is good, otherwise the error of the first bad line |
| KvStore.FileSnapshot.Save | storage/snapshot.go:28-43 | replaces the stored table, or leaves it on failure |
| KvStore.FileSnapshot.Load | storage/snapshot.go:45-67 | the stored table, or an empty one if there is none |
| KvStore.CopyTable | kv/store.go:151-154 | the key-by-key copy is the whole table |
| KvStore.Store.constructor | kv/store.go:23-30 | an empty table with the default interval of 100 |
| KvStore.Store.NewStoreFromDisk | kv/store.go:32-55 | fails if and only if a file cannot be read, otherwise holds what Recover gives |
| KvStore.Store.ApplyLocked | kv/store.go:126-133 | deletes or sets the key |
| KvStore.Store.PersistAndApply | kv/store.go:135-157 | memory, counter, log, snapshot and outcome after a write, on every failure path; OutcomeIff and OutcomeMeans say what they mean |
| KvStore.Store.Upsert | kv/store.go:57-71 | sets the key if and only if it is not empty and the append is confirmed, and says when the outcome is done |
| KvStore.Store.Delete | kv/store.go:73-86 | removes the key if and only if it is not empty and the append is confirmed, and says when the outcome is done |
| KvStore.Store.Get | kv/store.go:88-98 | refuses the empty key, otherwise looks it up |
| KvStore.Store.Snapshot | kv/store.go:100-110 | a copy of the table |
| KvStore.Store.Apply | kv/apply.go:11-24 | refuses empty keys and unknown operations, otherwise writes |
| KvStore.Store.RunApplyLoop | kv/apply.go:28-39 | the loop computes ApplyAll, skipping what does not decode or fails |
| Replicas.ReplicasAgree | kv/apply.go:28-39 | in a disciplined run two stores that applied the first n collected commands hold the same table |
| Replicas.AcknowledgedWritesApplied | raft/replication.go:50-64 | once Replicate returned nil for an entry, no node ever applies another one at its index |

## Left out

- Timers, randomised timeouts and tickers: timeouts are events that may happen at any moment; liveness of elections is not claimed.
- Restart of a Raft node: the code keeps neither term, vote nor log on disk, so safety is claimed for crash-stop runs only.
- A cluster of one node: its vote loop never runs, so it never elects itself.
- Replicate's time limit and its return of an error: a call that has not returned nil may still commit, and nothing is claimed about its result.
- The order in which entries reach the apply channel: collectors send after unlocking.
- The HTTP transport, the Gin handlers, the SimpleKVS API and the command-line programs: plumbing around the core.
- JSON encoding, file modes, line limits, torn lines and fsync: the log file is a sequence of lines that decode or do not, the snapshot one table.
- Reads of replicated data: they bypass Raft by design, so no linearizable read is claimed.
- Sharding, routing, configuration, metrics, logging and the in-process cluster: no protocol content.
- NoopWAL and NoopSnapshot: treated like no file at all; only the unused write counter differs.
