/** One Raft node as a value, and each critical section of raft/election.go and
  * raft/replication.go as a function on it. */
module RaftNode {
  import opened RaftLog

  datatype Role = Follower | Candidate | Leader

  datatype RequestVoteArgs = RequestVoteArgs(
    term: nat, candidateId: NodeId, lastLogIndex: nat, lastLogTerm: nat)

  datatype RequestVoteReply = RequestVoteReply(term: nat, voteGranted: bool)

  datatype AppendEntriesArgs = AppendEntriesArgs(
    term: nat, leaderId: NodeId, prevLogIndex: nat, prevLogTerm: nat,
    entries: seq<LogEntry>, leaderCommit: nat)

  datatype AppendEntriesReply = AppendEntriesReply(term: nat, success: bool)

  /** The fields of Node that the protocol reads and writes. `stepDowns` is the
    * content of stepDownCh; an empty `votedFor` means no vote. */
  datatype NodeState = NodeState(
    id: NodeId,
    peers: seq<NodeId>,
    currentTerm: nat,
    votedFor: NodeId,
    role: Role,
    log: Log,
    commitIndex: nat,
    lastApplied: nat,
    nextIndex: map<NodeId, nat>,
    matchIndex: map<NodeId, nat>,
    stepDowns: seq<nat>)

  const STEP_DOWN_CAPACITY := 4

  function NewNode(id: NodeId, peers: seq<NodeId>): NodeState {
    NodeState(id, peers, 0, "", Follower, [SENTINEL], 0, 0, map[], map[], [])
  }

  function Max(a: nat, b: nat): nat { if a < b then b else a }

  function Min(a: nat, b: nat): nat { if a < b then a else b }

  /** Reading an absent key of a Go map gives zero. */
  function Lookup(m: map<NodeId, nat>, k: NodeId): nat {
    if k in m then m[k] else 0
  }

  function Majority(peers: seq<NodeId>): nat {
    (|peers| + 1) / 2 + 1
  }

  // ---- Elections ----

  function BecomeFollower(n: NodeState, term: nat): NodeState {
    if term > n.currentTerm then n.(currentTerm := term, votedFor := "", role := Follower)
    else n.(role := Follower)
  }

  function SignalStepDown(n: NodeState, term: nat): NodeState {
    if |n.stepDowns| < STEP_DOWN_CAPACITY then n.(stepDowns := n.stepDowns + [term]) else n
  }

  function TakeStepDown(n: NodeState): NodeState
    requires n.stepDowns != []
  {
    BecomeFollower(n.(stepDowns := n.stepDowns[1..]), n.stepDowns[0])
  }

  function StartElection(n: NodeState): NodeState {
    n.(currentTerm := n.currentTerm + 1, votedFor := n.id)
  }

  /** The request a candidate sends once it has started its election. */
  function VoteArgs(n: NodeState): RequestVoteArgs
    requires |n.log| > 0
  {
    RequestVoteArgs(n.currentTerm, n.id, LastIndex(n.log), LastTerm(n.log))
  }

  predicate UpToDate(lastTerm: nat, lastIndex: nat, log: Log)
    requires |log| > 0
  {
    lastTerm > LastTerm(log) || (lastTerm == LastTerm(log) && lastIndex >= LastIndex(log))
  }

  function HandleRequestVote(n: NodeState, args: RequestVoteArgs): (NodeState, RequestVoteReply)
    requires |n.log| > 0
  {
    if args.term < n.currentTerm then (n, RequestVoteReply(n.currentTerm, false))
    else
      var n1 := if args.term > n.currentTerm then BecomeFollower(n, args.term) else n;
      var alreadyVoted := n1.votedFor != "" && n1.votedFor != args.candidateId;
      if alreadyVoted || !UpToDate(args.lastLogTerm, args.lastLogIndex, n1.log) then
        (n1, RequestVoteReply(n1.currentTerm, false))
      else
        (n1.(votedFor := args.candidateId), RequestVoteReply(n1.currentTerm, true))
  }

  function SetAll(m: map<NodeId, nat>, keys: seq<NodeId>, value: nat): map<NodeId, nat> {
    m + map k | k in keys :: value
  }

  function BecomeLeader(n: NodeState, term: nat): NodeState
    requires |n.log| > 0
  {
    if n.currentTerm != term || n.role != Candidate then n
    else
      n.(role := Leader,
         nextIndex := SetAll(n.nextIndex, n.peers, LastIndex(n.log) + 1),
         matchIndex := SetAll(n.matchIndex, n.peers, 0))
  }

  // ---- Replication on the leader ----

  /** The entry that Replicate appends. */
  function NewEntry(n: NodeState, command: Command): LogEntry
    requires |n.log| > 0
  {
    LogEntry(n.currentTerm, LastIndex(n.log) + 1, command)
  }

  function AppendCommand(n: NodeState, command: Command): NodeState
    requires |n.log| > 0
  {
    var entry := NewEntry(n, command);
    n.(log := n.log + [entry], matchIndex := n.matchIndex[n.id := entry.index])
  }

  /** The entries found at indices lo..hi, one lookup per index. */
  function EntriesBetween(log: Log, lo: nat, hi: nat): seq<LogEntry>
    decreases hi + 1 - lo
  {
    if lo > hi then []
    else
      var rest := EntriesBetween(log, lo + 1, hi);
      match EntryAt(log, lo)
      case Some(e) => [e] + rest
      case None => rest
  }

  function TermAt(log: Log, index: nat): nat {
    if index > 0 && EntryAt(log, index).Some? then EntryAt(log, index).value.term else 0
  }

  function BuildReplicate(n: NodeState, peer: NodeId, entry: LogEntry, term: nat, leaderCommit: nat): AppendEntriesArgs {
    var nextIdx := Lookup(n.nextIndex, peer);
    var prev := Dec64(nextIdx);
    AppendEntriesArgs(term, n.id, prev, TermAt(n.log, prev),
                      EntriesBetween(n.log, nextIdx, entry.index), leaderCommit)
  }

  function BuildHeartbeat(n: NodeState, peer: NodeId): AppendEntriesArgs
    requires |n.log| > 0
  {
    var nextIdx := Lookup(n.nextIndex, peer);
    if nextIdx <= LastIndex(n.log) then
      var prev := Dec64(nextIdx);
      AppendEntriesArgs(n.currentTerm, n.id, prev, TermAt(n.log, prev),
                        EntriesFrom(n.log, nextIdx), n.commitIndex)
    else
      AppendEntriesArgs(n.currentTerm, n.id, 0, 0, [], n.commitIndex)
  }

  /** A successful reply to replicateToPeer. */
  function RecordReplicated(n: NodeState, peer: NodeId, index: nat): NodeState {
    n.(matchIndex := if index > Lookup(n.matchIndex, peer) then n.matchIndex[peer := index] else n.matchIndex,
       nextIndex := n.nextIndex[peer := index + 1])
  }

  function BackOff(n: NodeState, peer: NodeId): NodeState {
    if Lookup(n.nextIndex, peer) > 1 then n.(nextIndex := n.nextIndex[peer := n.nextIndex[peer] - 1]) else n
  }

  /** A successful reply to a heartbeat that carried entries, up to the point
    * where the commit index is recomputed. */
  function RecordHeartbeat(n: NodeState, peer: NodeId, newMatch: nat): NodeState {
    if newMatch > Lookup(n.matchIndex, peer) then
      n.(matchIndex := n.matchIndex[peer := newMatch], nextIndex := n.nextIndex[peer := newMatch + 1])
    else n
  }

  // ---- Commit and apply ----

  function CountAtLeast(peers: seq<NodeId>, matchIndex: map<NodeId, nat>, index: nat): nat {
    if peers == [] then 0
    else (if Lookup(matchIndex, peers[0]) >= index then 1 else 0) + CountAtLeast(peers[1..], matchIndex, index)
  }

  predicate Replicated(n: NodeState, index: nat) {
    && EntryAt(n.log, index).Some?
    && EntryAt(n.log, index).value.term == n.currentTerm
    && 1 + CountAtLeast(n.peers, n.matchIndex, index) >= Majority(n.peers)
  }

  /** The last index in from..last that the commit loop accepts, else `commit`. */
  function AdvanceFrom(n: NodeState, from: nat, last: nat, commit: nat): nat
    decreases last + 1 - from
  {
    if from > last then commit
    else AdvanceFrom(n, from + 1, last, if Replicated(n, from) then from else commit)
  }

  function AdvanceCommit(n: NodeState): NodeState
    requires |n.log| > 0
  {
    n.(commitIndex := AdvanceFrom(n, n.commitIndex + 1, LastIndex(n.log), n.commitIndex))
  }

  /** Replicate has counted a majority for the entry at `index`. */
  function CommitEntry(n: NodeState, index: nat): NodeState {
    n.(commitIndex := Max(n.commitIndex, index))
  }

  function Collect(n: NodeState): NodeState {
    n.(lastApplied := Max(n.lastApplied, n.commitIndex))
  }

  /** The entries applyCommitted takes under the lock. */
  function Batch(n: NodeState): seq<LogEntry> {
    EntriesBetween(n.log, n.lastApplied + 1, n.commitIndex)
  }

  /** A reply to a heartbeat, handled whatever term and role the node has by
    * then. */
  function HandleHeartbeatReply(n: NodeState, peer: NodeId, args: AppendEntriesArgs, reply: AppendEntriesReply): NodeState
    requires |n.log| > 0
  {
    if reply.term > args.term then SignalStepDown(n, reply.term)
    else if args.entries == [] then n
    else if reply.success then AdvanceCommit(RecordHeartbeat(n, peer, args.prevLogIndex + |args.entries|))
    else BackOff(n, peer)
  }

  /** A reply to one round of replicateToPeer for the entry at `index`, handled
    * whatever term and role the node has by then. */
  function HandleReplicateReply(n: NodeState, peer: NodeId, index: nat, term: nat, reply: AppendEntriesReply): NodeState {
    if reply.term > term then SignalStepDown(n, reply.term)
    else if reply.success then RecordReplicated(n, peer, index)
    else BackOff(n, peer)
  }

  // ---- AppendEntries on the follower ----

  predicate PrevMatches(log: Log, args: AppendEntriesArgs) {
    args.prevLogIndex > 0 ==>
      && EntryAt(log, args.prevLogIndex).Some?
      && EntryAt(log, args.prevLogIndex).value.term == args.prevLogTerm
  }

  /** What HandleAppendEntries does before the log consistency check. */
  function EnterTerm(n: NodeState, term: nat): NodeState {
    var n1 := if term > n.currentTerm then BecomeFollower(n, term) else n;
    if n1.role == Candidate then n1.(role := Follower) else n1
  }

  function HandleAppendEntries(n: NodeState, args: AppendEntriesArgs): (NodeState, AppendEntriesReply)
    requires |n.log| > 0
  {
    if args.term < n.currentTerm then (n, AppendEntriesReply(n.currentTerm, false))
    else
      var n1 := EnterTerm(n, args.term);
      if !PrevMatches(n1.log, args) then (n1, AppendEntriesReply(n1.currentTerm, false))
      else
        MergeNonEmpty(n1.log, args.entries);
        var log := Merge(n1.log, args.entries);
        var commit :=
          if args.leaderCommit > n1.commitIndex then Min(args.leaderCommit, LastIndex(log)) else n1.commitIndex;
        (n1.(log := log, commitIndex := commit), AppendEntriesReply(n1.currentTerm, true))
  }
}
