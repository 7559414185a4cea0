/** Every event rewrites one node, its actor, and every handler leaves some of the
  * node's fields alone. */
module Actors {
  import opened RaftLog
  import opened RaftNode
  import opened Cluster

  ghost function Actor(s: State, e: Event): (n: NodeId)
    requires Enabled(s, e)
    ensures n in s.nodes
  {
    match e
    case Timeout(n) => n
    case Campaigning(n) => n
    case AnswerVote(n, _) => n
    case CountVote(m) => m.vargs.candidateId
    case Win(n) => n
    case StepDown(n) => n
    case ClientAppend(n, _) => n
    case SendReplicate(c, _) => s.calls[c].leader
    case SendHeartbeat(n, _) => n
    case HandleAppend(m) => m.peer
    case ReplicateReply(m) => s.calls[m.call.value].leader
    case HeartbeatReply(m) => m.args.leaderId
    case Return(c) => s.calls[c].leader
    case CollectCommitted(n) => n
  }

  ghost function NodeAfter(s: State, e: Event): NodeState
    requires Enabled(s, e) && |s.nodes[Actor(s, e)].log| > 0
  {
    var n := s.nodes[Actor(s, e)];
    match e
    case Timeout(_) => n.(role := Candidate)
    case Campaigning(_) => StartElection(n)
    case AnswerVote(_, m) => HandleRequestVote(n, m.vargs).0
    case CountVote(m) =>
      if m.vreply.term > s.campaigns[m.vargs.candidateId].term then BecomeFollower(n, m.vreply.term) else n
    case Win(v) => BecomeLeader(n, s.campaigns[v].term)
    case StepDown(_) => TakeStepDown(n)
    case ClientAppend(_, command) => AppendCommand(n, command)
    case SendReplicate(_, _) => n
    case SendHeartbeat(_, _) => n
    case HandleAppend(m) => HandleAppendEntries(n, m.args).0
    case ReplicateReply(m) =>
      HandleReplicateReply(n, m.peer, s.calls[m.call.value].entry.index, m.args.term, m.reply)
    case HeartbeatReply(m) => HandleHeartbeatReply(n, m.peer, m.args, m.reply)
    case Return(c) => CommitEntry(n, s.calls[c].entry.index)
    case CollectCommitted(_) => Collect(n)
  }

  lemma NodeLog(s: State, v: NodeId)
    requires LogsNonEmpty(s) && v in s.nodes
    ensures |s.nodes[v].log| > 0
  {
  }

  lemma QuietActorOnly(s: State, e: Event)
    requires LogsNonEmpty(s) && Enabled(s, e) && IsQuiet(e) && |s.nodes[Actor(s, e)].log| > 0
    ensures Step(s, e).nodes == s.nodes[Actor(s, e) := NodeAfter(s, e)]
  {
    hide LogsNonEmpty, StartElection, HandleRequestVote, BecomeFollower, BecomeLeader, TakeStepDown, HandleReplicateReply,
         RecordAck, CastVote, VoteArgs, BuildReplicate, BuildHeartbeat;
    assert s.nodes == s.nodes[Actor(s, e) := s.nodes[Actor(s, e)]];
  }

  lemma BusyActorOnly(s: State, e: Event)
    requires LogsNonEmpty(s) && Enabled(s, e) && !IsQuiet(e) && |s.nodes[Actor(s, e)].log| > 0
    ensures Step(s, e).nodes == s.nodes[Actor(s, e) := NodeAfter(s, e)]
  {
    hide LogsNonEmpty, AppendCommand, NewEntry, HandleAppendEntries, HandleHeartbeatReply, CommitEntry, Collect, Batch, RecordAck;
  }

  lemma ActorOnly(s: State, e: Event)
    requires LogsNonEmpty(s) && Enabled(s, e)
    ensures |s.nodes[Actor(s, e)].log| > 0
    ensures Step(s, e).nodes == s.nodes[Actor(s, e) := NodeAfter(s, e)]
  {
    NodeLog(s, Actor(s, e));
    hide LogsNonEmpty, Enabled, Step, Actor, NodeAfter;
    if IsQuiet(e) {
      QuietActorOnly(s, e);
    } else {
      BusyActorOnly(s, e);
    }
  }

  /** Every event: the node stays who it is, and its term does not fall. */
  ghost predicate Continues(n: NodeState, n': NodeState) {
    n'.id == n.id && n'.peers == n.peers && n.currentTerm <= n'.currentTerm
  }

  /** An event that neither writes the log nor moves indices of commit and apply. */
  predicate IsQuiet(e: Event) {
    !e.ClientAppend? && !e.HandleAppend? && !e.HeartbeatReply? && !e.Return? && !e.CollectCommitted?
  }

  /** Log, commit index and last applied stay. */
  ghost predicate KeepsCommit(n: NodeState, n': NodeState) {
    && n'.log == n.log && n'.commitIndex == n.commitIndex && n'.lastApplied == n.lastApplied
    && n.currentTerm <= n'.currentTerm
  }

  /** The node stops leading, or keeps leading its term with the same credits. */
  ghost predicate KeepsCredits(n: NodeState, n': NodeState) {
    n'.role == Leader ==>
      && n.role == Leader && n'.currentTerm == n.currentTerm && n'.peers == n.peers
      && forall p | p in n.peers :: Lookup(n'.matchIndex, p) == Lookup(n.matchIndex, p)
  }

  ghost predicate Effects(e: Event, n: NodeState, n': NodeState) {
    && Continues(n, n')
    && (!e.CollectCommitted? ==> n'.lastApplied == n.lastApplied)
    && (IsQuiet(e) ==> KeepsCommit(n, n'))
    && (!e.Win? && !e.ReplicateReply? && !e.HeartbeatReply? && n.id !in n.peers ==> KeepsCredits(n, n'))
  }

  lemma VoteEffects(e: Event, n: NodeState, args: RequestVoteArgs)
    requires e.AnswerVote? && |n.log| > 0
    ensures Effects(e, n, HandleRequestVote(n, args).0)
  {
    hide UpToDate;
  }

  lemma AppendEffects(e: Event, n: NodeState, args: AppendEntriesArgs)
    requires e.HandleAppend? && |n.log| > 0
    ensures Effects(e, n, HandleAppendEntries(n, args).0)
  {
    hide Merge, PrevMatches;
  }

  lemma HeartbeatEffects(e: Event, n: NodeState, p: NodeId, args: AppendEntriesArgs, reply: AppendEntriesReply)
    requires e.HeartbeatReply? && |n.log| > 0
    ensures Effects(e, n, HandleHeartbeatReply(n, p, args, reply))
  {
    hide AdvanceFrom;
  }

  lemma ReplicateEffects(e: Event, n: NodeState, p: NodeId, index: nat, term: nat, reply: AppendEntriesReply)
    requires e.ReplicateReply?
    ensures Effects(e, n, HandleReplicateReply(n, p, index, term, reply))
  {
  }

  lemma NodeEffects(s: State, e: Event)
    requires Enabled(s, e) && |s.nodes[Actor(s, e)].log| > 0
    ensures Effects(e, s.nodes[Actor(s, e)], NodeAfter(s, e))
  {
    hide HandleRequestVote, HandleAppendEntries, HandleHeartbeatReply, HandleReplicateReply, SetAll;
    var n := s.nodes[Actor(s, e)];
    match e
    case AnswerVote(_, m) => VoteEffects(e, n, m.vargs);
    case HandleAppend(m) => AppendEffects(e, n, m.args);
    case HeartbeatReply(m) => HeartbeatEffects(e, n, m.peer, m.args, m.reply);
    case ReplicateReply(m) => ReplicateEffects(e, n, m.peer, s.calls[m.call.value].entry.index, m.args.term, m.reply);
    case _ =>
  }

  /** The effects are those on every node of the cluster. */
  lemma StepEffects(s: State, e: Event, v: NodeId)
    requires LogsNonEmpty(s) && Enabled(s, e) && v in s.nodes
    ensures v in Step(s, e).nodes && Effects(e, s.nodes[v], Step(s, e).nodes[v])
  {
    hide Enabled, Step, LogsNonEmpty, Actor, NodeAfter;
    ActorOnly(s, e);
    NodeEffects(s, e);
  }

  lemma StepKeys(s: State, e: Event)
    requires LogsNonEmpty(s) && Enabled(s, e)
    ensures Step(s, e).nodes.Keys == s.nodes.Keys
  {
    hide Enabled, Step, LogsNonEmpty, Actor, NodeAfter;
    ActorOnly(s, e);
  }

  // ---- Calls, collected entries and history ----

  ghost predicate CallsExtended(s: State, s': State) {
    && |s.calls| <= |s'.calls|
    && forall c: nat | c < |s.calls| ::
         s'.calls[c].entry == s.calls[c].entry && s'.calls[c].commit == s.calls[c].commit
  }

  /** A quiet event sends at most a request, and touches no call's entry. */
  lemma QuietRest(s: State, e: Event)
    requires LogsNonEmpty(s) && Enabled(s, e) && IsQuiet(e)
    ensures Step(s, e).collected == s.collected && CallsExtended(s, Step(s, e)) && |Step(s, e).calls| == |s.calls|
    ensures !e.SendHeartbeat? && !e.SendReplicate? ==>
              forall m | m in Step(s, e).net && m !in s.net :: !m.AppendRequest?
  {
    hide LogsNonEmpty, CastVote, RecordAck, HandleRequestVote, HandleReplicateReply, BecomeFollower, BecomeLeader, VoteArgs,
         BuildReplicate, BuildHeartbeat, StartElection, TakeStepDown;
  }

  lemma BusyRest(s: State, e: Event)
    requires LogsNonEmpty(s) && Enabled(s, e) && !IsQuiet(e) && !e.CollectCommitted?
    ensures Step(s, e).collected == s.collected
  {
    hide LogsNonEmpty, RecordAck, HandleAppendEntries, HandleHeartbeatReply, AppendCommand, NewEntry, CommitEntry;
  }

  lemma CollectedKept(s: State, e: Event)
    requires LogsNonEmpty(s) && Enabled(s, e) && !e.CollectCommitted?
    ensures Step(s, e).collected == s.collected
  {
    hide LogsNonEmpty, Enabled, Step;
    if IsQuiet(e) { QuietRest(s, e); } else { BusyRest(s, e); }
  }

  /** The events that go on record. */
  predicate IsRecorded(e: Event) {
    e.Campaigning? || e.AnswerVote? || e.Win? || e.ClientAppend? || e.HandleAppend?
  }

  lemma HistoryKept(s: State, e: Event)
    requires LogsNonEmpty(s) && Enabled(s, e) && !IsRecorded(e)
    ensures Step(s, e).h == s.h
  {
    hide LogsNonEmpty, HandleHeartbeatReply, HandleReplicateReply, BecomeFollower, TakeStepDown, BuildReplicate, BuildHeartbeat,
         Batch, Collect, CommitEntry;
  }
}
