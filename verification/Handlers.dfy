/** What each critical section of a node does, field by field, and what it means for a
  * node to be told of a higher term. */
module Handlers {
  import opened RaftLog
  import opened RaftNode
  import opened CommitRule
  import opened Cluster
  import opened Actors
  import opened Elections

  // ---- Votes and office ----

  lemma FollowerLaw(n: NodeState, term: nat)
    ensures BecomeFollower(n, term) ==
            n.(role := Follower, currentTerm := Max(n.currentTerm, term),
               votedFor := if term > n.currentTerm then "" else n.votedFor)
  {
  }

  /** The answer to a vote request: its term is the voter's from then on, the higher of
    * the two; the vote is granted if and only if the request is not stale, the
    * candidate's log is no older, by last term and then by last index, and the voter has
    * no other vote in that term. */
  lemma VoteLaw(n: NodeState, args: RequestVoteArgs)
    requires |n.log| > 0
    ensures var (n', reply) := HandleRequestVote(n, args);
            && reply.term == n'.currentTerm == Max(n.currentTerm, args.term)
            && (reply.voteGranted <==>
                  && n.currentTerm <= args.term
                  && (args.lastLogTerm == LastTerm(n.log) ==> args.lastLogIndex >= LastIndex(n.log))
                  && args.lastLogTerm >= LastTerm(n.log)
                  && (n.currentTerm < args.term || n.votedFor == "" || n.votedFor == args.candidateId))
            && n' == n.(currentTerm := n'.currentTerm,
                        role := if n.currentTerm < args.term then Follower else n.role,
                        votedFor := if reply.voteGranted then args.candidateId
                                    else if n.currentTerm < args.term then "" else n.votedFor)
  {
  }

  /** A node takes office if and only if it is still a candidate of the term, and then
    * starts all peers just after its log, with nothing credited. */
  lemma OfficeLaw(n: NodeState, term: nat)
    requires WellFormed(n.log)
    ensures var n' := BecomeLeader(n, term);
            && (n.role == Candidate && n.currentTerm == term ==>
                  && n' == n.(role := Leader, nextIndex := n'.nextIndex, matchIndex := n'.matchIndex)
                  && n'.nextIndex.Keys == n.nextIndex.Keys + (set p | p in n.peers)
                  && n'.matchIndex.Keys == n.matchIndex.Keys + (set p | p in n.peers)
                  && (forall p | p in n'.nextIndex :: n'.nextIndex[p] == if p in n.peers then |n.log| else n.nextIndex[p])
                  && (forall p | p in n'.matchIndex :: n'.matchIndex[p] == if p in n.peers then 0 else n.matchIndex[p]))
            && (n.role != Candidate || n.currentTerm != term ==> n' == n)
  {
  }

  // ---- Appending and replies on the leader ----

  lemma AppendLaw(n: NodeState, command: Command)
    requires WellFormed(n.log)
    ensures AppendCommand(n, command) ==
            n.(log := n.log + [LogEntry(n.currentTerm, |n.log|, command)], matchIndex := n.matchIndex[n.id := |n.log|])
  {
  }

  /** A higher term in a reply is queued, unless four are waiting, and nothing else. */
  ghost predicate Queues(n: NodeState, n': NodeState, term: nat) {
    n' == n.(stepDowns := if |n.stepDowns| < 4 then n.stepDowns + [term] else n.stepDowns)
  }

  /** A rejection lowers the peer's next index by exactly one, and not below one. */
  ghost predicate BacksOff(n: NodeState, n': NodeState, p: NodeId) {
    && n' == n.(nextIndex := n'.nextIndex)
    && n'.nextIndex == if p in n.nextIndex && n.nextIndex[p] > 1 then n.nextIndex[p := n.nextIndex[p] - 1] else n.nextIndex
  }

  lemma ReplicateReplyLaw(n: NodeState, p: NodeId, index: nat, term: nat, reply: AppendEntriesReply)
    ensures var n' := HandleReplicateReply(n, p, index, term, reply);
            && (reply.term > term ==> Queues(n, n', reply.term))
            && (reply.term <= term && !reply.success ==> BacksOff(n, n', p))
            && (reply.term <= term && reply.success ==>
                  && n' == n.(nextIndex := n.nextIndex[p := index + 1], matchIndex := n'.matchIndex)
                  && n'.matchIndex == if index > Lookup(n.matchIndex, p) then n.matchIndex[p := index] else n.matchIndex)
  {
  }

  /** The answer to an empty heartbeat changes nothing, unless it is of a higher term. A
    * success of one with entries credits what was sent, if that is news, and commits the
    * majority-th match index, capped at the log's end, if it is ahead and of the current
    * term. */
  lemma HeartbeatReplyLaw(n: NodeState, p: NodeId, args: AppendEntriesArgs, reply: AppendEntriesReply)
    requires GapFree(n) && n.peers != [] && |n.log| > 0
    ensures var n' := HandleHeartbeatReply(n, p, args, reply);
            && (reply.term > args.term ==> Queues(n, n', reply.term))
            && (reply.term <= args.term && args.entries == [] ==> n' == n)
            && (reply.term <= args.term && args.entries != [] && !reply.success ==> BacksOff(n, n', p))
            && (reply.term <= args.term && args.entries != [] && reply.success ==>
                  && var last := args.prevLogIndex + |args.entries|;
                  && var news := last > Lookup(n.matchIndex, p);
                  && var n1 := n.(matchIndex := if news then n.matchIndex[p := last] else n.matchIndex,
                                  nextIndex := if news then n.nextIndex[p := last + 1] else n.nextIndex);
                  && var v := Min(QuorumMatch(n1), |n.log| - 1);
                     n' == n1.(commitIndex := if v > n.commitIndex && n.log[v].term == n.currentTerm then v
                                              else n.commitIndex))
  {
    hide QuorumMatch, AdvanceCommit, WellFormed;
    AdvanceIsOrderStatistic(RecordHeartbeat(n, p, args.prevLogIndex + |args.entries|));
  }

  /** Over a whole run: when a call returns nil, its leader's commit index is no lower than
    * the call's entry and no lower than before, and nothing else of any node changes. */
  lemma ReturnLaw(d: Discipline, peersOf: map<NodeId, seq<NodeId>>, r: Run, i: nat, c: nat)
    requires IsRun(d, peersOf, r) && i < |r.events| && r.events[i] == Return(c)
    ensures c < |r.states[i].calls| && r.states[i].calls[c].leader in r.states[i].nodes
    ensures var s, s', call := r.states[i], r.states[i + 1], r.states[i].calls[c];
            var n := s.nodes[call.leader];
            && s'.nodes == s.nodes[call.leader :=
                 n.(commitIndex := if n.commitIndex < call.entry.index then call.entry.index else n.commitIndex)]
            && s'.calls == s.calls[c := call.(returned := true)]
            && !call.returned && |call.acks| + 1 > (|n.peers| + 1) / 2
  {
    assert IsStep(d, r.states[i], r.events[i], r.states[i + 1]);
    hide IsRun, LogsNonEmpty, Allowed;
  }

  // ---- AppendEntries on the follower ----

  /** The answer to a request of another node: its term is the node's from then on; it is
    * a success if and only if the request is not stale and the predecessor is there, with
    * its term. */
  lemma AppendEntriesAnswer(n: NodeState, args: AppendEntriesArgs)
    requires WellFormed(n.log)
    ensures var (n', reply) := HandleAppendEntries(n, args);
            && reply.term == n'.currentTerm == Max(n.currentTerm, args.term)
            && (reply.success <==>
                  && n.currentTerm <= args.term
                  && (args.prevLogIndex > 0 ==>
                        args.prevLogIndex < |n.log| && n.log[args.prevLogIndex].term == args.prevLogTerm))
  {
    hide Merge, EntryAt, WellFormed;
    ScanIsIndexing(n.log, args.prevLogIndex);
    LogNotEmpty(n.log);
  }

  lemma LogNotEmpty(log: Log)
    requires WellFormed(log)
    ensures |log| > 0
  {
  }

  /** What the request changes: a stale one nothing; a rejected one at most the term, the
    * vote and the role; an accepted one also the log, cut at the first conflict and
    * extended, and the commit index, to the leader's but not beyond the log. */
  lemma AppendEntriesChanges(n: NodeState, args: AppendEntriesArgs)
    requires WellFormed(n.log) && Contiguous(args.entries, args.prevLogIndex + 1)
    ensures var (n', reply) := HandleAppendEntries(n, args);
            && (args.term < n.currentTerm ==> n' == n)
            && (args.term >= n.currentTerm ==>
                  n' == n.(currentTerm := args.term, votedFor := if args.term > n.currentTerm then "" else n.votedFor,
                           role := if args.term > n.currentTerm || n.role == Candidate then Follower else n.role,
                           log := n'.log, commitIndex := n'.commitIndex))
            && (!reply.success ==> n'.log == n.log && n'.commitIndex == n.commitIndex)
            && (reply.success ==>
                  && args.prevLogIndex < |n.log| && n'.log == CutAndAdd(n.log, args.prevLogIndex, args.entries)
                  && n'.log != []
                  && n'.commitIndex == if args.leaderCommit > n.commitIndex
                                       then Min(args.leaderCommit, LastIndex(n'.log)) else n.commitIndex)
  {
    AppendEntriesAnswer(n, args);
    LogNotEmpty(n.log);
    assert Contiguous(n.log, 0);
    hide Merge, PrevMatches, WellFormed, CutAndAdd, Contiguous;
    MergeNonEmpty(n.log, args.entries);
    if args.prevLogIndex < |n.log| {
      MergeIsCutAndAdd(n.log, args.prevLogIndex, args.entries);
    }
  }

  // ---- Being told of a higher term ----

  /** Over a whole run: a node ahead of a vote request answers with its term, and when the
    * candidate, still campaigning in the request's term, counts that answer, it ends its
    * campaign as a follower of a term no lower than the voter's. */
  lemma StaleCandidateStepsDown(
    d: Discipline, peersOf: map<NodeId, seq<NodeId>>, r: Run, i: nat, v: NodeId, args: RequestVoteArgs, j: nat)
    requires IsRun(d, peersOf, r) && i < |r.events| && j < |r.events|
    requires r.events[i] == AnswerVote(v, VoteRequest(args))
    requires v in r.states[i].nodes && r.states[i].nodes[v].currentTerm > args.term && |r.states[i].nodes[v].log| > 0
    requires r.events[j] == CountVote(VoteResponse(v, args, HandleRequestVote(r.states[i].nodes[v], args).1))
    ensures args.candidateId in r.states[j + 1].nodes && args.candidateId !in r.states[j + 1].campaigns
    ensures var n := r.states[j + 1].nodes[args.candidateId];
            n.role == Follower && n.currentTerm >= r.states[i].nodes[v].currentTerm
  {
    VoteLaw(r.states[i].nodes[v], args);
    assert IsStep(d, r.states[j], r.events[j], r.states[j + 1]);
    hide IsRun, HandleRequestVote, LogsNonEmpty, Allowed;
  }

  /** A term that waits in the step-down channel. */
  ghost predicate Told(n: NodeState, term: nat) {
    term in n.stepDowns || term <= n.currentTerm
  }

  lemma NodeStaysTold(s: State, e: Event, term: nat)
    requires Enabled(s, e) && |s.nodes[Actor(s, e)].log| > 0 && Told(s.nodes[Actor(s, e)], term)
    ensures Told(NodeAfter(s, e), term)
  {
    var n := s.nodes[Actor(s, e)];
    NodeEffects(s, e);
    if e.StepDown? {
      StepDownTakesFirst(n);
    } else {
      assert forall t | t in n.stepDowns :: t in NodeAfter(s, e).stepDowns by { QueueKept(s, e); }
    }
  }

  lemma StepDownTakesFirst(n: NodeState)
    requires n.stepDowns != []
    ensures var n' := TakeStepDown(n);
            && n'.role == Follower && n'.currentTerm == Max(n.currentTerm, n.stepDowns[0])
            && n'.stepDowns == n.stepDowns[1..]
            && forall t | t in n.stepDowns :: Told(n', t)
  {
    forall t | t in n.stepDowns ensures t in n.stepDowns[1..] || t == n.stepDowns[0] {
      var i :| 0 <= i < |n.stepDowns| && n.stepDowns[i] == t;
      if i > 0 { assert n.stepDowns[1..][i - 1] == t; }
    }
  }

  lemma QueueKept(s: State, e: Event)
    requires Enabled(s, e) && !e.StepDown? && |s.nodes[Actor(s, e)].log| > 0
    ensures var n, n' := s.nodes[Actor(s, e)], NodeAfter(s, e);
            && n.stepDowns <= n'.stepDowns
            && (|n.stepDowns| <= 4 ==> |n'.stepDowns| <= 4)
  {
    var n := s.nodes[Actor(s, e)];
    match e
    case AnswerVote(_, m) => VoteLaw(n, m.vargs); hide HandleRequestVote;
    case HandleAppend(m) => AppendKeepsQueue(n, m.args); hide HandleAppendEntries;
    case HeartbeatReply(m) => HeartbeatKeepsQueue(n, m.peer, m.args, m.reply); hide HandleHeartbeatReply;
    case ReplicateReply(m) =>
      ReplicateReplyLaw(n, m.peer, s.calls[m.call.value].entry.index, m.args.term, m.reply);
      hide HandleReplicateReply;
    case _ =>
  }

  lemma AppendKeepsQueue(n: NodeState, args: AppendEntriesArgs)
    requires |n.log| > 0
    ensures HandleAppendEntries(n, args).0.stepDowns == n.stepDowns
  {
    hide Merge, PrevMatches;
  }

  lemma HeartbeatKeepsQueue(n: NodeState, p: NodeId, args: AppendEntriesArgs, reply: AppendEntriesReply)
    requires |n.log| > 0
    ensures var n' := HandleHeartbeatReply(n, p, args, reply);
            n.stepDowns <= n'.stepDowns && (|n.stepDowns| <= 4 ==> |n'.stepDowns| <= 4)
  {
    hide AdvanceFrom;
  }

  /** Over a whole run: a term that reached the step-down channel waits there until the
    * node is in a term no lower. */
  lemma {:induction false} SignalIsKept(
    d: Discipline, peersOf: map<NodeId, seq<NodeId>>, r: Run, i: nat, j: nat, n: NodeId, term: nat)
    requires IsRun(d, peersOf, r) && i <= j < |r.states| && n in r.states[i].nodes && Told(r.states[i].nodes[n], term)
    ensures n in r.states[j].nodes && Told(r.states[j].nodes[n], term)
    decreases j
  {
    hide Step, Enabled, Allowed, ValidMembership, Told, Actor, NodeAfter, LogsNonEmpty;
    if i < j {
      SignalIsKept(d, peersOf, r, i, j - 1, n, term);
      var s, e := r.states[j - 1], r.events[j - 1];
      assert IsStep(d, s, e, r.states[j]);
      ActorOnly(s, e);
      if n == Actor(s, e) {
        NodeStaysTold(s, e, term);
      }
    }
  }

  /** Over a whole run: no more than four terms ever wait. */
  lemma {:induction false} QueueBounded(d: Discipline, peersOf: map<NodeId, seq<NodeId>>, r: Run, i: nat, n: NodeId)
    requires IsRun(d, peersOf, r) && i < |r.states| && n in r.states[i].nodes
    ensures |r.states[i].nodes[n].stepDowns| <= 4
    decreases i
  {
    hide Step, Enabled, Allowed, ValidMembership, Actor, NodeAfter, LogsNonEmpty;
    if i == 0 {
      assert r.states[0] == Init(peersOf);
    } else {
      var s, e := r.states[i - 1], r.events[i - 1];
      assert IsStep(d, s, e, r.states[i]);
      ActorOnly(s, e);
      assert n in s.nodes by { StepKeys(s, e); }
      QueueBounded(d, peersOf, r, i - 1, n);
      if n == Actor(s, e) {
        QueueAfter(s, e);
      }
    }
  }

  lemma QueueAfter(s: State, e: Event)
    requires Enabled(s, e) && |s.nodes[Actor(s, e)].log| > 0 && |s.nodes[Actor(s, e)].stepDowns| <= 4
    ensures |NodeAfter(s, e).stepDowns| <= 4
  {
    if e.StepDown? {
      StepDownTakesFirst(s.nodes[Actor(s, e)]);
    } else {
      QueueKept(s, e);
    }
  }

  /** Over a whole run: a leader that gets a reply of a higher term, while fewer than four
    * wait, is in no lower term once its channel is empty, and taking a term from the
    * channel makes it a follower. */
  lemma HigherReplyStepsDown(
    d: Discipline, peersOf: map<NodeId, seq<NodeId>>, r: Run, i: nat, m: Message, n: NodeId, j: nat)
    requires IsRun(d, peersOf, r) && i < |r.events| && i < j < |r.states| && m.AppendResponse? && m.reply.term > m.args.term
    requires r.events[i] == HeartbeatReply(m) || r.events[i] == ReplicateReply(m)
    requires Enabled(r.states[i], r.events[i]) && n == Actor(r.states[i], r.events[i])
    requires |r.states[i].nodes[n].stepDowns| < 4
    ensures n in r.states[j].nodes && Told(r.states[j].nodes[n], m.reply.term)
    ensures r.states[j].nodes[n].stepDowns == [] ==> r.states[j].nodes[n].currentTerm >= m.reply.term
    ensures j < |r.events| && r.events[j] == StepDown(n) ==>
              n in r.states[j + 1].nodes && r.states[j + 1].nodes[n].role == Follower
  {
    var s, e := r.states[i], r.events[i];
    assert IsStep(d, s, e, r.states[i + 1]);
    ActorOnly(s, e);
    HigherReplyQueued(s, e, m);
    if j < |r.events| {
      assert IsStep(d, r.states[j], r.events[j], r.states[j + 1]);
    }
    hide IsRun, Step, Enabled, Allowed, LogsNonEmpty;
    SignalIsKept(d, peersOf, r, i + 1, j, n, m.reply.term);
    if j < |r.events| && r.events[j] == StepDown(n) {
      StepDownFollows(r.states[j], n);
    }
  }

  lemma HigherReplyQueued(s: State, e: Event, m: Message)
    requires Enabled(s, e) && m.AppendResponse? && m.reply.term > m.args.term
    requires e == HeartbeatReply(m) || e == ReplicateReply(m)
    requires |s.nodes[Actor(s, e)].log| > 0 && |s.nodes[Actor(s, e)].stepDowns| < 4
    ensures Told(NodeAfter(s, e), m.reply.term)
  {
  }

  lemma StepDownFollows(s: State, n: NodeId)
    requires LogsNonEmpty(s) && Enabled(s, StepDown(n))
    ensures n in Step(s, StepDown(n)).nodes && Step(s, StepDown(n)).nodes[n].role == Follower
  {
    StepDownTakesFirst(s.nodes[n]);
    hide LogsNonEmpty, TakeStepDown;
  }
}
