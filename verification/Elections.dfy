/** What holds in every run of the code as written: one leader per term, and
  * gap-free logs whose terms never fall and stay within the node's term. */
module Elections {
  import opened Options
  import opened RaftLog
  import opened RaftNode
  import opened Quorums
  import opened Cluster

  // ---- Votes and elections ----

  ghost predicate Members(nodes: map<NodeId, NodeState>) {
    && |nodes| >= 2
    && "" !in nodes
    && forall v | v in nodes ::
         nodes[v].id == v && Distinct(nodes[v].peers) && SeqSet(nodes[v].peers) == nodes.Keys - {v}
  }

  /** A vote binds its voter for the term, and went to a candidate whose own
    * ballot is at least as up to date. */
  ghost predicate BallotOk(nodes: map<NodeId, NodeState>, h: History, v: NodeId, t: nat)
    requires (v, t) in h.ballots
  {
    var b := h.ballots[(v, t)];
    && v in nodes
    && 1 <= t <= nodes[v].currentTerm
    && (t == nodes[v].currentTerm ==> nodes[v].votedFor == b.candidate)
    && b.candidate in nodes
    && WellFormed(b.log)
    && (b.candidate == v ==> LastTerm(b.log) < t)
    && IsCandidacy(h, b.candidate, t)
    && UpToDate(LastTerm(Candidacy(h, b.candidate, t)), LastIndex(Candidacy(h, b.candidate, t)), b.log)
  }

  ghost predicate IsCandidacy(h: History, c: NodeId, t: nat) {
    (c, t) in h.ballots && h.ballots[(c, t)].candidate == c && |h.ballots[(c, t)].log| > 0
  }

  /** The log with which c stood for election in term t. */
  ghost function Candidacy(h: History, c: NodeId, t: nat): Log
    requires IsCandidacy(h, c, t)
  {
    h.ballots[(c, t)].log
  }

  ghost predicate VotedFor(h: History, v: NodeId, t: nat, c: NodeId) {
    (v, t) in h.ballots && h.ballots[(v, t)].candidate == c
  }

  ghost predicate ElectionOk(nodes: map<NodeId, NodeState>, h: History, t: nat)
    requires t in h.elections
  {
    var e := h.elections[t];
    && IsQuorum(nodes.Keys, e.voters)
    && e.leader in e.voters
    && forall v | v in e.voters :: VotedFor(h, v, t, e.leader)
  }

  ghost predicate VotesInv(nodes: map<NodeId, NodeState>, h: History) {
    && (forall v, t | (v, t) in h.ballots :: BallotOk(nodes, h, v, t))
    && (forall v | v in nodes && nodes[v].votedFor != "" :: (v, nodes[v].currentTerm) in h.ballots)
    && (forall t | t in h.elections :: ElectionOk(nodes, h, t))
  }

  // ---- Campaigns, vote messages and leaders ----

  ghost predicate CampaignOk(s: State, n: NodeId)
    requires n in s.campaigns
  {
    var c := s.campaigns[n];
    && n in s.nodes
    && n in c.voters
    && (forall v | v in c.voters :: VotedFor(s.h, v, c.term, n))
    && (c.term in s.h.elections ==> s.h.elections[c.term].leader != n)
    && (c.term == s.nodes[n].currentTerm && s.nodes[n].role == Candidate ==>
          s.nodes[n].log == s.h.ballots[(n, c.term)].log)
  }

  ghost predicate VoteMessageOk(s: State, m: Message) {
    && (m.VoteRequest? ==>
          var a := m.vargs;
          && a.candidateId in s.nodes
          && IsCandidacy(s.h, a.candidateId, a.term)
          && a.lastLogTerm == LastTerm(Candidacy(s.h, a.candidateId, a.term))
          && a.lastLogIndex == LastIndex(Candidacy(s.h, a.candidateId, a.term)))
    && (m.VoteResponse? && m.vreply.voteGranted ==> VotedFor(s.h, m.voter, m.vargs.term, m.vargs.candidateId))
  }

  ghost predicate LeaderElected(s: State, v: NodeId)
    requires v in s.nodes
  {
    s.nodes[v].role == Leader ==>
      s.nodes[v].currentTerm in s.h.elections && s.h.elections[s.nodes[v].currentTerm].leader == v
  }

  ghost predicate ElectionInv(s: State) {
    && Members(s.nodes)
    && VotesInv(s.nodes, s.h)
    && (forall n | n in s.campaigns :: CampaignOk(s, n))
    && (forall m | m in s.net :: VoteMessageOk(s, m))
    && (forall v | v in s.nodes :: LeaderElected(s, v))
  }

  // ---- Gap-free logs ----

  /** The shape of every request: a contiguous stretch after prevLogIndex whose
    * terms never fall, start no lower than prevLogTerm and stay within its term. */
  ghost predicate GoodArgs(args: AppendEntriesArgs) {
    && Contiguous(args.entries, args.prevLogIndex + 1)
    && (forall i | 0 <= i < |args.entries| ::
          && 1 <= args.entries[i].term <= args.term
          && args.prevLogTerm <= args.entries[i].term)
    && (forall i, j | 0 <= i <= j < |args.entries| :: args.entries[i].term <= args.entries[j].term)
  }

  ghost predicate GapFree(n: NodeState) {
    && WellFormed(n.log)
    && LastTerm(n.log) <= n.currentTerm
    && (forall p | p in n.nextIndex :: 1 <= n.nextIndex[p])
    && (n.role == Leader ==> forall p | p in n.peers :: p in n.nextIndex)
  }

  ghost predicate LogInv(s: State) {
    && (forall v | v in s.nodes :: GapFree(s.nodes[v]))
    && (forall m | m in s.net && (m.AppendRequest? || m.AppendResponse?) :: GoodArgs(m.args))
    && (forall c | 0 <= c < |s.calls| :: 1 <= s.calls[c].entry.index)
  }

  lemma {:induction false} EntriesBetweenIsSlice(log: Log, lo: nat, hi: nat)
    requires WellFormed(log)
    ensures EntriesBetween(log, lo, hi) ==
            if lo <= hi && lo < |log| then log[lo..Min(hi + 1, |log|)] else []
    decreases hi + 1 - lo
  {
    hide EntryAt, TruncateAfter, EntriesFrom, WellFormed;
    if lo <= hi {
      ScanIsIndexing(log, lo);
      EntriesBetweenIsSlice(log, lo + 1, hi);
      if lo < |log| {
        var end := Min(hi + 1, |log|);
        assert log[lo..end] == [log[lo]] + log[lo + 1..end];
      }
    }
  }

  /** What a heartbeat carries, by direct indexing. */
  lemma HeartbeatShape(n: NodeState, p: NodeId)
    requires GapFree(n) && p in n.nextIndex
    ensures var args, next := BuildHeartbeat(n, p), n.nextIndex[p];
            && args.term == n.currentTerm && args.leaderId == n.id && args.leaderCommit == n.commitIndex
            && args.prevLogIndex == (if next < |n.log| then next - 1 else 0)
            && args.prevLogTerm == n.log[args.prevLogIndex].term
            && args.entries == if next < |n.log| then n.log[next..] else []
  {
    hide EntryAt, EntriesFrom;
    ScanIsIndexing(n.log, n.nextIndex[p]);
    ScanIsIndexing(n.log, n.nextIndex[p] - 1);
  }

  /** What a request of Replicate carries, by direct indexing. */
  lemma ReplicateShape(n: NodeState, p: NodeId, entry: LogEntry, term: nat, commit: nat)
    requires GapFree(n) && p in n.nextIndex
    ensures var args, next := BuildReplicate(n, p, entry, term, commit), n.nextIndex[p];
            && args.term == term && args.leaderId == n.id && args.leaderCommit == commit
            && args.prevLogIndex == next - 1
            && args.prevLogTerm == (if next - 1 < |n.log| then n.log[next - 1].term else 0)
            && args.entries == if next <= entry.index && next < |n.log| then n.log[next..Min(entry.index + 1, |n.log|)] else []
  {
    hide EntryAt, EntriesBetween;
    EntriesBetweenIsSlice(n.log, n.nextIndex[p], entry.index);
    ScanIsIndexing(n.log, n.nextIndex[p] - 1);
  }

  /** Passing the predecessor check means agreeing with a matching log up to there. */
  lemma PrevAgrees(log: Log, leader: Log, args: AppendEntriesArgs)
    requires WellFormed(log) && WellFormed(leader) && LogsMatch(log, leader)
    requires args.prevLogIndex < |leader| && args.prevLogTerm == leader[args.prevLogIndex].term
    requires PrevMatches(log, args)
    ensures Agree(log, leader, args.prevLogIndex)
  {
    ScanIsIndexing(log, args.prevLogIndex);
  }

  lemma SliceIsGood(log: Log, lo: nat, hi: nat, term: nat, args: AppendEntriesArgs)
    requires WellFormed(log) && LastTerm(log) <= term
    requires 1 <= lo <= hi <= |log|
    requires args.entries == log[lo..hi] && args.prevLogIndex == lo - 1
    requires args.prevLogTerm <= log[lo - 1].term && args.term == term
    ensures GoodArgs(args)
  {
    forall i | 0 <= i < |args.entries|
      ensures args.entries[i] == log[lo + i] && args.prevLogTerm <= args.entries[i].term <= LastTerm(log)
    {
      assert log[lo - 1].term <= log[lo + i].term;
    }
  }

  lemma HeartbeatIsGood(n: NodeState, p: NodeId)
    requires GapFree(n) && p in n.nextIndex
    ensures GoodArgs(BuildHeartbeat(n, p))
  {
    hide BuildHeartbeat, WellFormed;
    HeartbeatShape(n, p);
    if n.nextIndex[p] < |n.log| {
      SliceIsGood(n.log, n.nextIndex[p], |n.log|, n.currentTerm, BuildHeartbeat(n, p));
    }
  }

  lemma ReplicateIsGood(n: NodeState, p: NodeId, entry: LogEntry, term: nat, commit: nat)
    requires GapFree(n) && p in n.nextIndex && n.currentTerm == term
    ensures GoodArgs(BuildReplicate(n, p, entry, term, commit))
  {
    hide BuildReplicate, WellFormed;
    var next := n.nextIndex[p];
    ReplicateShape(n, p, entry, term, commit);
    if next <= entry.index && next < |n.log| {
      SliceIsGood(n.log, next, Min(entry.index + 1, |n.log|), term, BuildReplicate(n, p, entry, term, commit));
    }
  }

  lemma CutAndAddWellFormed(log: Log, prev: nat, entries: seq<LogEntry>, term: nat)
    requires WellFormed(log) && LastTerm(log) <= term
    requires prev < |log| && Contiguous(entries, prev + 1)
    requires forall i | 0 <= i < |entries| :: 1 <= entries[i].term <= term && log[prev].term <= entries[i].term
    requires forall i, j | 0 <= i <= j < |entries| :: entries[i].term <= entries[j].term
    ensures WellFormed(CutAndAdd(log, prev, entries))
    ensures LastTerm(CutAndAdd(log, prev, entries)) <= term
  {
    hide WellFormed, Matched;
    var j := Matched(log, prev, entries);
    if j < |entries| {
      AddedFits(log, prev, entries, j);
      PrefixWellFormed(log, prev + 1 + j);
      JoinWellFormed(log[..prev + 1 + j], entries[j..]);
    }
  }

  lemma AddedFits(log: Log, prev: nat, entries: seq<LogEntry>, j: nat)
    requires prev + j < |log| && j < |entries| && Contiguous(entries, prev + 1)
    requires forall i | 0 <= i < |entries| :: 1 <= entries[i].term && log[prev].term <= entries[i].term
    requires forall i, k | 0 <= i <= k < |entries| :: entries[i].term <= entries[k].term
    requires j > 0 ==> log[prev + j].term == entries[j - 1].term
    ensures Contiguous(entries[j..], prev + 1 + j)
    ensures forall i | 0 <= i < |entries[j..]| :: log[prev + j].term <= entries[j..][i].term && 1 <= entries[j..][i].term
    ensures forall i, k | 0 <= i <= k < |entries[j..]| :: entries[j..][i].term <= entries[j..][k].term
  {
  }

  lemma JoinWellFormed(a: Log, b: seq<LogEntry>)
    requires WellFormed(a) && Contiguous(b, |a|)
    requires forall i | 0 <= i < |b| :: LastTerm(a) <= b[i].term && 1 <= b[i].term
    requires forall i, j | 0 <= i <= j < |b| :: b[i].term <= b[j].term
    ensures WellFormed(a + b)
  {
    var c := a + b;
    forall i, j | 0 <= i <= j < |c| ensures c[i].term <= c[j].term {
      if i < |a| { assert c[i].term <= LastTerm(a); }
    }
  }

  /** Accepting or rejecting a request leaves the follower's log gap-free. */
  lemma HandleKeepsGapFree(n: NodeState, args: AppendEntriesArgs)
    requires GapFree(n) && GoodArgs(args)
    ensures GapFree(HandleAppendEntries(n, args).0)
  {
    hide Merge, PrevMatches, WellFormed, GoodArgs;
    WellFormedNonEmpty(n.log);
    if args.term >= n.currentTerm && PrevMatches(n.log, args) {
      MergeWellFormed(n.log, args);
    }
  }

  lemma MergeWellFormed(log: Log, args: AppendEntriesArgs)
    requires WellFormed(log) && LastTerm(log) <= args.term && GoodArgs(args) && PrevMatches(log, args)
    ensures WellFormed(Merge(log, args.entries)) && LastTerm(Merge(log, args.entries)) <= args.term
  {
    hide Merge, EntryAt, CutAndAdd;
    ScanIsIndexing(log, args.prevLogIndex);
    MergeIsCutAndAdd(log, args.prevLogIndex, args.entries);
    CutAndAddWellFormed(log, args.prevLogIndex, args.entries, args.term);
  }

  lemma AppendKeepsGapFree(n: NodeState, command: Command)
    requires GapFree(n) && 1 <= n.currentTerm
    ensures GapFree(AppendCommand(n, command))
    ensures NewEntry(n, command).index == |n.log|
  {
    JoinWellFormed(n.log, [NewEntry(n, command)]);
  }

  /** A node function that keeps the log and does not lower the term. */
  lemma SameLogGapFree(n: NodeState, n': NodeState)
    requires GapFree(n) && n'.log == n.log && n.currentTerm <= n'.currentTerm && n'.peers == n.peers
    requires n'.role == Leader ==> n.role == Leader
    requires n.nextIndex.Keys <= n'.nextIndex.Keys
    requires forall p | p in n'.nextIndex :: 1 <= n'.nextIndex[p]
    ensures GapFree(n')
  {
    hide WellFormed;
  }

  /** A step that rewrites one node, keeping it gap-free, and sends at most one
    * well-shaped message. */
  lemma LogInvFrame(s: State, s': State, n: NodeId, sent: set<Message>)
    requires LogInv(s)
    requires n in s'.nodes && s'.nodes == s.nodes[n := s'.nodes[n]] && GapFree(s'.nodes[n])
    requires s'.net == s.net + sent
    requires forall m | m in sent && (m.AppendRequest? || m.AppendResponse?) :: GoodArgs(m.args)
    requires forall c | 0 <= c < |s'.calls| :: 1 <= s'.calls[c].entry.index
    ensures LogInv(s')
  {
    hide GapFree, GoodArgs;
  }

  lemma LeaderTermPositive(s: State, n: NodeId)
    requires ElectionInv(s) && n in s.nodes && s.nodes[n].role == Leader
    ensures 1 <= s.nodes[n].currentTerm
  {
    var t := s.nodes[n].currentTerm;
    assert LeaderElected(s, n);
    assert ElectionOk(s.nodes, s.h, t);
    assert VotedFor(s.h, n, t, n);
    assert BallotOk(s.nodes, s.h, n, t);
  }

  lemma LogParts(s: State, n: NodeId)
    requires LogInv(s) && n in s.nodes
    ensures GapFree(s.nodes[n]) && forall c | 0 <= c < |s.calls| :: 1 <= s.calls[c].entry.index
  {
    hide GapFree, GoodArgs;
  }

  lemma TimeoutLogInv(s: State, s': State, n: NodeId)
    requires n in s.nodes
    requires s' == DoTimeout(s, n)
    requires LogInv(s)
    ensures LogInv(s')
  {
    hide LogInv, WellFormed;
    LogParts(s, n);
    LogInvFrame(s, s', n, {});
  }

  lemma CampaignLogInv(s: State, s': State, n: NodeId)
    requires LogsNonEmpty(s) && n in s.nodes && s.nodes[n].role != Leader
    requires s' == DoCampaign(s, n)
    requires LogInv(s)
    ensures LogInv(s')
  {
    hide LogInv, WellFormed;
    LogParts(s, n);
    LogInvFrame(s, s', n, {VoteRequest(VoteArgs(StartElection(s.nodes[n])))});
  }

  lemma AnswerVoteLogInv(s: State, s': State, n: NodeId, m: Message)
    requires LogsNonEmpty(s) && n in s.nodes && m.VoteRequest?
    requires s' == DoAnswerVote(s, n, m)
    requires LogInv(s)
    ensures LogInv(s')
  {
    hide LogInv, WellFormed, UpToDate;
    LogParts(s, n);
    var (node, reply) := HandleRequestVote(s.nodes[n], m.vargs);
    SameLogGapFree(s.nodes[n], node);
    hide GapFree;
    LogInvFrame(s, s', n, {VoteResponse(n, m.vargs, reply)});
  }

  lemma CountVoteLogInv(s: State, s': State, m: Message)
    requires m.VoteResponse? && m.vargs.candidateId in s.nodes && m.vargs.candidateId in s.campaigns
    requires s' == DoCountVote(s, m)
    requires LogInv(s)
    ensures LogInv(s')
  {
    hide LogInv, WellFormed;
    var n := m.vargs.candidateId;
    LogParts(s, n);
    assert s.nodes == s.nodes[n := s.nodes[n]];
    LogInvFrame(s, s', n, {});
  }

  lemma WinLogInv(s: State, s': State, n: NodeId)
    requires LogsNonEmpty(s) && n in s.nodes && n in s.campaigns
    requires s' == DoWin(s, n)
    requires LogInv(s)
    ensures LogInv(s')
  {
    hide LogInv, RecordAck;
    LogParts(s, n);
    BecomeLeaderGapFree(s.nodes[n], s.campaigns[n].term);
    hide GapFree, BecomeLeader;
    LogInvFrame(s, s', n, {});
  }

  lemma BecomeLeaderGapFree(n: NodeState, term: nat)
    requires GapFree(n)
    ensures GapFree(BecomeLeader(n, term))
  {
    hide WellFormed;
    assert |n.log| > 0 by { WellFormedNonEmpty(n.log); }
  }

  lemma WellFormedNonEmpty(log: Log)
    requires WellFormed(log)
    ensures |log| > 0
  {
  }

  lemma StepDownLogInv(s: State, s': State, n: NodeId)
    requires n in s.nodes && s.nodes[n].stepDowns != []
    requires s' == DoStepDown(s, n)
    requires LogInv(s)
    ensures LogInv(s')
  {
    hide LogInv, WellFormed;
    LogParts(s, n);
    LogInvFrame(s, s', n, {});
  }

  lemma ClientAppendLogInv(s: State, s': State, n: NodeId, command: Command)
    requires LogsNonEmpty(s) && n in s.nodes && 1 <= s.nodes[n].currentTerm
    requires s' == DoClientAppend(s, n, command)
    requires LogInv(s)
    ensures LogInv(s')
  {
    hide LogInv, GapFree, RecordAck;
    LogParts(s, n);
    AppendKeepsGapFree(s.nodes[n], command);
    LogInvFrame(s, s', n, {});
  }

  lemma SendLogInv(s: State, m: Message)
    requires LogInv(s) && m.AppendRequest? && GoodArgs(m.args)
    ensures LogInv(Send(s, m))
  {
    hide GapFree, GoodArgs;
  }

  lemma SendReplicateLogInv(s: State, s': State, c: nat, p: NodeId)
    requires Enabled(s, SendReplicate(c, p))
    requires s' == DoSendReplicate(s, c, p)
    requires LogInv(s)
    ensures LogInv(s')
  {
    hide LogInv, WellFormed, GoodArgs, BuildReplicate;
    var call := s.calls[c];
    LogParts(s, call.leader);
    ReplicateIsGood(s.nodes[call.leader], p, call.entry, call.entry.term, call.commit);
    SendLogInv(s, ReplicateRequest(s, c, p));
  }

  lemma SendHeartbeatLogInv(s: State, s': State, n: NodeId, p: NodeId)
    requires LogsNonEmpty(s) && Enabled(s, SendHeartbeat(n, p))
    requires s' == DoSendHeartbeat(s, n, p)
    requires LogInv(s)
    ensures LogInv(s')
  {
    hide LogInv, GapFree, GoodArgs, BuildHeartbeat;
    LogParts(s, n);
    HeartbeatIsGood(s.nodes[n], p);
    SendLogInv(s, AppendRequest(p, BuildHeartbeat(s.nodes[n], p), None));
  }

  lemma HandleAppendLogInv(s: State, s': State, m: Message)
    requires LogsNonEmpty(s) && m in s.net && m.AppendRequest? && m.peer in s.nodes
    requires s' == DoHandleAppend(s, m)
    requires LogInv(s)
    ensures LogInv(s')
  {
    hide LogInv, GapFree, GoodArgs, HandleAppendEntries, RecordAck;
    LogParts(s, m.peer);
    RequestIsGood(s, m);
    HandleKeepsGapFree(s.nodes[m.peer], m.args);
    var reply := HandleAppendEntries(s.nodes[m.peer], m.args).1;
    LogInvFrame(s, s', m.peer, {AppendResponse(m.peer, m.args, m.call, reply)});
  }

  lemma RequestIsGood(s: State, m: Message)
    requires LogInv(s) && m in s.net && m.AppendRequest?
    ensures GoodArgs(m.args)
  {
    hide GapFree, GoodArgs;
  }

  lemma ReplicateReplyLogInv(s: State, s': State, m: Message)
    requires Enabled(s, ReplicateReply(m))
    requires s' == DoReplicateReply(s, m)
    requires LogInv(s)
    ensures LogInv(s')
  {
    hide LogInv, WellFormed;
    var n := s.nodes[s.calls[m.call.value].leader];
    LogParts(s, s.calls[m.call.value].leader);
    SameLogGapFree(n, HandleReplicateReply(n, m.peer, s.calls[m.call.value].entry.index, m.args.term, m.reply));
    hide GapFree, HandleReplicateReply;
    LogInvFrame(s, s', s.calls[m.call.value].leader, {});
  }

  lemma HeartbeatReplyLogInv(s: State, s': State, m: Message)
    requires LogsNonEmpty(s) && Enabled(s, HeartbeatReply(m))
    requires s' == DoHeartbeatReply(s, m)
    requires LogInv(s)
    ensures LogInv(s')
  {
    hide LogInv, GapFree, HandleHeartbeatReply;
    LogParts(s, m.args.leaderId);
    HeartbeatReplyKeepsGapFree(s.nodes[m.args.leaderId], m.peer, m.args, m.reply);
    LogInvFrame(s, s', m.args.leaderId, {});
  }

  lemma HeartbeatReplyKeepsGapFree(n: NodeState, peer: NodeId, args: AppendEntriesArgs, reply: AppendEntriesReply)
    requires |n.log| > 0 && GapFree(n)
    ensures GapFree(HandleHeartbeatReply(n, peer, args, reply))
  {
    hide WellFormed, AdvanceFrom;
    SameLogGapFree(n, HandleHeartbeatReply(n, peer, args, reply));
  }

  lemma ReturnLogInv(s: State, s': State, c: nat)
    requires Enabled(s, Return(c))
    requires s' == DoReturn(s, c)
    requires LogInv(s)
    ensures LogInv(s')
  {
    hide LogInv, WellFormed;
    LogParts(s, s.calls[c].leader);
    LogInvFrame(s, s', s.calls[c].leader, {});
  }

  lemma CollectLogInv(s: State, s': State, n: NodeId)
    requires Enabled(s, CollectCommitted(n))
    requires s' == DoCollect(s, n)
    requires LogInv(s)
    ensures LogInv(s')
  {
    hide LogInv, WellFormed;
    LogParts(s, n);
    LogInvFrame(s, s', n, {});
  }

  lemma VotingLogInvStep(s: State, e: Event)
    requires LogsNonEmpty(s) && Enabled(s, e)
    requires e.Timeout? || e.Campaigning? || e.AnswerVote? || e.CountVote? || e.Win? || e.StepDown? || e.CollectCommitted?
    requires LogInv(s)
    ensures LogInv(Step(s, e))
  {
    hide LogInv, LogsNonEmpty;
    match e
    case Timeout(n) => TimeoutLogInv(s, Step(s, e), n);
    case Campaigning(n) => CampaignLogInv(s, Step(s, e), n);
    case AnswerVote(n, m) => AnswerVoteLogInv(s, Step(s, e), n, m);
    case CountVote(m) => CountVoteLogInv(s, Step(s, e), m);
    case Win(n) => WinLogInv(s, Step(s, e), n);
    case StepDown(n) => StepDownLogInv(s, Step(s, e), n);
    case CollectCommitted(n) => CollectLogInv(s, Step(s, e), n);
  }

  lemma AppendLogInvStep(s: State, e: Event)
    requires LogsNonEmpty(s) && Enabled(s, e)
    requires e.ClientAppend? || e.SendReplicate? || e.SendHeartbeat? || e.HandleAppend?
    requires ElectionInv(s) && LogInv(s)
    ensures LogInv(Step(s, e))
  {
    hide ElectionInv, LogInv, LogsNonEmpty;
    match e
    case ClientAppend(n, command) => LeaderTermPositive(s, n); ClientAppendLogInv(s, Step(s, e), n, command);
    case SendReplicate(c, p) => SendReplicateLogInv(s, Step(s, e), c, p);
    case SendHeartbeat(n, p) => SendHeartbeatLogInv(s, Step(s, e), n, p);
    case HandleAppend(m) => HandleAppendLogInv(s, Step(s, e), m);
  }

  lemma ReplyLogInvStep(s: State, e: Event)
    requires LogsNonEmpty(s) && Enabled(s, e) && (e.ReplicateReply? || e.HeartbeatReply? || e.Return?)
    requires LogInv(s)
    ensures LogInv(Step(s, e))
  {
    hide LogInv, LogsNonEmpty;
    match e
    case ReplicateReply(m) => ReplicateReplyLogInv(s, Step(s, e), m);
    case HeartbeatReply(m) => HeartbeatReplyLogInv(s, Step(s, e), m);
    case Return(c) => ReturnLogInv(s, Step(s, e), c);
  }

  lemma LogInvStep(s: State, e: Event)
    requires LogsNonEmpty(s) && Enabled(s, e)
    requires ElectionInv(s) && LogInv(s)
    ensures LogInv(Step(s, e))
  {
    hide ElectionInv, LogInv, LogsNonEmpty, Enabled, Step;
    if e.ClientAppend? || e.SendReplicate? || e.SendHeartbeat? || e.HandleAppend? {
      AppendLogInvStep(s, e);
    } else if e.ReplicateReply? || e.HeartbeatReply? || e.Return? {
      ReplyLogInvStep(s, e);
    } else {
      VotingLogInvStep(s, e);
    }
  }

  // ---- Steps that cast no vote and elect nobody ----

  /** The node keeps its vote for its term, or enters a later term without one. */
  ghost predicate KeepsVote(n: NodeState, n': NodeState) {
    && n'.id == n.id && n'.peers == n.peers
    && n.currentTerm <= n'.currentTerm
    && n'.votedFor == (if n'.currentTerm == n.currentTerm then n.votedFor else "")
  }

  lemma VotesFrame(nodes: map<NodeId, NodeState>, h: History, n: NodeId, node: NodeState, h': History)
    requires n in nodes && KeepsVote(nodes[n], node)
    requires h'.ballots == h.ballots && h'.elections == h.elections
    requires VotesInv(nodes, h)
    ensures VotesInv(nodes[n := node], h')
  {
    hide BallotOk, ElectionOk;
    var nodes' := nodes[n := node];
    assert nodes'.Keys == nodes.Keys;
    forall v, t | (v, t) in h'.ballots ensures BallotOk(nodes', h', v, t) {
      FramedBallotOk(nodes, h, n, node, h', v, t);
    }
    forall t | t in h'.elections ensures ElectionOk(nodes', h', t) {
      ElectionKept(nodes, h, nodes', h', t);
    }
  }

  lemma FramedBallotOk(nodes: map<NodeId, NodeState>, h: History, n: NodeId, node: NodeState, h': History, v: NodeId, t: nat)
    requires n in nodes && KeepsVote(nodes[n], node) && h'.ballots == h.ballots
    requires (v, t) in h.ballots && BallotOk(nodes, h, v, t)
    ensures BallotOk(nodes[n := node], h', v, t)
  {
    hide WellFormed, UpToDate;
  }

  lemma MembersFrame(nodes: map<NodeId, NodeState>, n: NodeId, node: NodeState)
    requires Members(nodes) && n in nodes && node.id == nodes[n].id && node.peers == nodes[n].peers
    ensures Members(nodes[n := node])
  {
    assert nodes[n := node].Keys == nodes.Keys;
  }

  /** A campaign's term is not ahead of its candidate's. */
  lemma CampaignNotAhead(s: State, n: NodeId)
    requires VotesInv(s.nodes, s.h) && n in s.campaigns && CampaignOk(s, n)
    ensures s.campaigns[n].term <= s.nodes[n].currentTerm
  {
    assert VotedFor(s.h, n, s.campaigns[n].term, n);
    assert BallotOk(s.nodes, s.h, n, s.campaigns[n].term);
  }

  lemma CampaignsFrame(s: State, s': State, n: NodeId)
    requires VotesInv(s.nodes, s.h) && (forall c | c in s.campaigns :: CampaignOk(s, c))
    requires n in s.nodes && n in s'.nodes && s'.nodes == s.nodes[n := s'.nodes[n]]
    requires s.nodes[n].currentTerm <= s'.nodes[n].currentTerm
    requires s'.campaigns == s.campaigns || s'.campaigns == s.campaigns - {n}
    requires n in s'.campaigns && s'.nodes[n].role == Candidate ==>
               s.nodes[n].role == Candidate && s'.nodes[n].log == s.nodes[n].log
    requires s'.h.ballots == s.h.ballots && s'.h.elections == s.h.elections
    ensures forall c | c in s'.campaigns :: CampaignOk(s', c)
  {
    forall c | c in s'.campaigns ensures CampaignOk(s', c) {
      assert c in s.campaigns && s'.campaigns[c] == s.campaigns[c];
      assert CampaignOk(s, c);
      CampaignNotAhead(s, c);
    }
  }

  lemma VoteMessagesFrame(s: State, s': State, sent: set<Message>)
    requires forall m | m in s.net :: VoteMessageOk(s, m)
    requires s'.nodes.Keys == s.nodes.Keys && s'.h.ballots == s.h.ballots
    requires s'.net == s.net + sent
    requires forall m | m in sent :: VoteMessageOk(s', m)
    ensures forall m | m in s'.net :: VoteMessageOk(s', m)
  {
    forall m | m in s'.net ensures VoteMessageOk(s', m) {
      if m in s.net { assert VoteMessageOk(s, m); }
    }
  }

  /** What a step that casts no vote and elects nobody may do to node n. */
  ghost predicate NoVoteStep(s: State, s': State, n: NodeId) {
    && n in s.nodes && n in s'.nodes && s'.nodes == s.nodes[n := s'.nodes[n]]
    && KeepsVote(s.nodes[n], s'.nodes[n])
    && (s'.nodes[n].role == Leader ==>
          s.nodes[n].role == Leader && s'.nodes[n].currentTerm == s.nodes[n].currentTerm)
    && (s'.campaigns == s.campaigns || s'.campaigns == s.campaigns - {n})
    && (n in s'.campaigns && s'.nodes[n].role == Candidate ==>
          s.nodes[n].role == Candidate && s'.nodes[n].log == s.nodes[n].log)
    && s'.h.ballots == s.h.ballots && s'.h.elections == s.h.elections
  }

  lemma ElectionFrame(s: State, s': State, n: NodeId, sent: set<Message>)
    requires ElectionInv(s) && NoVoteStep(s, s', n)
    requires s'.net == s.net + sent
    requires forall m | m in sent :: VoteMessageOk(s', m)
    ensures ElectionInv(s')
  {
    VotesFrame(s.nodes, s.h, n, s'.nodes[n], s'.h);
    MembersFrame(s.nodes, n, s'.nodes[n]);
    CampaignsFrame(s, s', n);
    assert s'.nodes.Keys == s.nodes.Keys;
    VoteMessagesFrame(s, s', sent);
    LeadersFrame(s, s', n);
  }

  lemma LeadersFrame(s: State, s': State, n: NodeId)
    requires NoVoteStep(s, s', n)
    requires forall v | v in s.nodes :: LeaderElected(s, v)
    ensures forall v | v in s'.nodes :: LeaderElected(s', v)
  {
    forall v | v in s'.nodes ensures LeaderElected(s', v) {
      assert LeaderElected(s, v);
    }
  }

  lemma QuietStep(s: State, s': State, n: NodeId, sent: set<Message>)
    requires ElectionInv(s) && n in s.nodes
    requires s'.nodes == s.nodes && s'.campaigns == s.campaigns && s'.h == s.h
    requires s'.net == s.net + sent
    requires forall m | m in sent :: !m.VoteRequest? && !m.VoteResponse?
    ensures ElectionInv(s')
  {
    hide ElectionInv;
    assert s.nodes == s.nodes[n := s.nodes[n]];
    ElectionFrame(s, s', n, sent);
  }

  lemma TimeoutElectionInv(s: State, n: NodeId)
    requires ElectionInv(s) && n in s.nodes
    ensures ElectionInv(DoTimeout(s, n))
  {
    hide ElectionInv;
    ElectionFrame(s, DoTimeout(s, n), n, {});
  }

  lemma StepDownElectionInv(s: State, n: NodeId)
    requires ElectionInv(s) && n in s.nodes && s.nodes[n].stepDowns != []
    ensures ElectionInv(DoStepDown(s, n))
  {
    hide ElectionInv;
    ElectionFrame(s, DoStepDown(s, n), n, {});
  }

  lemma ClientAppendElectionInv(s: State, n: NodeId, command: Command)
    requires ElectionInv(s) && LogsNonEmpty(s) && n in s.nodes && s.nodes[n].role == Leader
    ensures ElectionInv(DoClientAppend(s, n, command))
  {
    hide ElectionInv;
    ElectionFrame(s, DoClientAppend(s, n, command), n, {});
  }

  lemma HandleAppendElectionInv(s: State, m: Message)
    requires LogsNonEmpty(s) && m.AppendRequest? && m.peer in s.nodes && ElectionInv(s)
    ensures ElectionInv(DoHandleAppend(s, m))
  {
    hide ElectionInv, HandleAppendEntries;
    var (node, reply) := HandleAppendEntries(s.nodes[m.peer], m.args);
    HandleKeepsVote(s.nodes[m.peer], m.args);
    ElectionFrame(s, DoHandleAppend(s, m), m.peer, {AppendResponse(m.peer, m.args, m.call, reply)});
  }

  lemma HandleKeepsVote(n: NodeState, args: AppendEntriesArgs)
    requires |n.log| > 0
    ensures var n' := HandleAppendEntries(n, args).0;
            && KeepsVote(n, n') && (n'.role == Candidate ==> n' == n)
            && (n'.role == Leader ==> n.role == Leader && n'.currentTerm == n.currentTerm)
            && n'.id == n.id && n'.peers == n.peers
  {
    hide Merge, EntryAt;
  }

  lemma ReplicateReplyElectionInv(s: State, s': State, m: Message)
    requires Enabled(s, ReplicateReply(m))
    requires s' == DoReplicateReply(s, m)
    requires ElectionInv(s)
    ensures ElectionInv(s')
  {
    hide ElectionInv;
    ElectionFrame(s, s', s.calls[m.call.value].leader, {});
  }

  lemma HeartbeatReplyElectionInv(s: State, s': State, m: Message)
    requires LogsNonEmpty(s) && Enabled(s, HeartbeatReply(m))
    requires s' == DoHeartbeatReply(s, m)
    requires ElectionInv(s)
    ensures ElectionInv(s')
  {
    hide ElectionInv;
    ElectionFrame(s, s', m.args.leaderId, {});
  }

  lemma ReturnElectionInv(s: State, s': State, c: nat)
    requires Enabled(s, Return(c))
    requires s' == DoReturn(s, c)
    requires ElectionInv(s)
    ensures ElectionInv(s')
  {
    hide ElectionInv;
    ElectionFrame(s, s', s.calls[c].leader, {});
  }

  lemma CollectElectionInv(s: State, s': State, n: NodeId)
    requires Enabled(s, CollectCommitted(n))
    requires s' == DoCollect(s, n)
    requires ElectionInv(s)
    ensures ElectionInv(s')
  {
    hide ElectionInv;
    ElectionFrame(s, s', n, {});
  }

  // ---- Casting a vote ----

  /** The vote n casts in t is its first there and goes to an up-to-date candidate. */
  ghost predicate FreshVote(nodes: map<NodeId, NodeState>, h: History, n: NodeId, node: NodeState, b: Ballot) {
    var t := node.currentTerm;
    && n in nodes && nodes[n].currentTerm <= t && 1 <= t
    && (n, t) !in h.ballots
    && node.votedFor == b.candidate && b.candidate in nodes
    && WellFormed(b.log)
    && (b.candidate == n ==> LastTerm(b.log) < t)
    && (b.candidate != n ==>
          && IsCandidacy(h, b.candidate, t)
          && UpToDate(LastTerm(Candidacy(h, b.candidate, t)), LastIndex(Candidacy(h, b.candidate, t)), b.log))
  }

  lemma VotesCast(nodes: map<NodeId, NodeState>, h: History, n: NodeId, node: NodeState, b: Ballot)
    requires VotesInv(nodes, h) && FreshVote(nodes, h, n, node, b)
    ensures VotesInv(nodes[n := node], CastVote(h, n, node.currentTerm, b))
  {
    hide BallotOk, ElectionOk;
    var nodes' := nodes[n := node];
    var h' := CastVote(h, n, node.currentTerm, b);
    assert nodes'.Keys == nodes.Keys;
    assert forall v, t, c | VotedFor(h, v, t, c) :: VotedFor(h', v, t, c);
    forall v, t | (v, t) in h'.ballots ensures BallotOk(nodes', h', v, t) {
      BallotCast(nodes, h, n, node, b, v, t);
    }
    forall t | t in h'.elections ensures ElectionOk(nodes', h', t) {
      ElectionKept(nodes, h, nodes', h', t);
    }
  }

  lemma ElectionKept(nodes: map<NodeId, NodeState>, h: History, nodes': map<NodeId, NodeState>, h': History, t: nat)
    requires t in h.elections && ElectionOk(nodes, h, t)
    requires nodes'.Keys == nodes.Keys
    requires t in h'.elections && h'.elections[t] == h.elections[t]
    requires forall v, c | VotedFor(h, v, t, c) :: VotedFor(h', v, t, c)
    ensures ElectionOk(nodes', h', t)
  {
  }

  lemma BallotCast(nodes: map<NodeId, NodeState>, h: History, n: NodeId, node: NodeState, b: Ballot, v: NodeId, t: nat)
    requires FreshVote(nodes, h, n, node, b)
    requires (v, t) == (n, node.currentTerm) || ((v, t) in h.ballots && BallotOk(nodes, h, v, t))
    ensures BallotOk(nodes[n := node], CastVote(h, n, node.currentTerm, b), v, t)
  {
    if (v, t) == (n, node.currentTerm) && b.candidate == n {
      assert UpToDate(LastTerm(b.log), LastIndex(b.log), b.log);
    }
  }

  /** Later history keeps every ballot and every election. */
  ghost predicate KeepsBallots(h: History, h': History) {
    && (forall k | k in h.ballots :: k in h'.ballots && h'.ballots[k] == h.ballots[k])
    && (forall t | t in h.elections :: t in h'.elections && h'.elections[t] == h.elections[t])
  }

  lemma VoteMessageKept(s: State, s': State, m: Message)
    requires VoteMessageOk(s, m) && KeepsBallots(s.h, s'.h) && s'.nodes.Keys == s.nodes.Keys
    ensures VoteMessageOk(s', m)
  {
  }

  /** A campaign survives a step that leaves its candidate alone, or that gives
    * its candidate no chance to win it with another log. */
  lemma CampaignKept(s: State, s': State, c: NodeId)
    requires c in s.campaigns && CampaignOk(s, c) && KeepsBallots(s.h, s'.h)
    requires c in s'.campaigns && s'.campaigns[c] == s.campaigns[c] && c in s'.nodes
    requires s.campaigns[c].term in s'.h.elections ==>
               s.campaigns[c].term in s.h.elections || s'.h.elections[s.campaigns[c].term].leader != c
    requires s'.nodes[c] == s.nodes[c] || s'.nodes[c].currentTerm != s.campaigns[c].term || s'.nodes[c].role != Candidate
    ensures CampaignOk(s', c)
  {
    assert forall v | VotedFor(s.h, v, s.campaigns[c].term, c) :: VotedFor(s'.h, v, s.campaigns[c].term, c);
  }

  lemma CastElectionInv(s: State, s': State, n: NodeId, b: Ballot, m: Message)
    requires ElectionInv(s)
    requires n in s'.nodes && s'.nodes == s.nodes[n := s'.nodes[n]]
    requires FreshVote(s.nodes, s.h, n, s'.nodes[n], b)
    requires s'.nodes[n].id == s.nodes[n].id && s'.nodes[n].peers == s.nodes[n].peers
    requires s'.h == CastVote(s.h, n, s'.nodes[n].currentTerm, b)
    requires s'.nodes[n].role == Leader ==> s'.nodes[n].currentTerm == s.nodes[n].currentTerm && s.nodes[n].role == Leader
    requires s'.net == s.net + {m} && VoteMessageOk(s', m)
    requires s'.campaigns == s.campaigns || s'.campaigns == s.campaigns[n := Campaign(s'.nodes[n].currentTerm, {n})]
    requires s'.campaigns != s.campaigns ==> b == Ballot(n, s'.nodes[n].log)
    ensures ElectionInv(s')
  {
    hide VotesInv, VoteMessageOk, CampaignOk, Members;
    VotesCast(s.nodes, s.h, n, s'.nodes[n], b);
    MembersFrame(s.nodes, n, s'.nodes[n]);
    assert s'.nodes.Keys == s.nodes.Keys;
    assert KeepsBallots(s.h, s'.h);
    forall k | k in s'.net ensures VoteMessageOk(s', k) {
      if k in s.net { VoteMessageKept(s, s', k); }
    }
    forall c | c in s'.campaigns ensures CampaignOk(s', c) {
      CampaignAfterCast(s, s', n, b, c);
    }
    forall v | v in s'.nodes ensures LeaderElected(s', v) {
      assert LeaderElected(s, v);
    }
  }

  lemma CampaignAfterCast(s: State, s': State, n: NodeId, b: Ballot, c: NodeId)
    requires c in s'.campaigns && n in s.nodes && n in s'.nodes && s'.nodes == s.nodes[n := s'.nodes[n]]
    requires s'.h == CastVote(s.h, n, s'.nodes[n].currentTerm, b)
    requires s'.campaigns == s.campaigns || s'.campaigns == s.campaigns[n := Campaign(s'.nodes[n].currentTerm, {n})]
    requires s'.campaigns != s.campaigns ==> b == Ballot(n, s'.nodes[n].log)
    requires (n, s'.nodes[n].currentTerm) !in s.h.ballots
    requires c in s.campaigns ==> CampaignOk(s, c)
    requires VotesInv(s.nodes, s.h)
    ensures CampaignOk(s', c)
  {
    hide VotesInv;
    if s'.campaigns == s.campaigns || c != n {
      assert KeepsBallots(s.h, s'.h);
      if c == n { assert VotedFor(s.h, n, s.campaigns[n].term, n); }
      hide CampaignOk, CastVote, KeepsBallots;
      CampaignKept(s, s', c);
    } else {
      LeadersVotedForSelf(s.nodes, s.h);
    }
  }

  lemma LeadersVotedForSelf(nodes: map<NodeId, NodeState>, h: History)
    requires VotesInv(nodes, h)
    ensures forall t | t in h.elections :: VotedFor(h, h.elections[t].leader, t, h.elections[t].leader)
  {
    forall t | t in h.elections ensures VotedFor(h, h.elections[t].leader, t, h.elections[t].leader) {
      assert ElectionOk(nodes, h, t);
    }
  }

  lemma BallotsBounded(nodes: map<NodeId, NodeState>, h: History)
    requires VotesInv(nodes, h)
    ensures forall v, t | (v, t) in h.ballots :: v in nodes && 1 <= t <= nodes[v].currentTerm
  {
    forall v, t | (v, t) in h.ballots ensures v in nodes && 1 <= t <= nodes[v].currentTerm {
      assert BallotOk(nodes, h, v, t);
    }
  }

  lemma CampaignElectionInv(s: State, s': State, n: NodeId)
    requires LogsNonEmpty(s) && Enabled(s, Campaigning(n)) && s' == DoCampaign(s, n)
    requires ElectionInv(s) && LogInv(s)
    ensures ElectionInv(s')
  {
    hide ElectionInv, LogInv, WellFormed;
    var node := s'.nodes[n];
    LogParts(s, n);
    assert s.nodes[n].id == n && n != "" && (n, node.currentTerm) !in s.h.ballots by {
      NoFutureBallot(s, n, node.currentTerm);
    }
    CastElectionInv(s, s', n, Ballot(n, node.log), VoteRequest(VoteArgs(node)));
  }

  lemma NoFutureBallot(s: State, n: NodeId, t: nat)
    requires ElectionInv(s) && n in s.nodes && t > s.nodes[n].currentTerm
    ensures s.nodes[n].id == n && n != "" && (n, t) !in s.h.ballots
  {
    BallotsBounded(s.nodes, s.h);
  }

  /** The node's vote in its own term is on record exactly while it is set. */
  lemma VoteOnRecord(s: State, n: NodeId)
    requires ElectionInv(s) && n in s.nodes
    ensures var t := s.nodes[n].currentTerm;
            && "" !in s.nodes
            && (s.nodes[n].votedFor != "" <==> (n, t) in s.h.ballots)
            && ((n, t) in s.h.ballots ==> VotedFor(s.h, n, t, s.nodes[n].votedFor))
  {
    var t := s.nodes[n].currentTerm;
    if (n, t) in s.h.ballots { assert BallotOk(s.nodes, s.h, n, t); }
  }

  lemma AnswerVoteElectionInv(s: State, n: NodeId, m: Message)
    requires m in s.net && m.VoteRequest? && n in s.nodes && n != m.vargs.candidateId && ElectionInv(s) && LogInv(s)
    ensures LogsNonEmpty(s) && ElectionInv(DoAnswerVote(s, n, m))
  {
    assert LogsNonEmpty(s) by { GapFreeNonEmpty(s); }
    hide ElectionInv, LogInv, LogsNonEmpty, HandleRequestVote;
    if !HandleRequestVote(s.nodes[n], m.vargs).1.voteGranted {
      RefuseElectionInv(s, n, m);
    } else if (n, m.vargs.term) !in s.h.ballots {
      GrantElectionInv(s, n, m);
    } else {
      RegrantElectionInv(s, n, m);
    }
  }

  lemma RefuseElectionInv(s: State, n: NodeId, m: Message)
    requires m.VoteRequest? && n in s.nodes && LogsNonEmpty(s)
    requires !HandleRequestVote(s.nodes[n], m.vargs).1.voteGranted
    requires ElectionInv(s)
    ensures ElectionInv(DoAnswerVote(s, n, m))
  {
    hide ElectionInv, UpToDate;
    var (node, reply) := HandleRequestVote(s.nodes[n], m.vargs);
    ElectionFrame(s, DoAnswerVote(s, n, m), n, {VoteResponse(n, m.vargs, reply)});
  }

  lemma RegrantElectionInv(s: State, n: NodeId, m: Message)
    requires m.VoteRequest? && n in s.nodes && LogsNonEmpty(s)
    requires HandleRequestVote(s.nodes[n], m.vargs).1.voteGranted && (n, m.vargs.term) in s.h.ballots
    requires ElectionInv(s)
    ensures ElectionInv(DoAnswerVote(s, n, m))
  {
    hide ElectionInv, HandleRequestVote;
    var (node, reply) := HandleRequestVote(s.nodes[n], m.vargs);
    RegrantIsSameVote(s, n, m);
    ElectionFrame(s, DoAnswerVote(s, n, m), n, {VoteResponse(n, m.vargs, reply)});
  }

  lemma GapFreeNonEmpty(s: State)
    requires LogInv(s)
    ensures LogsNonEmpty(s)
  {
    forall v | v in s.nodes ensures |s.nodes[v].log| > 0 {
      assert GapFree(s.nodes[v]);
    }
  }

  lemma GrantElectionInv(s: State, n: NodeId, m: Message)
    requires m in s.net && m.VoteRequest? && n in s.nodes && n != m.vargs.candidateId && LogsNonEmpty(s)
    requires HandleRequestVote(s.nodes[n], m.vargs).1.voteGranted
    requires (n, m.vargs.term) !in s.h.ballots
    requires ElectionInv(s) && LogInv(s)
    ensures ElectionInv(DoAnswerVote(s, n, m))
  {
    hide ElectionInv, LogInv, WellFormed;
    GrantParts(s, n, m);
    var (node, reply) := HandleRequestVote(s.nodes[n], m.vargs);
    CastElectionInv(s, DoAnswerVote(s, n, m), n, Ballot(m.vargs.candidateId, node.log), VoteResponse(n, m.vargs, reply));
  }

  lemma GrantParts(s: State, n: NodeId, m: Message)
    requires m in s.net && m.VoteRequest? && n in s.nodes
    requires ElectionInv(s) && LogInv(s)
    ensures VoteMessageOk(s, m) && WellFormed(s.nodes[n].log) && 1 <= m.vargs.term
  {
    assert VoteMessageOk(s, m) && GapFree(s.nodes[n]);
    hide LogInv, CampaignOk, WellFormed;
    BallotsBounded(s.nodes, s.h);
  }

  lemma RegrantIsSameVote(s: State, n: NodeId, m: Message)
    requires ElectionInv(s) && LogsNonEmpty(s) && m.VoteRequest? && n in s.nodes
    requires (n, m.vargs.term) in s.h.ballots
    requires HandleRequestVote(s.nodes[n], m.vargs).1.voteGranted
    ensures HandleRequestVote(s.nodes[n], m.vargs).0 == s.nodes[n]
    ensures VotedFor(s.h, n, m.vargs.term, m.vargs.candidateId)
  {
    BallotsBounded(s.nodes, s.h);
    VoteOnRecord(s, n);
  }

  lemma CountVoteElectionInv(s: State, s': State, m: Message)
    requires Enabled(s, CountVote(m))
    requires s' == DoCountVote(s, m)
    requires ElectionInv(s)
    ensures ElectionInv(s')
  {
    hide ElectionInv;
    var n := m.vargs.candidateId;
    if m.vreply.term > s.campaigns[n].term {
      ElectionFrame(s, s', n, {});
    } else if m.vreply.voteGranted {
      VoteCounted(s, s', m);
    }
  }

  lemma VoteCounted(s: State, s': State, m: Message)
    requires Enabled(s, CountVote(m)) && m.vreply.voteGranted
    requires var n := m.vargs.candidateId;
             s' == s.(campaigns := s.campaigns[n := s.campaigns[n].(voters := s.campaigns[n].voters + {m.voter})])
    requires ElectionInv(s)
    ensures ElectionInv(s')
  {
    hide VotesInv, Members, VoteMessageOk, CampaignOk, LeaderElected;
    GrantIsVote(s, m);
    forall c | c in s'.campaigns ensures CampaignOk(s', c) {
      CountedCampaign(s, s', m, c);
    }
    forall k | k in s'.net ensures VoteMessageOk(s', k) {
      VoteMessageKept(s, s', k);
    }
    forall v | v in s'.nodes ensures LeaderElected(s', v) {
      SameLeaderElected(s, s', v);
    }
  }

  lemma CountedCampaign(s: State, s': State, m: Message, c: NodeId)
    requires Enabled(s, CountVote(m)) && VotedFor(s.h, m.voter, m.vargs.term, m.vargs.candidateId)
    requires var n := m.vargs.candidateId;
             s' == s.(campaigns := s.campaigns[n := s.campaigns[n].(voters := s.campaigns[n].voters + {m.voter})])
    requires c in s.campaigns && CampaignOk(s, c)
    ensures CampaignOk(s', c)
  {
  }

  lemma SameLeaderElected(s: State, s': State, v: NodeId)
    requires v in s.nodes && s'.nodes == s.nodes && s'.h == s.h && LeaderElected(s, v)
    ensures LeaderElected(s', v)
  {
  }

  lemma GrantIsVote(s: State, m: Message)
    requires VoteMessageOk(s, m) && m.VoteResponse? && m.vreply.voteGranted
    ensures VotedFor(s.h, m.voter, m.vargs.term, m.vargs.candidateId)
  {
  }

  // ---- Winning ----

  /** Nobody has won a term that a live candidate with a majority stands in. */
  lemma CampaignParts(s: State, n: NodeId)
    requires ElectionInv(s) && n in s.nodes && n in s.campaigns
    ensures CampaignOk(s, n) && VotesInv(s.nodes, s.h)
    ensures Distinct(s.nodes[n].peers) && SeqSet(s.nodes[n].peers) == s.nodes.Keys - {n}
  {
    hide VotesInv, CampaignOk, VoteMessageOk;
  }

  lemma TermNotYetWon(s: State, n: NodeId)
    requires ElectionInv(s) && n in s.nodes && n in s.campaigns
    requires |s.campaigns[n].voters| >= Majority(s.nodes[n].peers)
    ensures s.campaigns[n].term !in s.h.elections
    ensures IsQuorum(s.nodes.Keys, s.campaigns[n].voters)
  {
    var c := s.campaigns[n];
    CampaignParts(s, n);
    hide ElectionInv;
    VotersAreMembers(s, c.voters, c.term, n);
    DistinctSize(s.nodes[n].peers);
    assert |s.nodes.Keys| == |SeqSet(s.nodes[n].peers)| + 1 by {
      assert s.nodes.Keys == SeqSet(s.nodes[n].peers) + {n};
    }
    if c.term in s.h.elections {
      MajorityChose(s.nodes, s.h, c.term, c.voters, n);
    }
  }

  /** A majority that voted for n in t has elected n. */
  lemma MajorityChose(nodes: map<NodeId, NodeState>, h: History, t: nat, voters: set<NodeId>, n: NodeId)
    requires VotesInv(nodes, h) && t in h.elections
    requires IsQuorum(nodes.Keys, voters) && forall v | v in voters :: VotedFor(h, v, t, n)
    ensures h.elections[t].leader == n
  {
    assert ElectionOk(nodes, h, t);
    var v := QuorumsMeet(nodes.Keys, voters, h.elections[t].voters);
    assert VotedFor(h, v, t, n) && VotedFor(h, v, t, h.elections[t].leader);
  }

  lemma VotersAreMembers(s: State, voters: set<NodeId>, t: nat, n: NodeId)
    requires VotesInv(s.nodes, s.h) && forall v | v in voters :: VotedFor(s.h, v, t, n)
    ensures voters <= s.nodes.Keys
  {
    forall v | v in voters ensures v in s.nodes {
      assert VotedFor(s.h, v, t, n);
      assert BallotOk(s.nodes, s.h, v, t);
    }
  }

  lemma WinElectionInv(s: State, s': State, n: NodeId)
    requires LogsNonEmpty(s) && Enabled(s, Win(n))
    requires s' == DoWin(s, n)
    requires ElectionInv(s)
    ensures ElectionInv(s')
  {
    hide ElectionInv, SetAll;
    var c := s.campaigns[n];
    if s.nodes[n].currentTerm == c.term && s.nodes[n].role == Candidate {
      TermNotYetWon(s, n);
      WonElectionInv(s, s', n);
    } else {
      ElectionFrame(s, s', n, {});
    }
  }

  lemma WonElectionInv(s: State, s': State, n: NodeId)
    requires ElectionInv(s) && n in s.nodes && n in s.campaigns
    requires s.campaigns[n].term !in s.h.elections && IsQuorum(s.nodes.Keys, s.campaigns[n].voters)
    requires s.nodes[n].currentTerm == s.campaigns[n].term
    requires n in s'.nodes && s'.nodes == s.nodes[n := s'.nodes[n]]
    requires KeepsVote(s.nodes[n], s'.nodes[n]) && s'.nodes[n].currentTerm == s.nodes[n].currentTerm
    requires s'.campaigns == s.campaigns - {n} && s'.net == s.net
    requires s'.h.ballots == s.h.ballots
    requires s'.h.elections == s.h.elections[s.campaigns[n].term := Election(n, s.campaigns[n].voters)]
    ensures ElectionInv(s')
  {
    hide Members, VotesInv, CampaignOk, VoteMessageOk, LeaderElected;
    WonVotesInv(s, s', n);
    MembersFrame(s.nodes, n, s'.nodes[n]);
    assert s'.nodes.Keys == s.nodes.Keys && KeepsBallots(s.h, s'.h);
    forall k | k in s'.net ensures VoteMessageOk(s', k) {
      VoteMessageKept(s, s', k);
    }
    forall k | k in s'.campaigns ensures CampaignOk(s', k) {
      WonCampaignKept(s, s', n, k);
    }
    forall v | v in s'.nodes ensures LeaderElected(s', v) {
      WonLeaderElected(s, s', n, v);
    }
  }

  lemma WonLeaderElected(s: State, s': State, n: NodeId, v: NodeId)
    requires n in s.nodes && n in s'.nodes && s'.nodes == s.nodes[n := s'.nodes[n]] && v in s.nodes && n in s.campaigns
    requires s.campaigns[n].term !in s.h.elections && s'.nodes[n].currentTerm == s.campaigns[n].term
    requires s'.h.elections == s.h.elections[s.campaigns[n].term := Election(n, s.campaigns[n].voters)]
    requires LeaderElected(s, v)
    ensures LeaderElected(s', v)
  {
  }

  lemma WonCampaignKept(s: State, s': State, n: NodeId, k: NodeId)
    requires k in s.campaigns && k != n && CampaignOk(s, k)
    requires n in s.campaigns && n in s'.nodes && s'.nodes == s.nodes[n := s'.nodes[n]]
    requires s'.campaigns == s.campaigns - {n} && KeepsBallots(s.h, s'.h)
    requires s'.h.elections == s.h.elections[s.campaigns[n].term := Election(n, s.campaigns[n].voters)]
    ensures CampaignOk(s', k)
  {
    CampaignKept(s, s', k);
  }

  lemma WonVotesInv(s: State, s': State, n: NodeId)
    requires VotesInv(s.nodes, s.h) && n in s.nodes && n in s.campaigns && CampaignOk(s, n)
    requires s.campaigns[n].term !in s.h.elections && IsQuorum(s.nodes.Keys, s.campaigns[n].voters)
    requires n in s'.nodes && s'.nodes == s.nodes[n := s'.nodes[n]]
    requires KeepsVote(s.nodes[n], s'.nodes[n])
    requires s'.h.ballots == s.h.ballots
    requires s'.h.elections == s.h.elections[s.campaigns[n].term := Election(n, s.campaigns[n].voters)]
    ensures VotesInv(s'.nodes, s'.h)
  {
    var c := s.campaigns[n];
    ElectionAdded(s.nodes, s.h, c.term, Election(n, c.voters));
    VotesFrame(s.nodes, s.h.(elections := s'.h.elections), n, s'.nodes[n], s'.h);
  }

  lemma SameBallotOk(nodes: map<NodeId, NodeState>, h: History, h': History, v: NodeId, t: nat)
    requires (v, t) in h.ballots && BallotOk(nodes, h, v, t) && h'.ballots == h.ballots
    ensures BallotOk(nodes, h', v, t)
  {
    hide WellFormed, UpToDate;
  }

  lemma ElectionAdded(nodes: map<NodeId, NodeState>, h: History, t: nat, e: Election)
    requires VotesInv(nodes, h) && t !in h.elections
    requires ElectionOk(nodes, h.(elections := h.elections[t := e]), t)
    ensures VotesInv(nodes, h.(elections := h.elections[t := e]))
  {
    var h' := h.(elections := h.elections[t := e]);
    hide BallotOk, ElectionOk;
    forall v, u | (v, u) in h'.ballots ensures BallotOk(nodes, h', v, u) {
      SameBallotOk(nodes, h, h', v, u);
    }
    forall u | u in h'.elections ensures ElectionOk(nodes, h', u) {
      if u != t { ElectionKept(nodes, h, nodes, h', u); }
    }
  }

  lemma SendHeartbeatElectionInv(s: State, n: NodeId, p: NodeId)
    requires ElectionInv(s) && LogsNonEmpty(s) && n in s.nodes
    ensures ElectionInv(DoSendHeartbeat(s, n, p))
  {
    hide ElectionInv;
    QuietStep(s, DoSendHeartbeat(s, n, p), n, {AppendRequest(p, BuildHeartbeat(s.nodes[n], p), None)});
  }

  // ---- All events ----

  lemma ElectionInvStep(s: State, e: Event)
    requires ElectionInv(s) && LogInv(s) && LogsNonEmpty(s) && Enabled(s, e)
    ensures ElectionInv(Step(s, e))
  {
    hide ElectionInv, LogInv, LogsNonEmpty;
    match e
    case Timeout(n) => TimeoutElectionInv(s, n);
    case Campaigning(n) => CampaignElectionInv(s, Step(s, e), n);
    case AnswerVote(n, m) => AnswerVoteElectionInv(s, n, m);
    case CountVote(m) => CountVoteElectionInv(s, Step(s, e), m);
    case Win(n) => WinElectionInv(s, Step(s, e), n);
    case StepDown(n) => StepDownElectionInv(s, n);
    case ClientAppend(n, command) => ClientAppendElectionInv(s, n, command);
    case SendReplicate(c, p) => QuietStep(s, Step(s, e), s.calls[c].leader, {ReplicateRequest(s, c, p)});
    case SendHeartbeat(n, p) => SendHeartbeatElectionInv(s, n, p);
    case HandleAppend(m) => HandleAppendElectionInv(s, m);
    case ReplicateReply(m) => ReplicateReplyElectionInv(s, Step(s, e), m);
    case HeartbeatReply(m) => HeartbeatReplyElectionInv(s, Step(s, e), m);
    case Return(c) => ReturnElectionInv(s, Step(s, e), c);
    case CollectCommitted(n) => CollectElectionInv(s, Step(s, e), n);
  }
}
