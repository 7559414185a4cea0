/** Replication, in runs with guarded heartbeats: every request with entries is a
  * window of its term's ledger, every success is an acknowledgement, and a leader's
  * log is its term's ledger. */
module Replication {
  import opened Options
  import opened RaftLog
  import opened RaftNode
  import opened Quorums
  import opened Cluster
  import opened Elections
  import opened Ledger

  /** A next index beyond the log yields a request without predecessor term,
    * which every follower rejects. */
  ghost predicate IsDud(args: AppendEntriesArgs) {
    args.prevLogIndex > 0 && args.prevLogTerm == 0
  }

  ghost function LastSent(args: AppendEntriesArgs): nat {
    args.prevLogIndex + |args.entries|
  }

  /** The request is empty or a window of the ledger of its term. */
  ghost predicate RequestOk(h: History, args: AppendEntriesArgs) {
    IsChecked(args) ==>
      && args.term in h.ledger
      && (IsDud(args) ||
          (&& IsWindow(h.ledger[args.term], args.prevLogIndex, args.entries)
           && args.prevLogTerm == h.ledger[args.term][args.prevLogIndex].term))
  }

  /** A request of Replicate reaches its entry and goes to another node. */
  ghost predicate BelongsTo(calls: seq<Call>, m: Message)
    requires (m.AppendRequest? || m.AppendResponse?) && m.call.Some?
  {
    && m.call.value < |calls|
    && var call := calls[m.call.value];
       && call.entry.term == m.args.term
       && m.peer != call.leader
       && IsChecked(m.args)
       && (IsDud(m.args) || call.entry.index <= LastSent(m.args))
  }

  ghost predicate AppendMessageOk(s: State, m: Message) {
    && ((m.AppendRequest? || m.AppendResponse?) ==>
          && m.peer in s.nodes
          && RequestOk(s.h, m.args)
          && (m.call.Some? ==> BelongsTo(s.calls, m)))
    && (m.AppendResponse? && m.reply.success && IsChecked(m.args) ==>
          !IsDud(m.args) && Acked(s.h, m.peer, m.args.term, LastSent(m.args)))
  }

  /** A leader's log is the ledger of its term, and it acknowledges all of it. */
  ghost predicate LeadsLedger(s: State, v: NodeId)
    requires v in s.nodes
  {
    s.nodes[v].role == Leader ==>
      && s.nodes[v].currentTerm in s.h.ledger && s.h.ledger[s.nodes[v].currentTerm] == s.nodes[v].log
      && (v, s.nodes[v].currentTerm) in s.h.acks && |s.nodes[v].log| <= s.h.acks[(v, s.nodes[v].currentTerm)] + 1
  }

  /** A call owns its entry in its leader's ledger, and counts only peers that
    * acknowledged it. */
  ghost predicate CallOk(s: State, c: nat)
    requires c < |s.calls|
  {
    var call := s.calls[c];
    var t, i := call.entry.term, call.entry.index;
    && call.leader in s.nodes
    && t in s.h.elections && s.h.elections[t].leader == call.leader
    && t in s.h.ledger && 1 <= i < |s.h.ledger[t]| && s.h.ledger[t][i] == call.entry
    && Acked(s.h, call.leader, t, i)
    && (forall p | p in call.acks :: p in s.nodes && p != call.leader && Acked(s.h, p, t, i))
    && (call.returned ==> |call.acks| + 1 >= |s.nodes| / 2 + 1)
  }

  /** Calls of one term own different indices. */
  ghost predicate CallsApart(calls: seq<Call>) {
    forall c, d | 0 <= c < d < |calls| && calls[c].entry.term == calls[d].entry.term ::
      calls[c].entry.index < calls[d].entry.index
  }

  ghost predicate ReplicationInv(s: State) {
    && LedgerInv(s.nodes, s.h)
    && (forall v | v in s.nodes :: LeadsLedger(s, v))
    && (forall m | m in s.net :: AppendMessageOk(s, m))
    && (forall c: nat | c < |s.calls| :: CallOk(s, c))
    && CallsApart(s.calls)
  }

  // ---- What later states keep ----

  ghost predicate CallsKept(calls: seq<Call>, calls': seq<Call>) {
    && |calls| <= |calls'|
    && forall c | 0 <= c < |calls| :: calls'[c].leader == calls[c].leader && calls'[c].entry == calls[c].entry
  }

  lemma MessageKept(s: State, s': State, m: Message)
    requires AppendMessageOk(s, m) && HistoryGrows(s.h, s'.h) && CallsKept(s.calls, s'.calls)
    requires s'.nodes.Keys == s.nodes.Keys
    ensures AppendMessageOk(s', m)
  {
    hide KeepsBallots;
  }

  lemma CallKept(s: State, s': State, c: nat)
    requires c < |s.calls| && CallOk(s, c) && HistoryGrows(s.h, s'.h)
    requires s'.nodes.Keys == s.nodes.Keys && c < |s'.calls| && s'.calls[c] == s.calls[c]
    ensures CallOk(s', c)
  {
    assert |s'.nodes| == |s'.nodes.Keys| == |s.nodes|;
  }

  /** Only the ledger of a term that n leads changes. */
  ghost predicate OnlyOwnLedger(h: History, h': History, n: NodeId) {
    forall t | t in h.ledger && t in h'.ledger && h'.ledger[t] != h.ledger[t] ::
      t in h.elections && h.elections[t].leader == n
  }

  lemma LeadsLedgerKept(s: State, s': State, n: NodeId, v: NodeId)
    requires v in s.nodes && v in s'.nodes && s'.nodes[v] == s.nodes[v] && v != n
    requires LeadsLedger(s, v) && LeaderElected(s, v)
    requires HistoryGrows(s.h, s'.h) && OnlyOwnLedger(s.h, s'.h, n)
    ensures LeadsLedger(s', v)
  {
  }

  /** A step of node n that sends `sent` and touches at most call k. */
  lemma ReplicationFrame(s: State, s': State, n: NodeId, sent: set<Message>, k: nat)
    requires ElectionInv(s) && ReplicationInv(s)
    requires n in s.nodes && n in s'.nodes && s'.nodes == s.nodes[n := s'.nodes[n]]
    requires HistoryGrows(s.h, s'.h) && OnlyOwnLedger(s.h, s'.h, n) && LedgerInv(s'.nodes, s'.h)
    requires LeadsLedger(s', n)
    requires s'.net == s.net + sent && forall m | m in sent :: AppendMessageOk(s', m)
    requires CallsKept(s.calls, s'.calls) && CallsApart(s'.calls)
    requires |s'.calls| == |s.calls| || (|s'.calls| == |s.calls| + 1 && k == |s.calls|)
    requires forall c: nat | c < |s.calls| && c != k :: s'.calls[c] == s.calls[c]
    requires k < |s'.calls| ==> CallOk(s', k)
    ensures ReplicationInv(s')
  {
    hide LedgerInv, AppendMessageOk, CallOk, LeadsLedger, HistoryGrows, OnlyOwnLedger;
    assert s'.nodes.Keys == s.nodes.Keys;
    forall v | v in s'.nodes ensures LeadsLedger(s', v) {
      if v != n { LeadsLedgerKept(s, s', n, v); }
    }
    forall m | m in s'.net ensures AppendMessageOk(s', m) {
      if m in s.net { MessageKept(s, s', m); }
    }
    forall c: nat | c < |s'.calls| ensures CallOk(s', c) {
      if c != k {
        assert s'.calls[c] == s.calls[c];
        CallKept(s, s', c);
      }
    }
  }

  // ---- Requests are windows, successes are acknowledgements ----

  lemma HeartbeatWindow(h: History, n: NodeState, p: NodeId)
    requires GapFree(n) && p in n.nextIndex
    requires n.nextIndex[p] < |n.log| ==> HoldsPrefix(h.ledger, n)
    ensures RequestOk(h, BuildHeartbeat(n, p))
  {
    hide BuildHeartbeat;
    HeartbeatShape(n, p);
    assert 1 <= n.nextIndex[p] && |n.log| > 0;
    hide GapFree, WellFormed;
  }

  lemma ReplicateWindow(h: History, n: NodeState, p: NodeId, entry: LogEntry, commit: nat)
    requires GapFree(n) && p in n.nextIndex
    requires n.currentTerm in h.ledger && h.ledger[n.currentTerm] == n.log
    requires 1 <= entry.index < |n.log|
    ensures var args := BuildReplicate(n, p, entry, n.currentTerm, commit);
            args.term == n.currentTerm && IsChecked(args) && RequestOk(h, args) && (IsDud(args) || entry.index <= LastSent(args))
  {
    hide BuildReplicate;
    ReplicateShape(n, p, entry, n.currentTerm, commit);
    assert 1 <= n.nextIndex[p];
    hide GapFree, WellFormed;
  }

  /** A rooted log that passes the predecessor check agrees with the leader's log
    * there, and the merge gives what the ledger actions expect. */
  lemma AcceptedLog(h: History, n: NodeState, args: AppendEntriesArgs)
    requires WellFormed(n.log) && Rooted(h.ledger, n.log)
    requires IsChecked(args) && RequestOk(h, args) && LedgerOk(h, args.term)
    requires PrevMatches(n.log, args)
    ensures !IsDud(args) && LastSent(args) < |h.ledger[args.term]|
    ensures Merge(n.log, args.entries) ==
            if Agree(n.log, h.ledger[args.term], LastSent(args)) then n.log
            else h.ledger[args.term][..LastSent(args) + 1]
    ensures Agree(Merge(n.log, args.entries), h.ledger[args.term], LastSent(args))
  {
    var leader := h.ledger[args.term];
    assert WellFormed(leader) && Rooted(h.ledger, leader);
    RootedMatch(h.ledger, n.log, leader);
    hide LedgerOk, Rooted, LogsMatch;
    NoDudAccepted(n.log, args);
    PrevAgrees(n.log, leader, args);
    hide WellFormed, PrevMatches, Merge;
    MergeWindow(n.log, leader, args.prevLogIndex, args.entries);
  }

  lemma NoDudAccepted(log: Log, args: AppendEntriesArgs)
    requires WellFormed(log) && PrevMatches(log, args)
    ensures !IsDud(args)
  {
    ScanIsIndexing(log, args.prevLogIndex);
  }

  lemma RootedMatch(ledger: map<nat, Log>, a: Log, b: Log)
    requires WellFormed(a) && WellFormed(b) && Rooted(ledger, a) && Rooted(ledger, b)
    ensures LogsMatch(a, b)
  {
    hide Rooted, WellFormed;
    forall i: nat | i < |a| && i < |b| && a[i].term == b[i].term ensures Agree(a, b, i) {
      RootedLogsMatch(ledger, a, b, i);
    }
  }

  // ---- Steps that leave logs and history alone ----

  lemma TickStep(s: State, s': State, n: NodeId, sent: set<Message>, k: nat)
    requires ElectionInv(s) && ReplicationInv(s)
    requires n in s.nodes && n in s'.nodes && s'.nodes == s.nodes[n := s'.nodes[n]] && s'.h == s.h
    requires s'.nodes[n].log == s.nodes[n].log && s.nodes[n].currentTerm <= s'.nodes[n].currentTerm
    requires s'.nodes[n].role == Leader ==> s.nodes[n].role == Leader && s'.nodes[n].currentTerm == s.nodes[n].currentTerm
    requires s'.net == s.net + sent && forall m | m in sent :: AppendMessageOk(s', m)
    requires CallsKept(s.calls, s'.calls) && |s'.calls| == |s.calls|
    requires forall c: nat | c < |s.calls| && c != k :: s'.calls[c] == s.calls[c]
    requires k < |s'.calls| ==> CallOk(s', k)
    ensures ReplicationInv(s')
  {
    assert LeadsLedger(s, n);
    hide ElectionInv, LedgerInv, AppendMessageOk, CallOk;
    GrowsReflexive(s.h);
    assert VotesInv(s.nodes, s.h) by { ElectionInvVotes(s); }
    TickLedgerInv(s.nodes, s.h, n, s'.nodes[n]);
    ReplicationFrame(s, s', n, sent, k);
  }

  lemma ElectionInvVotes(s: State)
    requires ElectionInv(s)
    ensures VotesInv(s.nodes, s.h)
  {
  }

  lemma TimeoutReplication(s: State, n: NodeId)
    requires ElectionInv(s) && ReplicationInv(s) && n in s.nodes
    ensures ReplicationInv(DoTimeout(s, n))
  {
    hide ElectionInv, ReplicationInv;
    TickStep(s, DoTimeout(s, n), n, {}, |s.calls|);
  }

  lemma StepDownReplication(s: State, n: NodeId)
    requires ElectionInv(s) && ReplicationInv(s) && n in s.nodes && s.nodes[n].stepDowns != []
    ensures ReplicationInv(DoStepDown(s, n))
  {
    hide ElectionInv, ReplicationInv;
    TickStep(s, DoStepDown(s, n), n, {}, |s.calls|);
  }

  lemma CountVoteReplication(s: State, m: Message)
    requires ElectionInv(s) && ReplicationInv(s) && Enabled(s, CountVote(m))
    ensures ReplicationInv(DoCountVote(s, m))
  {
    hide ElectionInv, ReplicationInv;
    var n := m.vargs.candidateId;
    assert s.nodes == s.nodes[n := s.nodes[n]];
    TickStep(s, DoCountVote(s, m), n, {}, |s.calls|);
  }

  lemma CollectReplication(s: State, n: NodeId)
    requires ElectionInv(s) && ReplicationInv(s) && Enabled(s, CollectCommitted(n))
    ensures ReplicationInv(DoCollect(s, n))
  {
    hide ElectionInv, ReplicationInv;
    TickStep(s, DoCollect(s, n), n, {}, |s.calls|);
  }

  lemma HeartbeatReplyReplication(s: State, m: Message)
    requires ElectionInv(s) && ReplicationInv(s) && LogsNonEmpty(s) && Enabled(s, HeartbeatReply(m))
    ensures ReplicationInv(DoHeartbeatReply(s, m))
  {
    hide ElectionInv, ReplicationInv;
    TickStep(s, DoHeartbeatReply(s, m), m.args.leaderId, {}, |s.calls|);
  }

  lemma SendHeartbeatReplication(s: State, n: NodeId, p: NodeId)
    requires LogsNonEmpty(s) && Enabled(s, SendHeartbeat(n, p)) && GuardsHeartbeat(s, SendHeartbeat(n, p))
    requires ElectionInv(s) && LogInv(s) && ReplicationInv(s)
    ensures ReplicationInv(DoSendHeartbeat(s, n, p))
  {
    hide ElectionInv, LogInv, ReplicationInv, RequestOk, BuildHeartbeat, WellFormed, HoldsPrefix;
    LogParts(s, n);
    if s.nodes[n].nextIndex[p] < |s.nodes[n].log| {
      SenderPrefix(s, n, p);
    }
    PeersAreMembers(s, n, p);
    HeartbeatWindow(s.h, s.nodes[n], p);
    assert s.nodes == s.nodes[n := s.nodes[n]];
    TickStep(s, DoSendHeartbeat(s, n, p), n, {AppendRequest(p, BuildHeartbeat(s.nodes[n], p), None)}, |s.calls|);
  }

  /** Whoever builds a heartbeat with entries holds a prefix of its term's ledger. */
  ghost predicate HoldsPrefix(ledger: map<nat, Log>, n: NodeState) {
    n.currentTerm in ledger && IsPrefix(n.log, ledger[n.currentTerm])
  }

  lemma SenderPrefix(s: State, n: NodeId, p: NodeId)
    requires LogsNonEmpty(s) && Enabled(s, SendHeartbeat(n, p)) && GuardsHeartbeat(s, SendHeartbeat(n, p))
    requires s.nodes[n].nextIndex[p] < |s.nodes[n].log|
    requires ElectionInv(s) && LogInv(s) && ReplicationInv(s)
    ensures HoldsPrefix(s.h.ledger, s.nodes[n])
  {
    hide ElectionInv, LogInv, ReplicationInv, VotesInv, LedgerInv, Rooted, LedgerOk, AckOk, WellFormed;
    var node := s.nodes[n];
    LogParts(s, n);
    LastEntry(node.log);
    VotingParts(s, n);
    if node.role != Leader {
      LedgerParts(s.nodes, s.h, n, node.currentTerm);
      OwnTermPrefix(s.h.ledger, node.log);
    }
  }

  lemma LastEntry(log: Log)
    requires WellFormed(log)
    ensures |log| > 0 && LastIndex(log) == |log| - 1
  {
  }

  /** A log whose last entry is of term t is a prefix of the ledger of t. */
  lemma OwnTermPrefix(ledger: map<nat, Log>, log: Log)
    requires |log| > 1 && Rooted(ledger, log)
    ensures LastTerm(log) in ledger && IsPrefix(log, ledger[LastTerm(log)])
  {
    assert RootedAt(ledger, log, |log| - 1);
  }

  lemma LeaderParts(s: State, n: NodeId)
    requires LogInv(s) && ReplicationInv(s) && n in s.nodes && s.nodes[n].role == Leader
    ensures s.nodes[n].currentTerm in s.h.ledger && s.h.ledger[s.nodes[n].currentTerm] == s.nodes[n].log
    ensures GapFree(s.nodes[n]) && forall p | p in s.nodes[n].peers :: p in s.nodes[n].nextIndex
  {
    assert LeadsLedger(s, n) && GapFree(s.nodes[n]);
  }

  lemma MessageParts(s: State, m: Message)
    requires ReplicationInv(s) && m in s.net
    ensures AppendMessageOk(s, m)
  {
    hide LedgerInv, AppendMessageOk, CallOk, LeadsLedger;
  }

  lemma CallParts(s: State, c: nat)
    requires ReplicationInv(s) && c < |s.calls|
    ensures CallOk(s, c)
  {
    hide LedgerInv, AppendMessageOk, CallOk, LeadsLedger;
  }

  lemma PeersAreMembers(s: State, n: NodeId, p: NodeId)
    requires ElectionInv(s) && n in s.nodes && p in s.nodes[n].peers
    ensures p in s.nodes && p != n
  {
    assert p in SeqSet(s.nodes[n].peers);
  }

  lemma ReplicateMessageOk(s: State, c: nat, p: NodeId)
    requires ElectionInv(s) && LogInv(s) && ReplicationInv(s) && Enabled(s, SendReplicate(c, p))
    ensures AppendMessageOk(s, ReplicateRequest(s, c, p))
  {
    hide ElectionInv, LogInv, ReplicationInv, GapFree, RequestOk, BuildReplicate, IsDud;
    var call := s.calls[c];
    LeaderParts(s, call.leader);
    PeersAreMembers(s, call.leader, p);
    CallParts(s, c);
    ReplicateWindow(s.h, s.nodes[call.leader], p, call.entry, call.commit);
  }

  lemma SendReplicateReplication(s: State, c: nat, p: NodeId)
    requires ElectionInv(s) && LogInv(s) && ReplicationInv(s) && Enabled(s, SendReplicate(c, p))
    ensures ReplicationInv(DoSendReplicate(s, c, p))
  {
    hide ElectionInv, LogInv, ReplicationInv, ReplicateRequest;
    ReplicateMessageOk(s, c, p);
    var n := s.calls[c].leader;
    assert s.nodes == s.nodes[n := s.nodes[n]];
    TickStep(s, DoSendReplicate(s, c, p), n, {ReplicateRequest(s, c, p)}, |s.calls|);
  }

  // ---- Replies, returns and accepted requests ----

  lemma ReplicateReplyCallOk(s: State, m: Message)
    requires ReplicationInv(s) && Enabled(s, ReplicateReply(m))
    ensures CallOk(DoReplicateReply(s, m), m.call.value)
  {
    hide ReplicationInv, HandleReplicateReply;
    MessageParts(s, m);
    CallParts(s, m.call.value);
    var s' := DoReplicateReply(s, m);
    assert s'.nodes.Keys == s.nodes.Keys;
    assert |s'.nodes| == |s'.nodes.Keys| == |s.nodes|;
    var call := s.calls[m.call.value];
    if m.reply.term <= m.args.term && m.reply.success {
      SubsetSize(call.acks, call.acks + {m.peer});
    }
  }

  lemma ReplicateReplySameLog(n: NodeState, peer: NodeId, index: nat, term: nat, reply: AppendEntriesReply)
    ensures var n' := HandleReplicateReply(n, peer, index, term, reply);
            n'.log == n.log && n'.currentTerm == n.currentTerm && n'.role == n.role
  {
  }

  lemma ReplicateReplyReplication(s: State, m: Message)
    requires ElectionInv(s) && ReplicationInv(s) && Enabled(s, ReplicateReply(m))
    ensures ReplicationInv(DoReplicateReply(s, m))
  {
    hide ElectionInv, ReplicationInv, CallOk, HandleReplicateReply;
    ReplicateReplyCallOk(s, m);
    ReplicateReplySameLog(s.nodes[s.calls[m.call.value].leader], m.peer, s.calls[m.call.value].entry.index, m.args.term, m.reply);
    TickStep(s, DoReplicateReply(s, m), s.calls[m.call.value].leader, {}, m.call.value);
  }

  lemma ReturnReplication(s: State, c: nat)
    requires ElectionInv(s) && ReplicationInv(s) && Enabled(s, Return(c))
    ensures ReplicationInv(DoReturn(s, c))
  {
    hide ElectionInv, ReplicationInv, CallOk;
    CallParts(s, c);
    ReturnCallOk(s, DoReturn(s, c), c);
    TickStep(s, DoReturn(s, c), s.calls[c].leader, {}, c);
  }

  lemma MajorityIsHalf(s: State, n: NodeId)
    requires ElectionInv(s) && n in s.nodes
    ensures Majority(s.nodes[n].peers) == |s.nodes| / 2 + 1
  {
    var peers := s.nodes[n].peers;
    DistinctSize(peers);
    assert s.nodes.Keys == SeqSet(peers) + {n};
    assert |s.nodes.Keys| == |SeqSet(peers)| + 1;
    assert |s.nodes| == |s.nodes.Keys|;
  }

  lemma ReturnCallOk(s: State, s': State, c: nat)
    requires Enabled(s, Return(c)) && s' == DoReturn(s, c) && CallOk(s, c)
    requires ElectionInv(s)
    ensures c < |s'.calls| && CallOk(s', c)
  {
    hide ElectionInv, CommitEntry;
    MajorityIsHalf(s, s.calls[c].leader);
    assert s'.nodes.Keys == s.nodes.Keys;
    assert |s'.nodes| == |s'.nodes.Keys| == |s.nodes| == |s.nodes.Keys|;
  }

  /** Entering the request's term leaves log and history alone. */
  lemma EnterTermLedger(nodes: map<NodeId, NodeState>, h: History, n: NodeId, t: nat)
    requires VotesInv(nodes, h) && LedgerInv(nodes, h) && n in nodes && t >= nodes[n].currentTerm
    ensures VotesInv(nodes[n := EnterTerm(nodes[n], t)], h) && LedgerInv(nodes[n := EnterTerm(nodes[n], t)], h)
  {
    hide VotesInv, LedgerInv;
    VotesFrame(nodes, h, n, EnterTerm(nodes[n], t), h);
    TickLedgerInv(nodes, h, n, EnterTerm(nodes[n], t));
  }

  /** An accepted request: the ledger invariant survives, the node now agrees with
    * the leader through the window, and a leader's own log stays put. */
  lemma AcceptLedger(nodes: map<NodeId, NodeState>, h: History, n: NodeId, node: NodeState, args: AppendEntriesArgs)
    requires n in nodes && WellFormed(nodes[n].log) && IsChecked(args) && RequestOk(h, args)
    requires nodes[n].currentTerm <= args.term == node.currentTerm
    requires PrevMatches(nodes[n].log, args) && node.log == Merge(nodes[n].log, args.entries)
    requires VotesInv(nodes, h) && LedgerInv(nodes, h)
    ensures !IsDud(args)
    ensures LedgerInv(nodes[n := node], RecordAck(h, n, args.term, LastSent(args)))
    ensures Agree(node.log, h.ledger[args.term], LastSent(args))
    ensures nodes[n].log == h.ledger[args.term] ==> node.log == nodes[n].log
  {
    hide VotesInv, LedgerInv, Rooted, LedgerOk, WellFormed, EnterTerm, PrevMatches, Merge;
    EnterTermEffect(nodes[n], args.term);
    var n1 := EnterTerm(nodes[n], args.term);
    var nodes1 := nodes[n := n1];
    EnterTermLedger(nodes, h, n, args.term);
    LedgerParts(nodes1, h, n, args.term);
    AcceptedLog(h, n1, args);
    AcceptLedgerInv(nodes1, h, n, node, LastSent(args));
    assert nodes1[n := node] == nodes[n := node];
  }

  lemma AckRecorded(h: History, n: NodeId, t: nat, k: nat)
    ensures HistoryGrows(h, RecordAck(h, n, t, k)) && Acked(RecordAck(h, n, t, k), n, t, k)
    ensures RecordAck(h, n, t, k).ledger == h.ledger && RecordAck(h, n, t, k).elections == h.elections
  {
  }

  lemma HandleAppendReplication(s: State, m: Message)
    requires ElectionInv(s) && LogInv(s) && ReplicationInv(s) && LogsNonEmpty(s)
    requires m in s.net && m.AppendRequest? && m.peer in s.nodes
    ensures ReplicationInv(DoHandleAppend(s, m))
  {
    hide ElectionInv, LogInv, ReplicationInv, RequestOk, Acked, HandleAppendEntries, LedgerInv, VotesInv, HistoryGrows,
         BelongsTo, CallsApart, WellFormed, CallOk;
    HandleParts(s, m);
    HandleEffect(s.nodes[m.peer], m.args);
    var (node, reply) := HandleAppendEntries(s.nodes[m.peer], m.args);
    if reply.success && IsChecked(m.args) {
      HandleAccepted(s, m);
    } else {
      MessageKept(s, DoHandleAppend(s, m), m) by { GrowsReflexive(s.h); assert DoHandleAppend(s, m).nodes.Keys == s.nodes.Keys; }
      ResponseOk(DoHandleAppend(s, m), m, reply);
      TickStep(s, DoHandleAppend(s, m), m.peer, {AppendResponse(m.peer, m.args, m.call, reply)}, |s.calls|);
    }
  }

  lemma HandleAccepted(s: State, m: Message)
    requires ElectionInv(s) && ReplicationInv(s) && LogsNonEmpty(s)
    requires m.AppendRequest? && m.peer in s.nodes && AppendMessageOk(s, m) && LeadsLedger(s, m.peer)
    requires VotesInv(s.nodes, s.h) && LedgerInv(s.nodes, s.h) && WellFormed(s.nodes[m.peer].log) && CallsApart(s.calls)
    requires HandleAppendEntries(s.nodes[m.peer], m.args).1.success && IsChecked(m.args)
    ensures ReplicationInv(DoHandleAppend(s, m))
  {
    hide ElectionInv, LogInv, ReplicationInv, RequestOk, Acked, HandleAppendEntries, LedgerInv, VotesInv, HistoryGrows,
         BelongsTo, CallsApart, WellFormed, CallOk;
    var (node, reply) := HandleAppendEntries(s.nodes[m.peer], m.args);
    var s' := DoHandleAppend(s, m);
    HandleEffect(s.nodes[m.peer], m.args);
    AcceptLedger(s.nodes, s.h, m.peer, node, m.args);
    AckRecorded(s.h, m.peer, m.args.term, LastSent(m.args));
    assert s'.nodes.Keys == s.nodes.Keys;
    MessageKept(s, s', m);
    ResponseOk(s', m, reply);
    ReplicationFrame(s, s', m.peer, {AppendResponse(m.peer, m.args, m.call, reply)}, |s.calls|);
  }

  lemma HandleParts(s: State, m: Message)
    requires ElectionInv(s) && LogInv(s) && ReplicationInv(s)
    requires m in s.net && m.AppendRequest? && m.peer in s.nodes
    ensures AppendMessageOk(s, m) && LeadsLedger(s, m.peer)
    ensures VotesInv(s.nodes, s.h) && LedgerInv(s.nodes, s.h) && WellFormed(s.nodes[m.peer].log)
    ensures CallsApart(s.calls)
  {
    assert GapFree(s.nodes[m.peer]);
    hide LedgerInv, VotesInv, AppendMessageOk, LeadsLedger, CallsApart;
  }

  lemma HandleEffect(n: NodeState, args: AppendEntriesArgs)
    requires |n.log| > 0
    ensures var (node, reply) := HandleAppendEntries(n, args);
            && n.currentTerm <= node.currentTerm
            && (node.role == Leader ==> n.role == Leader && node.currentTerm == n.currentTerm)
            && (reply.success ==>
                  && n.currentTerm <= args.term == node.currentTerm
                  && PrevMatches(n.log, args) && node.log == Merge(n.log, args.entries))
            && (!reply.success || !IsChecked(args) ==> node.log == n.log)
  {
    hide EntryAt;
    assert Merge(n.log, []) == n.log;
    hide Merge;
  }

  lemma EnterTermEffect(n: NodeState, t: nat)
    requires n.currentTerm <= t
    ensures EnterTerm(n, t).log == n.log && EnterTerm(n, t).currentTerm == t
  {
  }

  lemma ResponseOk(s: State, m: Message, reply: AppendEntriesReply)
    requires m.AppendRequest? && AppendMessageOk(s, m)
    requires reply.success && IsChecked(m.args) ==> !IsDud(m.args) && Acked(s.h, m.peer, m.args.term, LastSent(m.args))
    ensures AppendMessageOk(s, AppendResponse(m.peer, m.args, m.call, reply))
  {
  }

  // ---- Votes, elections and appends ----

  lemma VotingParts(s: State, n: NodeId)
    requires ElectionInv(s) && ReplicationInv(s) && n in s.nodes
    ensures VotesInv(s.nodes, s.h) && LedgerInv(s.nodes, s.h) && LeadsLedger(s, n) && CallsApart(s.calls)
    ensures s.nodes[n].id == n
  {
    hide LedgerInv, VotesInv, LeadsLedger, CallsApart;
  }

  /** A step that casts the vote `b` of node n and changes nothing else of note. */
  lemma CastReplication(s: State, s': State, n: NodeId, b: Ballot, m: Message)
    requires ElectionInv(s) && ReplicationInv(s)
    requires n in s.nodes && n in s'.nodes && s'.nodes == s.nodes[n := s'.nodes[n]]
    requires s'.nodes[n].log == s.nodes[n].log == b.log && s.nodes[n].currentTerm <= s'.nodes[n].currentTerm
    requires s'.nodes[n].role == Leader ==> s.nodes[n].role == Leader && s'.nodes[n].currentTerm == s.nodes[n].currentTerm
    requires (n, s'.nodes[n].currentTerm) !in s.h.ballots
    requires s'.h == CastVote(s.h, n, s'.nodes[n].currentTerm, b)
    requires s'.calls == s.calls && s'.net == s.net + {m} && !m.AppendRequest? && !m.AppendResponse?
    ensures ReplicationInv(s')
  {
    hide ElectionInv, ReplicationInv, LedgerInv, VotesInv, CallOk, CallsApart;
    VotingParts(s, n);
    CastLedgerInv(s.nodes, s.h, n, s'.nodes[n], b);
    assert HistoryGrows(s.h, s'.h);
    hide HistoryGrows;
    ReplicationFrame(s, s', n, {m}, |s.calls|);
  }

  lemma CampaignReplication(s: State, n: NodeId)
    requires ElectionInv(s) && ReplicationInv(s) && LogsNonEmpty(s) && n in s.nodes && s.nodes[n].role != Leader
    ensures ReplicationInv(DoCampaign(s, n))
  {
    hide ElectionInv, ReplicationInv;
    var node := StartElection(s.nodes[n]);
    NoFutureBallot(s, n, node.currentTerm);
    CastReplication(s, DoCampaign(s, n), n, Ballot(n, node.log), VoteRequest(VoteArgs(node)));
  }

  lemma VoteEffect(n: NodeState, args: RequestVoteArgs)
    requires |n.log| > 0
    ensures var (node, reply) := HandleRequestVote(n, args);
            && node.log == n.log && n.currentTerm <= node.currentTerm
            && (node.role == Leader ==> n.role == Leader && node.currentTerm == n.currentTerm)
            && (reply.voteGranted ==> node.currentTerm == args.term)
  {
  }

  lemma AnswerVoteReplication(s: State, n: NodeId, m: Message)
    requires ElectionInv(s) && ReplicationInv(s) && LogsNonEmpty(s) && m.VoteRequest? && n in s.nodes
    ensures ReplicationInv(DoAnswerVote(s, n, m))
  {
    hide ElectionInv, ReplicationInv, HandleRequestVote;
    VoteEffect(s.nodes[n], m.vargs);
    var (node, reply) := HandleRequestVote(s.nodes[n], m.vargs);
    var response := VoteResponse(n, m.vargs, reply);
    if reply.voteGranted && (n, m.vargs.term) !in s.h.ballots {
      CastReplication(s, DoAnswerVote(s, n, m), n, Ballot(m.vargs.candidateId, node.log), response);
    } else {
      TickStep(s, DoAnswerVote(s, n, m), n, {response}, |s.calls|);
    }
  }

  lemma WinReplication(s: State, n: NodeId)
    requires ElectionInv(s) && LogInv(s) && ReplicationInv(s) && LogsNonEmpty(s) && Enabled(s, Win(n))
    ensures ReplicationInv(DoWin(s, n))
  {
    hide ElectionInv, LogInv, ReplicationInv;
    if s.nodes[n].currentTerm == s.campaigns[n].term && s.nodes[n].role == Candidate {
      WonReplication(s, n);
    } else {
      TickStep(s, DoWin(s, n), n, {}, |s.calls|);
    }
  }

  lemma WonParts(s: State, n: NodeId)
    requires ElectionInv(s) && LogInv(s) && n in s.nodes && n in s.campaigns
    requires s.nodes[n].currentTerm == s.campaigns[n].term && s.nodes[n].role == Candidate
    ensures VotedFor(s.h, n, s.nodes[n].currentTerm, n)
    ensures s.h.ballots[(n, s.nodes[n].currentTerm)].log == s.nodes[n].log && WellFormed(s.nodes[n].log)
  {
    assert CampaignOk(s, n) && GapFree(s.nodes[n]);
  }

  lemma WonReplication(s: State, n: NodeId)
    requires LogsNonEmpty(s) && Enabled(s, Win(n))
    requires s.nodes[n].currentTerm == s.campaigns[n].term && s.nodes[n].role == Candidate
    requires ElectionInv(s) && LogInv(s) && ReplicationInv(s)
    ensures ReplicationInv(DoWin(s, n))
  {
    hide ElectionInv, LogInv, ReplicationInv, LedgerInv, VotesInv, CallOk, CallsApart, WellFormed, LeadsLedger, OnlyOwnLedger,
         SetAll, LedgerOk, AckOk, Rooted, AppendMessageOk;
    var s' := DoWin(s, n);
    TermNotYetWon(s, n);
    WonParts(s, n);
    VotingParts(s, n);
    LedgerParts(s.nodes, s.h, n, 0);
    ElectLedgerInv(s.nodes, s.h, n, s'.nodes[n], s.campaigns[n].voters);
    ElectedGrows(s.h, n, s'.nodes[n], s.campaigns[n].voters);
    WonLeads(s, n);
    hide HistoryGrows;
    ReplicationFrame(s, s', n, {}, |s.calls|);
  }

  lemma WonLeads(s: State, n: NodeId)
    requires LogsNonEmpty(s) && Enabled(s, Win(n))
    requires s.nodes[n].currentTerm == s.campaigns[n].term && s.nodes[n].role == Candidate
    requires s.nodes[n].currentTerm !in s.h.ledger
    ensures LeadsLedger(DoWin(s, n), n) && OnlyOwnLedger(s.h, DoWin(s, n).h, n)
  {
  }

  lemma ClientAppendReplication(s: State, n: NodeId, command: Command)
    requires ElectionInv(s) && LogInv(s) && ReplicationInv(s) && LogsNonEmpty(s)
    requires n in s.nodes && s.nodes[n].role == Leader
    ensures ReplicationInv(DoClientAppend(s, n, command))
  {
    hide ElectionInv, LogInv, ReplicationInv, LedgerInv, VotesInv, CallOk, CallsApart, GapFree;
    var s' := DoClientAppend(s, n, command);
    LeaderTermPositive(s, n);
    LeaderParts(s, n);
    VotingParts(s, n);
    AppendedParts(s.h, s.nodes[n], n, command);
    AppendLedgerInv(s.nodes, s.h, n, s'.nodes[n]);
    LeaderElectedParts(s, n);
    NewCallOk(s, n, command);
    NewCallApart(s, n, command);
    hide HistoryGrows;
    ReplicationFrame(s, s', n, {}, |s.calls|);
  }

  lemma LeaderElectedParts(s: State, n: NodeId)
    requires ElectionInv(s) && n in s.nodes && s.nodes[n].role == Leader
    ensures s.nodes[n].currentTerm in s.h.elections && s.h.elections[s.nodes[n].currentTerm].leader == n
  {
    assert LeaderElected(s, n);
  }

  lemma AppendedParts(h: History, node: NodeState, n: NodeId, command: Command)
    requires GapFree(node) && 1 <= node.currentTerm
    requires node.currentTerm in h.ledger && h.ledger[node.currentTerm] == node.log
    ensures var node' := AppendCommand(node, command);
            && WellFormed(node'.log) && |node'.log| == |node.log| + 1 && IsPrefix(node.log, node'.log)
            && LastTerm(node'.log) == node.currentTerm
            && HistoryGrows(h, Appended(h, n, node'))
            && NewEntry(node, command).index == |node.log|
  {
    AppendKeepsGapFree(node, command);
    hide WellFormed;
  }

  lemma NewCallOk(s: State, n: NodeId, command: Command)
    requires LogsNonEmpty(s) && n in s.nodes && 1 <= |s.nodes[n].log| == NewEntry(s.nodes[n], command).index
    requires s.nodes[n].currentTerm in s.h.elections && s.h.elections[s.nodes[n].currentTerm].leader == n
    ensures CallOk(DoClientAppend(s, n, command), |s.calls|)
  {
  }

  lemma NewCallApart(s: State, n: NodeId, command: Command)
    requires ReplicationInv(s) && CallsApart(s.calls) && LogsNonEmpty(s) && n in s.nodes
    requires |s.nodes[n].log| == NewEntry(s.nodes[n], command).index
    requires s.nodes[n].currentTerm in s.h.ledger && s.h.ledger[s.nodes[n].currentTerm] == s.nodes[n].log
    ensures CallsApart(DoClientAppend(s, n, command).calls)
  {
    hide ReplicationInv, CallsApart;
    CallsBelow(s, s.nodes[n].currentTerm);
    AppendApart(s.calls, Call(n, NewEntry(s.nodes[n], command), s.nodes[n].commitIndex, {}, false));
  }

  lemma AppendApart(calls: seq<Call>, call: Call)
    requires CallsApart(calls)
    requires forall c | 0 <= c < |calls| && calls[c].entry.term == call.entry.term :: calls[c].entry.index < call.entry.index
    ensures CallsApart(calls + [call])
  {
  }

  /** The entries of all calls of term t lie inside the ledger of t. */
  lemma CallsBelow(s: State, t: nat)
    requires ReplicationInv(s) && t in s.h.ledger
    ensures forall c | 0 <= c < |s.calls| && s.calls[c].entry.term == t :: s.calls[c].entry.index < |s.h.ledger[t]|
  {
    hide ReplicationInv;
    forall c | 0 <= c < |s.calls| && s.calls[c].entry.term == t ensures s.calls[c].entry.index < |s.h.ledger[t]| {
      CallParts(s, c);
    }
  }

  // ---- All events ----

  lemma ReplicationInvStep(s: State, e: Event)
    requires ElectionInv(s) && LogInv(s) && ReplicationInv(s) && LogsNonEmpty(s)
    requires Enabled(s, e) && GuardsHeartbeat(s, e)
    ensures ReplicationInv(Step(s, e))
  {
    hide ElectionInv, LogInv, ReplicationInv, LogsNonEmpty;
    match e
    case Timeout(n) => TimeoutReplication(s, n);
    case Campaigning(n) => CampaignReplication(s, n);
    case AnswerVote(n, m) => AnswerVoteReplication(s, n, m);
    case CountVote(m) => CountVoteReplication(s, m);
    case Win(n) => WinReplication(s, n);
    case StepDown(n) => StepDownReplication(s, n);
    case ClientAppend(n, command) => ClientAppendReplication(s, n, command);
    case SendReplicate(c, p) => SendReplicateReplication(s, c, p);
    case SendHeartbeat(n, p) => SendHeartbeatReplication(s, n, p);
    case HandleAppend(m) => HandleAppendReplication(s, m);
    case ReplicateReply(m) => ReplicateReplyReplication(s, m);
    case HeartbeatReply(m) => HeartbeatReplyReplication(s, m);
    case Return(c) => ReturnReplication(s, c);
    case CollectCommitted(n) => CollectReplication(s, n);
  }
}
