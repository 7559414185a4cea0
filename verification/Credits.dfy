/** Match indices, in runs with guarded heartbeats whose leaders credit successes only
  * in the term of their request: a leader's match index was acknowledged in its term,
  * so that what it commits by counting, every later leader holds. */
module Credits {
  import opened RaftLog
  import opened RaftNode
  import opened Quorums
  import opened Cluster
  import opened Actors
  import opened Elections
  import opened ElectionSafety
  import opened Ledger
  import opened Replication
  import opened ReplicationSafety
  import opened CommitRule

  /** A peer's match index was acknowledged in the leader's present term. */
  ghost predicate MatchOk(h: History, n: NodeState) {
    n.role == Leader ==>
      forall p | p in n.peers :: Lookup(n.matchIndex, p) > 0 ==> Acked(h, p, n.currentTerm, Lookup(n.matchIndex, p))
  }

  ghost predicate MatchInv(s: State) {
    forall v | v in s.nodes :: MatchOk(s.h, s.nodes[v])
  }

  // ---- Steps that credit nothing ----

  ghost predicate AllKeepCredits(s: State, s': State) {
    && s'.nodes.Keys == s.nodes.Keys
    && forall v | v in s.nodes :: KeepsCredits(s.nodes[v], s'.nodes[v])
  }

  lemma MatchGrows(h: History, h': History, n: NodeState)
    requires MatchOk(h, n) && HistoryGrows(h, h')
    ensures MatchOk(h', n)
  {
    hide KeepsBallots;
  }

  lemma KeptCreditsOk(s: State, s': State)
    requires AllKeepCredits(s, s') && HistoryGrows(s.h, s'.h) && MatchInv(s)
    ensures MatchInv(s')
  {
    hide HistoryGrows;
    forall v | v in s'.nodes ensures MatchOk(s'.h, s'.nodes[v]) {
      MatchGrows(s.h, s'.h, s.nodes[v]);
      assert KeepsCredits(s.nodes[v], s'.nodes[v]);
    }
  }

  lemma StepKeepsCredits(s: State, e: Event)
    requires LogsNonEmpty(s) && Enabled(s, e) && !e.Win? && !e.ReplicateReply? && !e.HeartbeatReply?
    requires ElectionInv(s)
    ensures AllKeepCredits(s, Step(s, e))
  {
    hide LogsNonEmpty, Enabled, Step, ElectionInv, KeepsCredits;
    StepKeys(s, e);
    forall v | v in s.nodes ensures KeepsCredits(s.nodes[v], Step(s, e).nodes[v]) {
      StepEffects(s, e, v);
      OwnKeyNotPeer(s, v);
    }
  }

  // ---- Steps that credit or reset ----

  lemma CreditedOk(s: State, s': State, n: NodeId)
    requires n in s.nodes && n in s'.nodes && s'.nodes == s.nodes[n := s'.nodes[n]] && HistoryGrows(s.h, s'.h)
    requires MatchOk(s'.h, s'.nodes[n]) && MatchInv(s)
    ensures MatchInv(s')
  {
    hide HistoryGrows, MatchOk;
    forall v | v in s'.nodes ensures MatchOk(s'.h, s'.nodes[v]) {
      if v != n { MatchGrows(s.h, s'.h, s.nodes[v]); }
    }
  }

  lemma OfficeResetsCredits(h: History, n: NodeState, term: nat)
    requires |n.log| > 0 && MatchOk(h, n)
    ensures MatchOk(h, BecomeLeader(n, term))
  {
  }

  lemma CreditReplicated(h: History, n: NodeState, m: Message, index: nat)
    requires MatchOk(h, n) && m.AppendResponse?
    requires m.reply.success ==> Acked(h, m.peer, m.args.term, LastSent(m.args)) && index <= LastSent(m.args)
    requires m.reply.success && n.role == Leader ==> MayCredit(n, m.peer, m.args.term, index)
    ensures MatchOk(h, HandleReplicateReply(n, m.peer, index, m.args.term, m.reply))
  {
  }

  lemma CreditHeartbeat(h: History, n: NodeState, peer: NodeId, args: AppendEntriesArgs)
    requires MatchOk(h, n) && Acked(h, peer, args.term, LastSent(args))
    requires n.role == Leader ==> MayCredit(n, peer, args.term, LastSent(args))
    ensures MatchOk(h, RecordHeartbeat(n, peer, LastSent(args)))
  {
  }

  lemma HeartbeatReplyCredits(h: History, n: NodeState, m: Message)
    requires |n.log| > 0 && m.AppendResponse? && MatchOk(h, n)
    requires m.reply.success && m.args.entries != [] ==>
               && Acked(h, m.peer, m.args.term, LastSent(m.args))
               && (n.role == Leader ==> MayCredit(n, m.peer, m.args.term, LastSent(m.args)))
    ensures MatchOk(h, HandleHeartbeatReply(n, m.peer, m.args, m.reply))
  {
    hide AdvanceFrom;
    if m.reply.success && m.args.entries != [] {
      CreditHeartbeat(h, n, m.peer, m.args);
    }
  }

  lemma OwnKeyNotPeer(s: State, n: NodeId)
    requires ElectionInv(s) && n in s.nodes
    ensures n !in s.nodes[n].peers && s.nodes[n].id == n
  {
    assert n !in SeqSet(s.nodes[n].peers);
  }

  // ---- All events ----

  lemma WinMatch(s: State, s': State, n: NodeId)
    requires LogsNonEmpty(s) && Enabled(s, Win(n)) && s' == DoWin(s, n) && HistoryGrows(s.h, s'.h)
    requires MatchInv(s)
    ensures MatchInv(s')
  {
    hide HistoryGrows, MatchOk, BecomeLeader, RecordAck;
    OfficeResetsCredits(s.h, s.nodes[n], s.campaigns[n].term);
    MatchGrows(s.h, s'.h, s'.nodes[n]);
    CreditedOk(s, s', n);
  }

  lemma ReplicateReplyMatch(s: State, s': State, m: Message)
    requires Enabled(s, ReplicateReply(m)) && s' == DoReplicateReply(s, m) && CreditsOwnTerm(s, ReplicateReply(m))
    requires ReplicationInv(s) && MatchInv(s)
    ensures MatchInv(s')
  {
    hide ReplicationInv, HistoryGrows, MatchOk, HandleReplicateReply;
    var call := s.calls[m.call.value];
    MessageParts(s, m);
    GrowsReflexive(s.h);
    CreditReplicated(s.h, s.nodes[call.leader], m, call.entry.index);
    CreditedOk(s, s', call.leader);
  }

  lemma HeartbeatReplyMatch(s: State, s': State, m: Message)
    requires LogsNonEmpty(s) && Enabled(s, HeartbeatReply(m)) && s' == DoHeartbeatReply(s, m)
    requires CreditsOwnTerm(s, HeartbeatReply(m))
    requires ReplicationInv(s) && MatchInv(s)
    ensures MatchInv(s')
  {
    hide ReplicationInv, HistoryGrows, MatchOk, HandleHeartbeatReply;
    MessageParts(s, m);
    GrowsReflexive(s.h);
    HeartbeatReplyCredits(s.h, s.nodes[m.args.leaderId], m);
    CreditedOk(s, s', m.args.leaderId);
  }

  lemma MatchInvStep(s: State, s': State, e: Event)
    requires LogsNonEmpty(s) && Enabled(s, e) && s' == Step(s, e) && CreditsOwnTerm(s, e)
    requires ElectionInv(s) && LogInv(s) && ReplicationInv(s) && MatchInv(s)
    ensures MatchInv(s')
  {
    hide ElectionInv, LogInv, ReplicationInv, MatchInv, HistoryGrows, LogsNonEmpty, CreditsOwnTerm, AllKeepCredits;
    StepHistoryGrows(s, e);
    match e
    case Win(n) => WinMatch(s, s', n);
    case ReplicateReply(m) => ReplicateReplyMatch(s, s', m);
    case HeartbeatReply(m) => HeartbeatReplyMatch(s, s', m);
    case _ => StepKeepsCredits(s, e); KeptCreditsOk(s, s');
  }

  lemma InitMatchInv(peersOf: map<NodeId, seq<NodeId>>)
    ensures MatchInv(Init(peersOf))
  {
  }

  lemma {:induction false} RunMatchInv(d: Discipline, peersOf: map<NodeId, seq<NodeId>>, r: Run, i: nat)
    requires IsRun(d, peersOf, r) && i < |r.states| && d.guarded && d.ownTerm
    ensures MatchInv(r.states[i])
  {
    hide ElectionInv, LogInv, ReplicationInv, MatchInv, Step, Enabled, ValidMembership, GuardsHeartbeat, LearnsChecked,
         CreditsOwnTerm, CommitsLeading;
    if i == 0 {
      InitMatchInv(peersOf);
    } else {
      RunMatchInv(d, peersOf, r, i - 1);
      RunReplicationInv(d, peersOf, r, i - 1);
      RunElectionInv(d, peersOf, r, i - 1);
      assert IsStep(d, r.states[i - 1], r.events[i - 1], r.states[i]);
      MatchInvStep(r.states[i - 1], r.states[i], r.events[i - 1]);
    }
  }

  // ---- An acknowledgement was an agreement ----

  lemma FreshAck(s: State, e: Event, p: NodeId, t: nat, x: nat)
    requires LogsNonEmpty(s) && Enabled(s, e)
    requires !Acked(s.h, p, t, x) && Acked(Step(s, e).h, p, t, x)
    ensures p in Step(s, e).nodes && Step(s, e).nodes[p].currentTerm == t
  {
    if e.HandleAppend? {
      HandledAck(s, e.m, p, t, x);
    } else if e.Win? || e.ClientAppend? {
      OwnAck(s, e, p, t, x);
    } else if e.Campaigning? || e.AnswerVote? {
      VotesAckNothing(s, e, p, t, x);
    } else {
      hide LogsNonEmpty, Enabled, Step;
      HistoryKept(s, e);
    }
  }

  lemma HandledAck(s: State, m: Message, p: NodeId, t: nat, x: nat)
    requires LogsNonEmpty(s) && m.AppendRequest? && m.peer in s.nodes
    requires !Acked(s.h, p, t, x) && Acked(DoHandleAppend(s, m).h, p, t, x)
    ensures p in DoHandleAppend(s, m).nodes && DoHandleAppend(s, m).nodes[p].currentTerm == t
  {
    NodeLog(s, m.peer);
    hide LogsNonEmpty, HandleAppendEntries;
    HandleEffect(s.nodes[m.peer], m.args);
  }

  lemma OwnAck(s: State, e: Event, p: NodeId, t: nat, x: nat)
    requires LogsNonEmpty(s) && Enabled(s, e) && (e.Win? || e.ClientAppend?)
    requires !Acked(s.h, p, t, x) && Acked(Step(s, e).h, p, t, x)
    ensures p in Step(s, e).nodes && Step(s, e).nodes[p].currentTerm == t
  {
    hide LogsNonEmpty, SetAll, NewEntry;
  }

  lemma VotesAckNothing(s: State, e: Event, p: NodeId, t: nat, x: nat)
    requires LogsNonEmpty(s) && Enabled(s, e) && (e.Campaigning? || e.AnswerVote?)
    ensures Acked(s.h, p, t, x) == Acked(Step(s, e).h, p, t, x)
  {
    hide LogsNonEmpty, HandleRequestVote, VoteArgs;
  }

  /** A node that is still in the term in which it acknowledged holds what it
    * acknowledged. */
  lemma AckedInTerm(s: State, p: NodeId, t: nat, x: nat)
    requires p in s.nodes && s.nodes[p].currentTerm == t && Acked(s.h, p, t, x)
    requires ReplicationInv(s)
    ensures t in s.h.ledger && Agree(s.nodes[p].log, s.h.ledger[t], x)
  {
    assert LedgerInv(s.nodes, s.h);
    hide ReplicationInv, Rooted, LedgerOk, VoteOk;
    assert AckOk(s.nodes, s.h, p, t);
    assert StillHolds(s.h, s.nodes[p].log, t, x, t);
  }

  lemma NothingAckedAtFirst(d: Discipline, peersOf: map<NodeId, seq<NodeId>>, r: Run, p: NodeId, t: nat, x: nat)
    requires IsRun(d, peersOf, r)
    ensures !Acked(r.states[0].h, p, t, x)
  {
  }

  /** Whatever is on record as acknowledged to the leader of t by state i, the node
    * agreed on with that leader in some state k <= i, in term t. */
  lemma {:induction false} AckWasAgreement(
    d: Discipline, peersOf: map<NodeId, seq<NodeId>>, r: Run, i: nat, p: NodeId, t: nat, x: nat)
    returns (k: nat)
    requires IsRun(d, peersOf, r) && i < |r.states| && d.guarded && Acked(r.states[i].h, p, t, x)
    ensures k <= i && p in r.states[k].nodes && r.states[k].nodes[p].currentTerm == t
    ensures t in r.states[i].h.ledger && Agree(r.states[k].nodes[p].log, r.states[i].h.ledger[t], x)
    decreases i
  {
    hide ElectionInv, LogInv, ReplicationInv, Step, Enabled, Allowed, ValidMembership, HistoryGrows, Acked, LogsNonEmpty;
    RunReplicationInv(d, peersOf, r, i);
    if i > 0 && Acked(r.states[i - 1].h, p, t, x) {
      k := AckWasAgreement(d, peersOf, r, i - 1, p, t, x);
      RunHistoryGrows(d, peersOf, r, i - 1, i);
      LedgerKeptIn(r.states[i - 1].h, r.states[i].h, t, x);
    } else {
      k := i;
      NothingAckedAtFirst(d, peersOf, r, p, t, x);
      assert IsStep(d, r.states[i - 1], r.events[i - 1], r.states[i]);
      FreshAck(r.states[i - 1], r.events[i - 1], p, t, x);
      AckedInTerm(r.states[i], p, t, x);
    }
  }

  lemma LedgerKeptIn(h: History, h': History, t: nat, x: nat)
    requires HistoryGrows(h, h') && t in h.ledger && x < |h.ledger[t]|
    ensures t in h'.ledger && Agree(h.ledger[t], h'.ledger[t], x)
  {
    hide KeepsBallots;
  }

  /** A leader's match index is no guess: if it reaches x, the peer acknowledged x in the
    * leader's term, and in some earlier state of that term agreed with the leader
    * through x. */
  lemma MatchIndexWasAgreement(
    d: Discipline, peersOf: map<NodeId, seq<NodeId>>, r: Run, i: nat, v: NodeId, p: NodeId, x: nat)
    returns (k: nat)
    requires IsRun(d, peersOf, r) && i < |r.states| && d.guarded && d.ownTerm
    requires v in r.states[i].nodes && r.states[i].nodes[v].role == Leader && p in r.states[i].nodes[v].peers
    requires 1 <= x <= Lookup(r.states[i].nodes[v].matchIndex, p)
    ensures Acked(r.states[i].h, p, r.states[i].nodes[v].currentTerm, x)
    ensures k <= i && p in r.states[k].nodes && r.states[k].nodes[p].currentTerm == r.states[i].nodes[v].currentTerm
    ensures Agree(r.states[k].nodes[p].log, r.states[i].nodes[v].log, x)
  {
    hide IsRun, WellFormed, Rooted;
    RunMatchInv(d, peersOf, r, i);
    assert MatchOk(r.states[i].h, r.states[i].nodes[v]);
    NodeLogParts(d, peersOf, r, i, v);
    k := AckWasAgreement(d, peersOf, r, i, p, r.states[i].nodes[v].currentTerm, x);
  }

  // ---- The heartbeat commit path ----

  /** What a leader counts as replicated is committed. */
  lemma ReplicatedIsCommitted(s: State, n: NodeId, node: NodeState, i: nat)
    requires n in s.nodes && i >= 1 && Replicated(node, i) && WellFormed(node.log)
    requires node.peers == s.nodes[n].peers && node.role == Leader && MatchOk(s.h, node)
    requires node.currentTerm in s.h.ledger && s.h.ledger[node.currentTerm] == node.log
    requires Acked(s.h, n, node.currentTerm, i)
    requires ElectionInv(s)
    ensures i < |node.log| && Committed(s.nodes.Keys, s.h, node.currentTerm, i)
  {
    hide ElectionInv, EntryAt;
    MajorityIsHalf(s, n);
    PeersDistinct(s, n);
    OwnKeyNotPeer(s, n);
    ScanIsIndexing(node.log, i);
    hide WellFormed, Committed;
    CountIsSize(node.peers, node.matchIndex, i);
    CountedAcked(s, n, node, i);
    assert Committed(s.nodes.Keys, s.h, node.currentTerm, i) by {
      CommittedBy(s.nodes.Keys, s.h, node.currentTerm, i, Matching(node.peers, node.matchIndex, i) + {n});
    }
  }

  lemma CommittedBy(members: set<NodeId>, h: History, t: nat, i: nat, q: set<NodeId>)
    requires t in h.ledger && 1 <= i < |h.ledger[t]| && h.ledger[t][i].term == t && AckedBy(members, h, t, i, q)
    ensures Committed(members, h, t, i)
  {
  }

  lemma CountedAcked(s: State, n: NodeId, node: NodeState, i: nat)
    requires n in s.nodes && i >= 1 && node.peers == s.nodes[n].peers && node.role == Leader && MatchOk(s.h, node)
    requires Acked(s.h, n, node.currentTerm, i) && n !in node.peers
    requires 1 + |Matching(node.peers, node.matchIndex, i)| >= |s.nodes| / 2 + 1
    requires ElectionInv(s)
    ensures AckedBy(s.nodes.Keys, s.h, node.currentTerm, i, Matching(node.peers, node.matchIndex, i) + {n})
  {
    hide ElectionInv;
    var q := Matching(node.peers, node.matchIndex, i) + {n};
    assert |q| == |Matching(node.peers, node.matchIndex, i)| + 1;
    forall v | v in q ensures v in s.nodes && Acked(s.h, v, node.currentTerm, i) {
      if v != n { PeersAreMembers(s, n, v); }
    }
    assert |s.nodes| == |s.nodes.Keys|;
  }

  lemma PeersDistinct(s: State, n: NodeId)
    requires ElectionInv(s) && n in s.nodes
    ensures Distinct(s.nodes[n].peers)
  {
  }

  /** advanceCommitIndex moves a leader's commit index only onto committed entries. */
  lemma AdvanceIsCommitted(s: State, n: NodeId, node: NodeState)
    requires n in s.nodes && node.peers == s.nodes[n].peers && node.log == s.nodes[n].log
    requires node.role == Leader == s.nodes[n].role && node.currentTerm == s.nodes[n].currentTerm && MatchOk(s.h, node)
    requires |node.log| > 0 && AdvanceCommit(node).commitIndex != node.commitIndex
    requires ElectionInv(s) && LogInv(s) && ReplicationInv(s)
    ensures node.currentTerm in s.h.ledger && s.h.ledger[node.currentTerm] == node.log
    ensures node.commitIndex < AdvanceCommit(node).commitIndex < |node.log|
    ensures Committed(s.nodes.Keys, s.h, node.currentTerm, AdvanceCommit(node).commitIndex)
  {
    hide ElectionInv, LogInv, ReplicationInv, MatchOk, AdvanceFrom, Committed, Replicated, VotesInv, LedgerInv, WellFormed;
    VotingParts(s, n);
    LogParts(s, n);
    LastEntry(node.log);
    AdvanceFromLargest(node, node.commitIndex + 1, LastIndex(node.log), node.commitIndex);
    ReplicatedIsCommitted(s, n, node, AdvanceCommit(node).commitIndex);
  }

  /** The heartbeat reply that moves a leader's commit index moves it onto a committed
    * entry. */
  lemma HeartbeatReplyCommits(s: State, m: Message)
    requires LogsNonEmpty(s) && Enabled(s, HeartbeatReply(m)) && CreditsOwnTerm(s, HeartbeatReply(m))
    requires s.nodes[m.args.leaderId].role == Leader
    requires HandleHeartbeatReply(s.nodes[m.args.leaderId], m.peer, m.args, m.reply).commitIndex
             != s.nodes[m.args.leaderId].commitIndex
    requires ElectionInv(s) && LogInv(s) && ReplicationInv(s) && MatchInv(s)
    ensures var n := s.nodes[m.args.leaderId];
            var x := HandleHeartbeatReply(n, m.peer, m.args, m.reply).commitIndex;
            && n.currentTerm in s.h.ledger && s.h.ledger[n.currentTerm] == n.log
            && n.commitIndex < x < |n.log| && Committed(s.nodes.Keys, s.h, n.currentTerm, x)
  {
    hide ElectionInv, LogInv, ReplicationInv, AdvanceFrom, Committed;
    var n := s.nodes[m.args.leaderId];
    MessageParts(s, m);
    CreditHeartbeat(s.h, n, m.peer, m.args);
    hide MatchOk;
    AdvanceIsCommitted(s, m.args.leaderId, RecordHeartbeat(n, m.peer, LastSent(m.args)));
  }

  lemma HeartbeatStep(d: Discipline, s: State, m: Message, s': State)
    requires IsStep(d, s, HeartbeatReply(m), s') && d.ownTerm
    ensures LogsNonEmpty(s) && Enabled(s, HeartbeatReply(m)) && CreditsOwnTerm(s, HeartbeatReply(m))
    ensures m.args.leaderId in s'.nodes
    ensures s'.nodes[m.args.leaderId] == HandleHeartbeatReply(s.nodes[m.args.leaderId], m.peer, m.args, m.reply)
  {
    hide HandleHeartbeatReply, CreditsOwnTerm, GuardsHeartbeat, LearnsChecked, CommitsLeading;
  }

  /** The heartbeat commit path is sound: when a heartbeat's reply moves a leader's commit
    * index to x, the leader of every later term, at whatever moment of the run, agrees
    * with that leader through x. */
  lemma HeartbeatCommitsSurvive(
    d: Discipline, peersOf: map<NodeId, seq<NodeId>>, r: Run, i: nat, m: Message, j: nat, b: NodeId)
    requires IsRun(d, peersOf, r) && d.guarded && d.ownTerm
    requires i < |r.events| && r.events[i] == HeartbeatReply(m)
    requires m.AppendResponse? && m.args.leaderId in r.states[i].nodes && m.args.leaderId in r.states[i + 1].nodes
    requires var n, n' := r.states[i].nodes[m.args.leaderId], r.states[i + 1].nodes[m.args.leaderId];
             n.role == Leader && n'.commitIndex != n.commitIndex
    requires j < |r.states| && b in r.states[j].nodes && r.states[j].nodes[b].role == Leader
    requires r.states[j].nodes[b].currentTerm > r.states[i].nodes[m.args.leaderId].currentTerm
    ensures var n, n' := r.states[i].nodes[m.args.leaderId], r.states[i + 1].nodes[m.args.leaderId];
            n.commitIndex < n'.commitIndex && Agree(n.log, r.states[j].nodes[b].log, n'.commitIndex)
  {
    var s, s' := r.states[i], r.states[i + 1];
    var n, x := s.nodes[m.args.leaderId], s'.nodes[m.args.leaderId].commitIndex;
    assert IsStep(d, s, r.events[i], s');
    hide IsStep, Step, Enabled, IsRun, ElectionInv, LogInv, ReplicationInv, MatchInv, HandleHeartbeatReply, CreditsOwnTerm,
      Committed, LogsNonEmpty, Agree;
    HeartbeatStep(d, s, m, s');
    RunMatchInv(d, peersOf, r, i);
    RunReplicationInv(d, peersOf, r, i);
    RunElectionInv(d, peersOf, r, i);
    HeartbeatReplyCommits(s, m);
    CommittedSurvives(d, peersOf, r, i, n.currentTerm, x, j, b);
  }
}
