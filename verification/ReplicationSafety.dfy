/** Theorems about every run with guarded heartbeats. */
module ReplicationSafety {
  import opened RaftLog
  import opened RaftNode
  import opened Cluster
  import opened Elections
  import opened ElectionSafety
  import opened Ledger
  import opened Replication

  lemma InitReplicationInv(peersOf: map<NodeId, seq<NodeId>>)
    requires ValidMembership(peersOf)
    ensures ReplicationInv(Init(peersOf))
  {
  }

  lemma {:induction false} RunReplicationInv(d: Discipline, peersOf: map<NodeId, seq<NodeId>>, r: Run, i: nat)
    requires IsRun(d, peersOf, r) && i < |r.states| && d.guarded
    ensures ReplicationInv(r.states[i])
  {
    hide ElectionInv, LogInv, ReplicationInv, Step, Enabled, ValidMembership, GuardsHeartbeat, LearnsChecked, CreditsOwnTerm;
    if i == 0 {
      InitReplicationInv(peersOf);
    } else {
      RunReplicationInv(d, peersOf, r, i - 1);
      RunElectionInv(d, peersOf, r, i - 1);
      assert IsStep(d, r.states[i - 1], r.events[i - 1], r.states[i]);
      ReplicationInvStep(r.states[i - 1], r.events[i - 1]);
    }
  }

  // ---- History grows along a run ----

  lemma WinGrows(s: State, n: NodeId)
    requires ElectionInv(s) && ReplicationInv(s) && LogsNonEmpty(s) && Enabled(s, Win(n))
    ensures HistoryGrows(s.h, DoWin(s, n).h)
  {
    hide ElectionInv, ReplicationInv, HistoryGrows, LedgerInv, VotesInv, LeadsLedger, CallsApart, Rooted;
    TermNotYetWon(s, n);
    VotingParts(s, n);
    LedgerParts(s.nodes, s.h, n, 0);
    if s.nodes[n].currentTerm == s.campaigns[n].term && s.nodes[n].role == Candidate {
      ElectedGrows(s.h, n, DoWin(s, n).nodes[n], s.campaigns[n].voters);
    } else {
      GrowsReflexive(s.h);
    }
  }

  lemma ClientAppendGrows(s: State, n: NodeId, command: Command)
    requires ElectionInv(s) && LogInv(s) && ReplicationInv(s) && LogsNonEmpty(s) && n in s.nodes && s.nodes[n].role == Leader
    ensures HistoryGrows(s.h, DoClientAppend(s, n, command).h)
  {
    hide ElectionInv, LogInv, ReplicationInv, GapFree;
    LeaderTermPositive(s, n);
    LeaderParts(s, n);
    AppendedParts(s.h, s.nodes[n], n, command);
  }

  lemma StepHistoryGrows(s: State, e: Event)
    requires ElectionInv(s) && LogInv(s) && ReplicationInv(s) && LogsNonEmpty(s) && Enabled(s, e)
    ensures HistoryGrows(s.h, Step(s, e).h)
  {
    hide ElectionInv, LogInv, ReplicationInv, HistoryGrows, CastVote, RecordAck, LogsNonEmpty;
    GrowsReflexive(s.h);
    match e
    case Campaigning(n) =>
      var node := StartElection(s.nodes[n]);
      CastGrows(s.h, n, node.currentTerm, Ballot(n, node.log));
    case AnswerVote(n, m) => AnswerVoteGrows(s, n, m);
    case Win(n) => WinGrows(s, n);
    case ClientAppend(n, command) => ClientAppendGrows(s, n, command);
    case HandleAppend(m) => AckRecorded(s.h, m.peer, m.args.term, LastSent(m.args));
    case _ =>
  }

  lemma AnswerVoteGrows(s: State, n: NodeId, m: Message)
    requires LogsNonEmpty(s) && n in s.nodes && m.VoteRequest?
    ensures HistoryGrows(s.h, DoAnswerVote(s, n, m).h)
  {
    hide HistoryGrows, CastVote;
    GrowsReflexive(s.h);
    var (node, reply) := HandleRequestVote(s.nodes[n], m.vargs);
    CastGrows(s.h, n, m.vargs.term, Ballot(m.vargs.candidateId, node.log));
  }

  lemma GrowsTransitive(a: History, b: History, c: History)
    requires HistoryGrows(a, b) && HistoryGrows(b, c)
    ensures HistoryGrows(a, c)
  {
    assert KeepsBallots(a, c);
    assert AcksGrow(a.acks, c.acks);
    forall t | t in a.ledger ensures t in c.ledger && IsPrefix(a.ledger[t], c.ledger[t]) {
      assert IsPrefix(a.ledger[t], b.ledger[t]) && IsPrefix(b.ledger[t], c.ledger[t]);
    }
  }

  lemma {:induction false} RunHistoryGrows(d: Discipline, peersOf: map<NodeId, seq<NodeId>>, r: Run, i: nat, j: nat)
    requires IsRun(d, peersOf, r) && i <= j < |r.states| && d.guarded
    ensures HistoryGrows(r.states[i].h, r.states[j].h)
    decreases j
  {
    hide ElectionInv, LogInv, ReplicationInv, Step, Enabled, Allowed, ValidMembership, HistoryGrows;
    if i == j {
      GrowsReflexive(r.states[i].h);
    } else {
      RunHistoryGrows(d, peersOf, r, i, j - 1);
      RunReplicationInv(d, peersOf, r, j - 1);
      RunElectionInv(d, peersOf, r, j - 1);
      assert IsStep(d, r.states[j - 1], r.events[j - 1], r.states[j]);
      StepHistoryGrows(r.states[j - 1], r.events[j - 1]);
      GrowsTransitive(r.states[i].h, r.states[j - 1].h, r.states[j].h);
    }
  }

  // ---- The theorems ----

  /** Log Matching across the whole run: two logs, at any two moments, with the
    * same term at an index are identical up to it. */
  lemma LogMatching(d: Discipline, peersOf: map<NodeId, seq<NodeId>>, r: Run, i: nat, j: nat, a: NodeId, b: NodeId, k: nat)
    requires IsRun(d, peersOf, r) && i <= j < |r.states| && d.guarded
    requires a in r.states[i].nodes && b in r.states[j].nodes
    requires k < |r.states[i].nodes[a].log| && k < |r.states[j].nodes[b].log|
    requires r.states[i].nodes[a].log[k].term == r.states[j].nodes[b].log[k].term
    ensures Agree(r.states[i].nodes[a].log, r.states[j].nodes[b].log, k)
  {
    hide ElectionInv, LogInv, ReplicationInv, LedgerInv, HistoryGrows, IsRun, Rooted, WellFormed;
    var s, s' := r.states[i], r.states[j];
    RunHistoryGrows(d, peersOf, r, i, j);
    NodeLogParts(d, peersOf, r, i, a);
    NodeLogParts(d, peersOf, r, j, b);
    assert LedgerGrows(s.h.ledger, s'.h.ledger) by { LedgersGrow(s.h, s'.h); }
    RootedGrows(s.h.ledger, s'.h.ledger, s.nodes[a].log);
    RootedLogsMatch(s'.h.ledger, s.nodes[a].log, s'.nodes[b].log, k);
  }

  lemma LedgersGrow(h: History, h': History)
    requires HistoryGrows(h, h')
    ensures LedgerGrows(h.ledger, h'.ledger)
  {
  }

  lemma NodeLogParts(d: Discipline, peersOf: map<NodeId, seq<NodeId>>, r: Run, i: nat, a: NodeId)
    requires IsRun(d, peersOf, r) && i < |r.states| && d.guarded && a in r.states[i].nodes
    ensures WellFormed(r.states[i].nodes[a].log) && Rooted(r.states[i].h.ledger, r.states[i].nodes[a].log)
    ensures r.states[i].nodes[a].role == Leader ==>
              && r.states[i].nodes[a].currentTerm in r.states[i].h.ledger
              && r.states[i].h.ledger[r.states[i].nodes[a].currentTerm] == r.states[i].nodes[a].log
  {
    RunReplicationInv(d, peersOf, r, i);
    RunElectionInv(d, peersOf, r, i);
    hide ElectionInv, IsRun, LedgerOk, AckOk, VoteOk, Rooted;
    assert GapFree(r.states[i].nodes[a]) && LeadsLedger(r.states[i], a);
  }

  /** Leader Append-Only: while a node leads a term its log only grows at the end. */
  lemma LeaderAppendOnly(d: Discipline, peersOf: map<NodeId, seq<NodeId>>, r: Run, i: nat, j: nat, a: NodeId)
    requires IsRun(d, peersOf, r) && i <= j < |r.states| && d.guarded
    requires a in r.states[i].nodes && r.states[i].nodes[a].role == Leader
    requires a in r.states[j].nodes && r.states[j].nodes[a].role == Leader
    requires r.states[i].nodes[a].currentTerm == r.states[j].nodes[a].currentTerm
    ensures IsPrefix(r.states[i].nodes[a].log, r.states[j].nodes[a].log)
  {
    hide ElectionInv, LogInv, ReplicationInv, LedgerInv, KeepsBallots, IsRun, Rooted, WellFormed;
    RunHistoryGrows(d, peersOf, r, i, j);
    NodeLogParts(d, peersOf, r, i, a);
    NodeLogParts(d, peersOf, r, j, a);
  }

  /** A call that returned nil is committed in its term. */
  lemma ReturnedIsCommitted(s: State, c: nat)
    requires c < |s.calls| && CallOk(s, c) && s.calls[c].returned
    ensures Committed(s.nodes.Keys, s.h, s.calls[c].entry.term, s.calls[c].entry.index)
  {
    var call := s.calls[c];
    var q := call.acks + {call.leader};
    assert |q| == |call.acks| + 1;
    assert |s.nodes| == |s.nodes.Keys|;
    assert AckedBy(s.nodes.Keys, s.h, call.entry.term, call.entry.index, q);
  }

  lemma CommittedGrows(members: set<NodeId>, h: History, h': History, t: nat, i: nat)
    requires Committed(members, h, t, i) && HistoryGrows(h, h')
    ensures Committed(members, h', t, i) && Agree(h.ledger[t], h'.ledger[t], i)
  {
    hide KeepsBallots;
    var q :| AckedBy(members, h, t, i, q);
    assert AckedBy(members, h', t, i, q);
  }

  /** The ledger of every later term holds a committed entry and all before it. */
  lemma LaterLedgerHolds(s: State, t: nat, i: nat, u: nat)
    requires ElectionInv(s) && ReplicationInv(s)
    requires Committed(s.nodes.Keys, s.h, t, i) && t <= u && u in s.h.ledger
    ensures Agree(s.h.ledger[t], s.h.ledger[u], i)
  {
    hide ElectionInv, ReplicationInv, VotesInv, LedgerInv, Rooted, WellFormed;
    if t < u {
      var n :| n in s.nodes by { SomeNode(s); }
      VotingParts(s, n);
      LedgerParts(s.nodes, s.h, n, u);
      LeaderCompleteness(s.nodes, s.h, t, i, u);
    }
  }

  lemma SomeNode(s: State)
    requires ElectionInv(s)
    ensures exists n :: n in s.nodes
  {
    assert |s.nodes| >= 2;
  }

  /** What is committed in state i, every leader of a later term holds, in whatever state
    * j of the run. */
  lemma CommittedSurvives(
    d: Discipline, peersOf: map<NodeId, seq<NodeId>>, r: Run, i: nat, t: nat, x: nat, j: nat, b: NodeId)
    requires IsRun(d, peersOf, r) && i < |r.states| && j < |r.states| && d.guarded
    requires Committed(r.states[i].nodes.Keys, r.states[i].h, t, x)
    requires b in r.states[j].nodes && r.states[j].nodes[b].role == Leader && r.states[j].nodes[b].currentTerm > t
    ensures Agree(r.states[i].h.ledger[t], r.states[j].nodes[b].log, x)
  {
    hide ElectionInv, LogInv, ReplicationInv, IsRun, WellFormed, Rooted, HistoryGrows, Committed, VotesInv, LedgerInv;
    var k := if i <= j then j else i;
    RunHistoryGrows(d, peersOf, r, i, k);
    RunTermsRise(d, peersOf, r, i, k);
    CommittedGrows(r.states[i].nodes.Keys, r.states[i].h, r.states[k].h, t, x);
    BaseLater(d, peersOf, r, j, b, k);
    RunReplicationInv(d, peersOf, r, k);
    RunElectionInv(d, peersOf, r, k);
    var n :| n in r.states[k].nodes by { SomeNode(r.states[k]); }
    VotingParts(r.states[k], n);
    LeaderCompleteness(r.states[k].nodes, r.states[k].h, t, x, r.states[j].nodes[b].currentTerm);
  }

  /** Acknowledged writes survive: once Replicate has returned nil, the leader of
    * every later term, at whatever moment of the run, holds the entry. */
  lemma AcknowledgedWritesSurvive(d: Discipline, peersOf: map<NodeId, seq<NodeId>>, r: Run, i: nat, c: nat, j: nat, b: NodeId)
    requires IsRun(d, peersOf, r) && i < |r.states| && j < |r.states| && d.guarded
    requires c < |r.states[i].calls| && r.states[i].calls[c].returned
    requires b in r.states[j].nodes && r.states[j].nodes[b].role == Leader
    requires r.states[j].nodes[b].currentTerm > r.states[i].calls[c].entry.term
    ensures var entry := r.states[i].calls[c].entry;
            entry.index < |r.states[j].nodes[b].log| && r.states[j].nodes[b].log[entry.index] == entry
  {
    hide ElectionInv, LogInv, ReplicationInv, IsRun, Committed;
    RunReplicationInv(d, peersOf, r, i);
    CallParts(r.states[i], c);
    ReturnedIsCommitted(r.states[i], c);
    CommittedSurvives(d, peersOf, r, i, r.states[i].calls[c].entry.term, r.states[i].calls[c].entry.index, j, b);
  }

  /** What returned in state i is committed in every later state k. */
  lemma CommittedLater(d: Discipline, peersOf: map<NodeId, seq<NodeId>>, r: Run, i: nat, c: nat, k: nat)
    requires IsRun(d, peersOf, r) && i <= k < |r.states| && d.guarded
    requires c < |r.states[i].calls| && r.states[i].calls[c].returned
    ensures var entry := r.states[i].calls[c].entry;
            && Committed(r.states[k].nodes.Keys, r.states[k].h, entry.term, entry.index)
            && r.states[k].h.ledger[entry.term][entry.index] == entry
  {
    hide ElectionInv, LogInv, ReplicationInv, IsRun, HistoryGrows;
    RunReplicationInv(d, peersOf, r, i);
    RunHistoryGrows(d, peersOf, r, i, k);
    RunTermsRise(d, peersOf, r, i, k);
    CallParts(r.states[i], c);
    ReturnedIsCommitted(r.states[i], c);
    CommittedGrows(r.states[i].nodes.Keys, r.states[i].h, r.states[k].h,
                   r.states[i].calls[c].entry.term, r.states[i].calls[c].entry.index);
  }

  /** A leader's log extends its base, which is on record in every later state. */
  lemma BaseLater(d: Discipline, peersOf: map<NodeId, seq<NodeId>>, r: Run, j: nat, b: NodeId, k: nat)
    requires IsRun(d, peersOf, r) && j <= k < |r.states| && d.guarded
    requires b in r.states[j].nodes && r.states[j].nodes[b].role == Leader
    ensures var u := r.states[j].nodes[b].currentTerm;
            u in r.states[k].h.elections && IsPrefix(Base(r.states[k].h, u), r.states[j].nodes[b].log)
  {
    hide ElectionInv, LogInv, ReplicationInv, IsRun, VotesInv, LedgerInv, Rooted, WellFormed;
    var s := r.states[j];
    var u := s.nodes[b].currentTerm;
    RunReplicationInv(d, peersOf, r, j);
    RunElectionInv(d, peersOf, r, j);
    RunKeepsBallots(d, peersOf, r, j, k);
    VotingParts(s, b);
    LeaderElectedParts(s, b);
    LedgerParts(s.nodes, s.h, b, u);
    BasesKept(s.nodes, s.h, r.states[k].h);
  }

  /** One acknowledged history: two calls that returned nil, on any nodes and in any
    * terms, own different indices. */
  lemma OneAcknowledgedHistory(d: Discipline, peersOf: map<NodeId, seq<NodeId>>, r: Run, i: nat, c: nat, e: nat)
    requires IsRun(d, peersOf, r) && i < |r.states| && d.guarded
    requires c < e < |r.states[i].calls| && r.states[i].calls[c].returned && r.states[i].calls[e].returned
    ensures r.states[i].calls[c].entry.index != r.states[i].calls[e].entry.index
  {
    hide ElectionInv, LogInv, ReplicationInv, IsRun, Committed;
    var s := r.states[i];
    RunReplicationInv(d, peersOf, r, i);
    RunElectionInv(d, peersOf, r, i);
    CallParts(s, c);
    CallParts(s, e);
    VotingParts(s, s.calls[c].leader);
    ReturnedIsCommitted(s, c);
    ReturnedIsCommitted(s, e);
    var x, y := s.calls[c].entry, s.calls[e].entry;
    if x.term < y.term {
      LaterLedgerHolds(s, x.term, x.index, y.term);
    } else if y.term < x.term {
      LaterLedgerHolds(s, y.term, y.index, x.term);
    }
  }
}
