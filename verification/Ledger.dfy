/** The log of each term's leader, and how node logs relate to it. Every log
  * prefix that ends in an entry of term t is a prefix of the log of the leader of
  * t; from this follow Log Matching and Leader Completeness. */
module Ledger {
  import opened RaftLog
  import opened RaftNode
  import opened Quorums
  import opened Cluster
  import opened Elections

  ghost predicate RootedAt(ledger: map<nat, Log>, log: Log, i: nat)
    requires i < |log|
  {
    log[i].term in ledger && Agree(log, ledger[log[i].term], i)
  }

  ghost predicate Rooted(ledger: map<nat, Log>, log: Log) {
    forall i: nat | 1 <= i < |log| :: RootedAt(ledger, log, i)
  }

  /** The log the leader of u was elected with. */
  ghost function Base(h: History, u: nat): Log {
    if u in h.elections && (h.elections[u].leader, u) in h.ballots
    then h.ballots[(h.elections[u].leader, u)].log else []
  }

  /** The leader's log extends the log it was elected with by entries of its term. */
  ghost predicate LedgerOk(h: History, t: nat)
    requires t in h.ledger
  {
    && WellFormed(h.ledger[t])
    && Rooted(h.ledger, h.ledger[t])
    && IsPrefix(Base(h, t), h.ledger[t])
    && forall i | |Base(h, t)| <= i < |h.ledger[t]| :: h.ledger[t][i].term == t
  }

  ghost predicate Acked(h: History, v: NodeId, t: nat, i: nat) {
    (v, t) in h.acks && i <= h.acks[(v, t)]
  }

  /** The leader of u was elected without the first i entries of the leader of t. */
  ghost predicate Lacks(h: History, t: nat, i: nat, u: nat) {
    u in h.elections && t in h.ledger && !Agree(h.ledger[t], Base(h, u), i)
  }

  ghost predicate Overridden(h: History, t: nat, i: nat, upTo: nat) {
    exists u :: t < u <= upTo && Lacks(h, t, i, u)
  }

  /** `log` still holds what was acknowledged, unless a leader in between lacks it. */
  ghost predicate StillHolds(h: History, log: Log, t: nat, i: nat, upTo: nat) {
    t in h.ledger && (Agree(h.ledger[t], log, i) || Overridden(h, t, i, upTo))
  }

  ghost predicate AckOk(nodes: map<NodeId, NodeState>, h: History, v: NodeId, t: nat)
    requires (v, t) in h.acks
  {
    && v in nodes
    && t in h.ledger
    && t <= nodes[v].currentTerm
    && h.acks[(v, t)] < |h.ledger[t]|
    && forall i: nat | i <= h.acks[(v, t)] :: StillHolds(h, nodes[v].log, t, i, nodes[v].currentTerm)
  }

  /** A vote that counted, or may still count, was cast with a log that held what
    * the voter had acknowledged to earlier leaders. */
  ghost predicate VoteOk(h: History, v: NodeId, u: nat)
    requires (v, u) in h.ballots
  {
    (u in h.elections ==> v in h.elections[u].voters) ==>
      forall t: nat, i: nat | t < u && Acked(h, v, t, i) :: StillHolds(h, h.ballots[(v, u)].log, t, i, u - 1)
  }

  ghost predicate LedgerInv(nodes: map<NodeId, NodeState>, h: History) {
    && h.ledger.Keys == h.elections.Keys
    && (forall v | v in nodes :: Rooted(h.ledger, nodes[v].log))
    && (forall k | k in h.ballots :: Rooted(h.ledger, h.ballots[k].log))
    && (forall t | t in h.ledger :: LedgerOk(h, t))
    && (forall v, t | (v, t) in h.acks :: AckOk(nodes, h, v, t))
    && (forall v, u | (v, u) in h.ballots :: VoteOk(h, v, u))
  }

  // ---- Log Matching and Leader Completeness in one state ----

  /** Two rooted logs with the same term at an index agree up to it. */
  lemma RootedLogsMatch(ledger: map<nat, Log>, a: Log, b: Log, i: nat)
    requires WellFormed(a) && WellFormed(b) && Rooted(ledger, a) && Rooted(ledger, b)
    requires i < |a| && i < |b| && a[i].term == b[i].term
    ensures Agree(a, b, i)
  {
    if i > 0 {
      assert RootedAt(ledger, a, i) && RootedAt(ledger, b, i);
    }
  }

  ghost predicate AckedBy(members: set<NodeId>, h: History, t: nat, i: nat, q: set<NodeId>) {
    IsQuorum(members, q) && forall v | v in q :: Acked(h, v, t, i)
  }

  /** An entry of term t that a majority acknowledged to the leader of t. */
  ghost predicate Committed(members: set<NodeId>, h: History, t: nat, i: nat) {
    && t in h.ledger
    && 1 <= i < |h.ledger[t]|
    && h.ledger[t][i].term == t
    && exists q :: AckedBy(members, h, t, i, q)
  }

  /** A log at least as up to date as one that holds the leader's first i entries
    * holds them too, provided the base of its own last leader does. */
  lemma UpToDateHolds(ledger: map<nat, Log>, t: nat, i: nat, voter: Log, cand: Log, base: Log)
    requires 1 <= t && t in ledger && 1 <= i < |ledger[t]| && ledger[t][i].term == t
    requires WellFormed(voter) && Rooted(ledger, voter) && Agree(ledger[t], voter, i)
    requires WellFormed(cand) && Rooted(ledger, cand)
    requires UpToDate(LastTerm(cand), LastIndex(cand), voter)
    requires t < LastTerm(cand) && LastTerm(cand) in ledger && |cand| - 1 < |ledger[LastTerm(cand)]|
             && ledger[LastTerm(cand)][|cand| - 1].term == LastTerm(cand) ==>
               Agree(ledger[t], base, i) && IsPrefix(base, ledger[LastTerm(cand)]) && |base| <= |cand| - 1
    ensures Agree(ledger[t], cand, i)
  {
    assert t == voter[i].term <= LastTerm(voter) <= LastTerm(cand);
    assert RootedAt(ledger, cand, |cand| - 1);
    hide WellFormed, Rooted;
    if LastTerm(cand) == LastTerm(voter) {
      assert RootedAt(ledger, voter, |voter| - 1);
    }
  }

  lemma LeaderTermsPositive(nodes: map<NodeId, NodeState>, h: History)
    requires VotesInv(nodes, h) && LedgerInv(nodes, h)
    ensures h.ledger.Keys == h.elections.Keys
    ensures forall t | t in h.ledger :: 1 <= t && IsCandidacy(h, h.elections[t].leader, t)
                                        && LastTerm(Candidacy(h, h.elections[t].leader, t)) < t
                                        && Base(h, t) == Candidacy(h, h.elections[t].leader, t) && WellFormed(Base(h, t))
  {
    hide LedgerOk, AckOk, VoteOk, Rooted;
    LeadersVotedForSelf(nodes, h);
    forall t | t in h.ledger ensures 1 <= t && IsCandidacy(h, h.elections[t].leader, t)
                                     && LastTerm(Candidacy(h, h.elections[t].leader, t)) < t
                                     && WellFormed(Candidacy(h, h.elections[t].leader, t))
    {
      assert VotedFor(h, h.elections[t].leader, t, h.elections[t].leader);
      assert BallotOk(nodes, h, h.elections[t].leader, t);
    }
  }

  /** An entry of term s in the log of the leader of s lies beyond the log it was
    * elected with. */
  lemma LedgersOk(nodes: map<NodeId, NodeState>, h: History)
    requires LedgerInv(nodes, h)
    ensures forall t | t in h.ledger :: LedgerOk(h, t)
  {
    hide Rooted, LedgerOk, AckOk, VoteOk;
  }

  lemma BaseShorter(nodes: map<NodeId, NodeState>, h: History, s: nat, k: nat)
    requires s in h.ledger && k < |h.ledger[s]| && h.ledger[s][k].term == s
    requires VotesInv(nodes, h) && LedgerInv(nodes, h)
    ensures |Base(h, s)| <= k && IsPrefix(Base(h, s), h.ledger[s])
  {
    hide VotesInv, LedgerInv, Rooted;
    LeaderTermsPositive(nodes, h);
    assert LedgerOk(h, s) by { LedgersOk(nodes, h); }
    var base := Base(h, s);
    assert forall j | 0 <= j < |base| :: base[j].term <= LastTerm(base);
  }

  /** Leader Completeness: a committed entry, with all before it, is in the log that
    * the leader of every later term was elected with. */
  lemma {:induction false} LeaderCompleteness(nodes: map<NodeId, NodeState>, h: History, t: nat, i: nat, u: nat)
    requires VotesInv(nodes, h) && LedgerInv(nodes, h)
    requires Committed(nodes.Keys, h, t, i)
    requires t < u && u in h.elections
    ensures Agree(h.ledger[t], Base(h, u), i)
    decreases u
  {
    hide VotesInv, LedgerInv, UpToDate, WellFormed, Rooted, AckedBy;
    forall w | t < w < u && w in h.elections ensures Agree(h.ledger[t], Base(h, w), i) {
      LeaderCompleteness(nodes, h, t, i, w);
    }
    var voter := CommonVoter(nodes, h, t, i, u);
    LeaderTermsPositive(nodes, h);
    var s := LastTerm(Base(h, u));
    if s in h.ledger && |Base(h, u)| - 1 < |h.ledger[s]| && h.ledger[s][|Base(h, u)| - 1].term == s {
      BaseShorter(nodes, h, s, |Base(h, u)| - 1);
    }
    UpToDateHolds(h.ledger, t, i, voter, Base(h, u), Base(h, s));
  }

  /** Some member of the majority that elected u had acknowledged the entry, and the
    * log it voted with still held it. */
  lemma CommonVoter(nodes: map<NodeId, NodeState>, h: History, t: nat, i: nat, u: nat) returns (log: Log)
    requires VotesInv(nodes, h) && LedgerInv(nodes, h)
    requires Committed(nodes.Keys, h, t, i)
    requires t < u && u in h.elections
    requires forall w | t < w < u && w in h.elections :: Agree(h.ledger[t], Base(h, w), i)
    ensures WellFormed(log) && Rooted(h.ledger, log) && Agree(h.ledger[t], log, i)
    ensures WellFormed(Base(h, u)) && Rooted(h.ledger, Base(h, u))
    ensures UpToDate(LastTerm(Base(h, u)), LastIndex(Base(h, u)), log)
  {
    var q :| AckedBy(nodes.Keys, h, t, i, q);
    assert ElectionOk(nodes, h, u);
    var e := h.elections[u];
    var v := QuorumsMeet(nodes.Keys, q, e.voters);
    assert VotedFor(h, v, u, e.leader) && VotedFor(h, e.leader, u, e.leader);
    assert BallotOk(nodes, h, v, u) && BallotOk(nodes, h, e.leader, u);
    assert VoteOk(h, v, u);
    assert Acked(h, v, t, i);
    hide LedgerOk, AckOk, UpToDate, WellFormed, Rooted;
    log := h.ballots[(v, u)].log;
    assert StillHolds(h, log, t, i, u - 1);
  }

  // ---- What later history keeps ----

  ghost predicate LedgerGrows(ledger: map<nat, Log>, ledger': map<nat, Log>) {
    forall t | t in ledger :: t in ledger' && IsPrefix(ledger[t], ledger'[t])
  }

  ghost predicate AcksGrow(acks: map<(NodeId, nat), nat>, acks': map<(NodeId, nat), nat>) {
    forall k | k in acks :: k in acks' && acks[k] <= acks'[k]
  }

  ghost predicate HistoryGrows(h: History, h': History) {
    KeepsBallots(h, h') && LedgerGrows(h.ledger, h'.ledger) && AcksGrow(h.acks, h'.acks)
  }

  lemma RootedGrows(ledger: map<nat, Log>, ledger': map<nat, Log>, log: Log)
    requires Rooted(ledger, log) && LedgerGrows(ledger, ledger')
    ensures Rooted(ledger', log)
  {
    forall i: nat | 1 <= i < |log| ensures RootedAt(ledger', log, i) {
      assert RootedAt(ledger, log, i);
    }
  }

  lemma BasesKept(nodes: map<NodeId, NodeState>, h: History, h': History)
    requires VotesInv(nodes, h) && KeepsBallots(h, h')
    ensures forall u | u in h.elections :: Base(h', u) == Base(h, u)
  {
    LeadersVotedForSelf(nodes, h);
    hide VotesInv;
    forall u | u in h.elections ensures Base(h', u) == Base(h, u) {
      assert VotedFor(h, h.elections[u].leader, u, h.elections[u].leader);
    }
  }

  lemma StillHoldsGrows(h: History, h': History, log: Log, t: nat, i: nat, upTo: nat, upTo': nat)
    requires HistoryGrows(h, h') && forall u | u in h.elections :: Base(h', u) == Base(h, u)
    requires StillHolds(h, log, t, i, upTo) && upTo <= upTo' && i < |h.ledger[t]|
    ensures StillHolds(h', log, t, i, upTo')
  {
    if !Agree(h.ledger[t], log, i) {
      var u :| t < u <= upTo && Lacks(h, t, i, u);
      assert Lacks(h', t, i, u);
    }
  }

  lemma AckKept(nodes: map<NodeId, NodeState>, h: History, nodes': map<NodeId, NodeState>, h': History, v: NodeId, t: nat)
    requires (v, t) in h.acks && AckOk(nodes, h, v, t)
    requires HistoryGrows(h, h') && forall u | u in h.elections :: Base(h', u) == Base(h, u)
    requires h'.acks[(v, t)] == h.acks[(v, t)]
    requires v in nodes' && nodes'[v].log == nodes[v].log && nodes[v].currentTerm <= nodes'[v].currentTerm
    ensures AckOk(nodes', h', v, t)
  {
    forall i: nat | i <= h'.acks[(v, t)] ensures StillHolds(h', nodes'[v].log, t, i, nodes'[v].currentTerm) {
      StillHoldsGrows(h, h', nodes[v].log, t, i, nodes[v].currentTerm, nodes'[v].currentTerm);
    }
  }

  lemma LedgerOkKept(h: History, h': History, t: nat)
    requires t in h.ledger && LedgerOk(h, t) && HistoryGrows(h, h')
    requires h'.ledger[t] == h.ledger[t] && Base(h', t) == Base(h, t)
    ensures LedgerOk(h', t)
  {
    RootedGrows(h.ledger, h'.ledger, h.ledger[t]);
  }

  /** Acknowledgements change only for node n in its current term t. */
  ghost predicate AcksOnlyAt(h: History, h': History, n: NodeId, t: nat) {
    forall k | k in h'.acks && k != (n, t) :: k in h.acks && h'.acks[k] == h.acks[k]
  }

  lemma RecordedVoteOk(nodes: map<NodeId, NodeState>, h: History, v: NodeId, u: nat)
    requires LedgerInv(nodes, h) && (v, u) in h.ballots
    ensures VoteOk(h, v, u)
  {
    hide Rooted, LedgerOk, AckOk, VoteOk;
  }

  lemma VoteKept(nodes: map<NodeId, NodeState>, h: History, h': History, n: NodeId, t: nat, v: NodeId, u: nat)
    requires VotesInv(nodes, h) && LedgerInv(nodes, h) && HistoryGrows(h, h') && AcksOnlyAt(h, h', n, t)
    requires n in nodes && nodes[n].currentTerm <= t
    requires (v, u) in h.ballots
    ensures VoteOk(h', v, u)
  {
    hide VotesInv, LedgerInv;
    BasesKept(nodes, h, h');
    BallotsBounded(nodes, h);
    RecordedVoteOk(nodes, h, v, u);
    AcksBounded(nodes, h);
    hide StillHolds;
    if u in h'.elections ==> v in h'.elections[u].voters {
      forall w: nat, i: nat | w < u && Acked(h', v, w, i)
        ensures StillHolds(h', h'.ballots[(v, u)].log, w, i, u - 1)
      {
        assert Acked(h, v, w, i);
        StillHoldsGrows(h, h', h.ballots[(v, u)].log, w, i, u - 1, u - 1);
      }
    }
  }

  lemma AcksBounded(nodes: map<NodeId, NodeState>, h: History)
    requires LedgerInv(nodes, h)
    ensures forall v, t | (v, t) in h.acks ::
              v in nodes && t in h.ledger && t <= nodes[v].currentTerm && h.acks[(v, t)] < |h.ledger[t]|
  {
    hide Rooted, LedgerOk, VoteOk;
    forall v, t | (v, t) in h.acks
      ensures v in nodes && t in h.ledger && t <= nodes[v].currentTerm && h.acks[(v, t)] < |h.ledger[t]|
    {
      assert AckOk(nodes, h, v, t);
    }
  }

  /** A step of node n keeps the ledger invariant if the new ballots, the changed
    * leader logs and the acknowledgements of n satisfy it. */
  lemma LedgerKept(nodes: map<NodeId, NodeState>, h: History, n: NodeId, node: NodeState, h': History)
    requires VotesInv(nodes, h) && LedgerInv(nodes, h) && HistoryGrows(h, h')
    requires n in nodes && nodes[n].currentTerm <= node.currentTerm
    requires h'.ledger.Keys == h'.elections.Keys
    requires AcksOnlyAt(h, h', n, node.currentTerm)
    requires Rooted(h'.ledger, node.log)
    requires forall k | k in h'.ballots && k !in h.ballots :: Rooted(h'.ledger, h'.ballots[k].log) && VoteOk(h', k.0, k.1)
    requires forall t | t in h'.ledger && (t in h.ledger ==> h'.ledger[t] != h.ledger[t]) :: LedgerOk(h', t)
    requires forall t | (n, t) in h'.acks :: AckOk(nodes[n := node], h', n, t)
    ensures LedgerInv(nodes[n := node], h')
  {
    var nodes' := nodes[n := node];
    BasesKept(nodes, h, h');
    BallotsKept(nodes, h, h', n, node.currentTerm);
    AcksKept(nodes, h, n, node, h');
    hide VotesInv, Rooted, LedgerOk, AckOk, VoteOk, KeepsBallots;
    forall v | v in nodes' ensures Rooted(h'.ledger, nodes'[v].log) {
      if v != n { RootedGrows(h.ledger, h'.ledger, nodes[v].log); }
    }
    forall t | t in h'.ledger ensures LedgerOk(h', t) {
      LedgerAfter(nodes, h, h', t);
    }
  }

  lemma AcksKept(nodes: map<NodeId, NodeState>, h: History, n: NodeId, node: NodeState, h': History)
    requires LedgerInv(nodes, h) && HistoryGrows(h, h') && forall u | u in h.elections :: Base(h', u) == Base(h, u)
    requires n in nodes && AcksOnlyAt(h, h', n, node.currentTerm)
    requires forall t | (n, t) in h'.acks :: AckOk(nodes[n := node], h', n, t)
    ensures forall v, t | (v, t) in h'.acks :: AckOk(nodes[n := node], h', v, t)
  {
    AcksBounded(nodes, h);
    hide Rooted, LedgerOk, AckOk, VoteOk, KeepsBallots, LedgerGrows, AcksGrow;
    forall v, t | (v, t) in h'.acks ensures AckOk(nodes[n := node], h', v, t) {
      if v != n { AckKept(nodes, h, nodes[n := node], h', v, t); }
    }
  }

  lemma LedgerAfter(nodes: map<NodeId, NodeState>, h: History, h': History, t: nat)
    requires LedgerInv(nodes, h) && HistoryGrows(h, h') && forall u | u in h.elections :: Base(h', u) == Base(h, u)
    requires t in h'.ledger && ((t in h.ledger ==> h'.ledger[t] != h.ledger[t]) ==> LedgerOk(h', t))
    ensures LedgerOk(h', t)
  {
    hide Rooted, AckOk, VoteOk;
    if t in h.ledger && h'.ledger[t] == h.ledger[t] { LedgerOkKept(h, h', t); }
  }

  lemma BallotsKept(nodes: map<NodeId, NodeState>, h: History, h': History, n: NodeId, t: nat)
    requires VotesInv(nodes, h) && LedgerInv(nodes, h) && HistoryGrows(h, h')
    requires n in nodes && nodes[n].currentTerm <= t && AcksOnlyAt(h, h', n, t)
    requires forall k | k in h'.ballots && k !in h.ballots :: Rooted(h'.ledger, h'.ballots[k].log) && VoteOk(h', k.0, k.1)
    ensures forall k | k in h'.ballots :: Rooted(h'.ledger, h'.ballots[k].log)
    ensures forall v, u | (v, u) in h'.ballots :: VoteOk(h', v, u)
  {
    hide VotesInv, Rooted, LedgerOk, AckOk, VoteOk;
    forall k | k in h'.ballots ensures Rooted(h'.ledger, h'.ballots[k].log) {
      if k in h.ballots { RootedGrows(h.ledger, h'.ledger, h.ballots[k].log); }
    }
    forall v, u | (v, u) in h'.ballots ensures VoteOk(h', v, u) {
      if (v, u) in h.ballots { VoteKept(nodes, h, h', n, t, v, u); }
      else { assert VoteOk(h', (v, u).0, (v, u).1); }
    }
  }

  // ---- Reading the invariant one part at a time ----

  lemma LedgerParts(nodes: map<NodeId, NodeState>, h: History, n: NodeId, t: nat)
    requires LedgerInv(nodes, h) && n in nodes
    ensures h.ledger.Keys == h.elections.Keys
    ensures Rooted(h.ledger, nodes[n].log)
    ensures t in h.ledger ==> LedgerOk(h, t)
    ensures (n, t) in h.acks ==> AckOk(nodes, h, n, t)
  {
    hide Rooted, LedgerOk, AckOk, VoteOk;
  }

  // ---- The five ways a step touches terms, logs and history ----

  lemma GrowsReflexive(h: History)
    ensures HistoryGrows(h, h)
  {
  }

  lemma OwnAcksKept(nodes: map<NodeId, NodeState>, h: History, n: NodeId, node: NodeState, h': History)
    requires LedgerInv(nodes, h) && HistoryGrows(h, h') && forall u | u in h.elections :: Base(h', u) == Base(h, u)
    requires n in nodes && node.log == nodes[n].log && nodes[n].currentTerm <= node.currentTerm
    requires h'.acks == h.acks
    ensures forall t | (n, t) in h'.acks :: AckOk(nodes[n := node], h', n, t)
  {
    hide Rooted, LedgerOk, AckOk, VoteOk, KeepsBallots, LedgerGrows, AcksGrow;
    forall t | (n, t) in h'.acks ensures AckOk(nodes[n := node], h', n, t) {
      AckKept(nodes, h, nodes[n := node], h', n, t);
    }
  }

  /** A node enters a later term, or changes nothing the ledger speaks about. */
  lemma TickLedgerInv(nodes: map<NodeId, NodeState>, h: History, n: NodeId, node: NodeState)
    requires VotesInv(nodes, h) && LedgerInv(nodes, h) && n in nodes
    requires node.log == nodes[n].log && nodes[n].currentTerm <= node.currentTerm
    ensures LedgerInv(nodes[n := node], h)
  {
    GrowsReflexive(h);
    OwnAcksKept(nodes, h, n, node, h);
    hide VotesInv, Rooted, LedgerOk, AckOk, VoteOk, HistoryGrows;
    LedgerKept(nodes, h, n, node, h);
  }

  /** A node casts its vote of term node.currentTerm with its present log. */
  lemma CastGrows(h: History, v: NodeId, t: nat, b: Ballot)
    ensures HistoryGrows(h, CastVote(h, v, t, b))
  {
  }

  lemma CastLedgerInv(nodes: map<NodeId, NodeState>, h: History, n: NodeId, node: NodeState, b: Ballot)
    requires VotesInv(nodes, h) && LedgerInv(nodes, h) && n in nodes
    requires node.log == nodes[n].log == b.log && nodes[n].currentTerm <= node.currentTerm
    requires (n, node.currentTerm) !in h.ballots
    ensures LedgerInv(nodes[n := node], CastVote(h, n, node.currentTerm, b))
  {
    hide VotesInv, LedgerInv, Rooted, LedgerOk, AckOk, VoteOk, HistoryGrows;
    var h' := CastVote(h, n, node.currentTerm, b);
    CastGrows(h, n, node.currentTerm, b);
    BasesKept(nodes, h, h');
    OwnAcksKept(nodes, h, n, node, h');
    FreshVoteOk(nodes, h, n, node, b);
    LedgerParts(nodes, h, n, node.currentTerm);
    LedgerKept(nodes, h, n, node, h');
  }

  lemma FreshVoteOk(nodes: map<NodeId, NodeState>, h: History, n: NodeId, node: NodeState, b: Ballot)
    requires VotesInv(nodes, h) && LedgerInv(nodes, h) && n in nodes
    requires node.log == nodes[n].log == b.log && nodes[n].currentTerm <= node.currentTerm
    requires (n, node.currentTerm) !in h.ballots
    ensures VoteOk(CastVote(h, n, node.currentTerm, b), n, node.currentTerm)
  {
    hide VotesInv, LedgerInv, Rooted, LedgerOk, StillHolds;
    var u := node.currentTerm;
    var h' := CastVote(h, n, u, b);
    BasesKept(nodes, h, h');
    NoVoteNotVoter(nodes, h, n, u);
    if u !in h.elections {
      forall t: nat, i: nat | t < u && Acked(h', n, t, i) ensures StillHolds(h', b.log, t, i, u - 1) {
        LedgerParts(nodes, h, n, t);
        assert StillHolds(h, nodes[n].log, t, i, nodes[n].currentTerm);
        OverriddenBefore(h, nodes[n].log, t, i, nodes[n].currentTerm, u);
        StillHoldsGrows(h, h', b.log, t, i, u - 1, u - 1);
      }
    }
  }

  lemma NoVoteNotVoter(nodes: map<NodeId, NodeState>, h: History, n: NodeId, u: nat)
    requires VotesInv(nodes, h) && (n, u) !in h.ballots
    ensures u in h.elections ==> n !in h.elections[u].voters
  {
    if u in h.elections {
      assert ElectionOk(nodes, h, u);
      assert !VotedFor(h, n, u, h.elections[u].leader);
    }
  }

  lemma OverriddenBefore(h: History, log: Log, t: nat, i: nat, upTo: nat, u: nat)
    requires StillHolds(h, log, t, i, upTo) && upTo <= u && u !in h.elections && t < u
    ensures StillHolds(h, log, t, i, u - 1)
  {
    if !Agree(h.ledger[t], log, i) {
      var w :| t < w <= upTo && Lacks(h, t, i, w);
      assert Lacks(h, t, i, w) && w <= u - 1;
    }
  }

  /** A candidate becomes leader of its term with the log it stood with. */
  lemma ElectLedgerInv(nodes: map<NodeId, NodeState>, h: History, n: NodeId, node: NodeState, voters: set<NodeId>)
    requires VotesInv(nodes, h) && LedgerInv(nodes, h) && n in nodes
    requires node.log == nodes[n].log && node.currentTerm == nodes[n].currentTerm
    requires node.currentTerm !in h.elections
    requires VotedFor(h, n, node.currentTerm, n) && h.ballots[(n, node.currentTerm)].log == node.log && WellFormed(node.log)
    ensures LedgerInv(nodes[n := node], Elected(h, n, node, voters))
  {
    hide VotesInv, LedgerInv, AckOk, VoteOk, Rooted, LedgerOk, HistoryGrows;
    AcksBounded(nodes, h);
    LedgerParts(nodes, h, n, node.currentTerm);
    ElectedParts(nodes, h, n, node, voters);
    LedgerKept(nodes, h, n, node, Elected(h, n, node, voters));
  }

  lemma ElectedParts(nodes: map<NodeId, NodeState>, h: History, n: NodeId, node: NodeState, voters: set<NodeId>)
    requires VotesInv(nodes, h) && LedgerInv(nodes, h) && n in nodes
    requires node.log == nodes[n].log && node.currentTerm == nodes[n].currentTerm
    requires node.currentTerm !in h.elections
    requires VotedFor(h, n, node.currentTerm, n) && h.ballots[(n, node.currentTerm)].log == node.log && WellFormed(node.log)
    ensures var h' := Elected(h, n, node, voters);
            && HistoryGrows(h, h')
            && Rooted(h'.ledger, node.log)
            && LedgerOk(h', node.currentTerm)
            && forall t | (n, t) in h'.acks :: AckOk(nodes[n := node], h', n, t)
  {
    hide VotesInv, LedgerInv, AckOk, VoteOk, Rooted, LedgerOk;
    var h' := Elected(h, n, node, voters);
    AcksBounded(nodes, h);
    LedgerParts(nodes, h, n, node.currentTerm);
    ElectedGrows(h, n, node, voters);
    BasesKept(nodes, h, h');
    RootedGrows(h.ledger, h'.ledger, node.log);
    ElectedLedgerOk(h, n, node, voters);
    NewAckOk(nodes, h, n, node, h');
  }

  lemma ElectedLedgerOk(h: History, n: NodeId, node: NodeState, voters: set<NodeId>)
    requires WellFormed(node.log) && Rooted(Elected(h, n, node, voters).ledger, node.log)
    requires VotedFor(h, n, node.currentTerm, n) && h.ballots[(n, node.currentTerm)].log == node.log
    ensures LedgerOk(Elected(h, n, node, voters), node.currentTerm)
  {
    assert Base(Elected(h, n, node, voters), node.currentTerm) == node.log;
  }

  lemma ElectedGrows(h: History, n: NodeId, node: NodeState, voters: set<NodeId>)
    requires node.currentTerm !in h.elections && node.currentTerm !in h.ledger && |node.log| > 0
    ensures HistoryGrows(h, Elected(h, n, node, voters))
  {
  }

  ghost function Elected(h: History, n: NodeId, node: NodeState, voters: set<NodeId>): History
    requires |node.log| > 0
  {
    RecordAck(h.(elections := h.elections[node.currentTerm := Election(n, voters)],
                 ledger := h.ledger[node.currentTerm := node.log]),
              n, node.currentTerm, |node.log| - 1)
  }

  /** A leader's own log is its term's ledger, so it acknowledges all of it, while
    * its older acknowledgements stay as they were. */
  lemma NewAckOk(nodes: map<NodeId, NodeState>, h: History, n: NodeId, node: NodeState, h': History)
    requires LedgerInv(nodes, h) && HistoryGrows(h, h') && forall u | u in h.elections :: Base(h', u) == Base(h, u)
    requires n in nodes && nodes[n].currentTerm == node.currentTerm && IsPrefix(nodes[n].log, node.log)
    requires node.currentTerm in h'.ledger && h'.ledger[node.currentTerm] == node.log && |node.log| > 0
    requires (n, node.currentTerm) in h'.acks && h'.acks[(n, node.currentTerm)] == |node.log| - 1
    requires AcksOnlyAt(h, h', n, node.currentTerm)
    ensures forall t | (n, t) in h'.acks :: AckOk(nodes[n := node], h', n, t)
  {
    hide Rooted, LedgerOk, VoteOk, KeepsBallots, LedgerGrows, AcksGrow;
    forall t | (n, t) in h'.acks ensures AckOk(nodes[n := node], h', n, t) {
      if t != node.currentTerm { LongerLogAckOk(nodes, h, n, node, h', t); }
    }
  }

  lemma LongerLogAckOk(nodes: map<NodeId, NodeState>, h: History, n: NodeId, node: NodeState, h': History, t: nat)
    requires (n, t) in h.acks && AckOk(nodes, h, n, t) && (n, t) in h'.acks && h'.acks[(n, t)] == h.acks[(n, t)]
    requires HistoryGrows(h, h') && forall u | u in h.elections :: Base(h', u) == Base(h, u)
    requires n in nodes && nodes[n].currentTerm <= node.currentTerm && IsPrefix(nodes[n].log, node.log)
    ensures AckOk(nodes[n := node], h', n, t)
  {
    forall i: nat | i <= h'.acks[(n, t)] ensures StillHolds(h', node.log, t, i, node.currentTerm) {
      StillHoldsGrows(h, h', nodes[n].log, t, i, nodes[n].currentTerm, node.currentTerm);
    }
  }

  /** A leader appends an entry of its term to its log. */
  lemma AppendLedgerInv(nodes: map<NodeId, NodeState>, h: History, n: NodeId, node: NodeState)
    requires VotesInv(nodes, h) && LedgerInv(nodes, h) && n in nodes
    requires node.currentTerm == nodes[n].currentTerm && node.currentTerm in h.ledger
    requires h.ledger[node.currentTerm] == nodes[n].log
    requires WellFormed(node.log) && |node.log| == |nodes[n].log| + 1 && IsPrefix(nodes[n].log, node.log)
    requires LastTerm(node.log) == node.currentTerm
    ensures LedgerInv(nodes[n := node], Appended(h, n, node))
  {
    hide VotesInv, LedgerInv, AckOk, VoteOk, WellFormed, Rooted, LedgerOk;
    var t := node.currentTerm;
    var h' := Appended(h, n, node);
    AcksBounded(nodes, h);
    LedgerParts(nodes, h, n, t);
    assert HistoryGrows(h, h');
    hide HistoryGrows;
    BasesKept(nodes, h, h') by { assert KeepsBallots(h, h'); }
    AppendRooted(nodes, h, n, node);
    NewAckOk(nodes, h, n, node, h');
    LedgerKept(nodes, h, n, node, h');
  }

  ghost function Appended(h: History, n: NodeId, node: NodeState): History
    requires |node.log| > 0
  {
    RecordAck(h.(ledger := h.ledger[node.currentTerm := node.log]), n, node.currentTerm, |node.log| - 1)
  }

  lemma AppendRooted(nodes: map<NodeId, NodeState>, h: History, n: NodeId, node: NodeState)
    requires VotesInv(nodes, h) && LedgerInv(nodes, h) && n in nodes
    requires node.currentTerm in h.ledger && h.ledger[node.currentTerm] == nodes[n].log
    requires WellFormed(node.log) && |node.log| == |nodes[n].log| + 1 && IsPrefix(nodes[n].log, node.log)
    requires LastTerm(node.log) == node.currentTerm
    ensures Rooted(Appended(h, n, node).ledger, node.log)
    ensures LedgerOk(Appended(h, n, node), node.currentTerm)
  {
    hide VotesInv, LedgerInv, WellFormed;
    var h' := Appended(h, n, node);
    var t := node.currentTerm;
    LedgerParts(nodes, h, n, t);
    BasesKept(nodes, h, h');
    RootedGrows(h.ledger, h'.ledger, nodes[n].log);
    forall i: nat | 1 <= i < |node.log| ensures RootedAt(h'.ledger, node.log, i) {
      if i < |nodes[n].log| { assert RootedAt(h'.ledger, nodes[n].log, i); }
    }
  }

  /** A node of term t accepts a window of its leader's log that ends at k. */
  lemma AcceptLedgerInv(nodes: map<NodeId, NodeState>, h: History, n: NodeId, node: NodeState, k: nat)
    requires VotesInv(nodes, h) && LedgerInv(nodes, h) && n in nodes
    requires node.currentTerm == nodes[n].currentTerm && node.currentTerm in h.ledger
    requires k < |h.ledger[node.currentTerm]|
    requires node.log == if Agree(nodes[n].log, h.ledger[node.currentTerm], k)
                         then nodes[n].log else h.ledger[node.currentTerm][..k + 1]
    ensures LedgerInv(nodes[n := node], RecordAck(h, n, node.currentTerm, k))
  {
    hide VotesInv, LedgerInv, Rooted, LedgerOk, AckOk, VoteOk;
    var t := node.currentTerm;
    var h' := RecordAck(h, n, t, k);
    LedgerParts(nodes, h, n, t);
    assert HistoryGrows(h, h');
    hide HistoryGrows;
    PrefixRooted(h, t, k);
    forall w | (n, w) in h'.acks ensures AckOk(nodes[n := node], h', n, w) {
      AcceptAckOk(nodes, h, n, node, k, w);
    }
    LedgerKept(nodes, h, n, node, h');
  }

  lemma PrefixRooted(h: History, t: nat, k: nat)
    requires t in h.ledger && LedgerOk(h, t) && k < |h.ledger[t]|
    ensures Rooted(h.ledger, h.ledger[t][..k + 1])
  {
    var p := h.ledger[t][..k + 1];
    forall i: nat | 1 <= i < |p| ensures RootedAt(h.ledger, p, i) {
      assert RootedAt(h.ledger, h.ledger[t], i);
    }
  }

  lemma AcceptAckOk(nodes: map<NodeId, NodeState>, h: History, n: NodeId, node: NodeState, k: nat, w: nat)
    requires VotesInv(nodes, h) && LedgerInv(nodes, h) && n in nodes
    requires node.currentTerm == nodes[n].currentTerm && node.currentTerm in h.ledger
    requires k < |h.ledger[node.currentTerm]|
    requires node.log == if Agree(nodes[n].log, h.ledger[node.currentTerm], k)
                         then nodes[n].log else h.ledger[node.currentTerm][..k + 1]
    requires (n, w) in RecordAck(h, n, node.currentTerm, k).acks
    ensures AckOk(nodes[n := node], RecordAck(h, n, node.currentTerm, k), n, w)
  {
    hide VotesInv, LedgerInv, Rooted, StillHolds;
    var t := node.currentTerm;
    var h' := RecordAck(h, n, t, k);
    BasesKept(nodes, h, h');
    AcksBounded(nodes, h);
    LedgerParts(nodes, h, n, t);
    LedgerParts(nodes, h, n, w);
    hide LedgerOk;
    forall i: nat | i <= h'.acks[(n, w)] ensures StillHolds(h', node.log, w, i, t) {
      if Acked(h, n, w, i) {
        assert StillHolds(h, nodes[n].log, w, i, t);
        AcceptHolds(h, nodes[n].log, node.log, t, k, w, i);
        StillHoldsGrows(h, h', node.log, w, i, t, t);
      } else {
        AcceptedHolds(h', node.log, t, i);
      }
    }
  }

  lemma AcceptedHolds(h: History, log: Log, t: nat, i: nat)
    requires t in h.ledger && Agree(h.ledger[t], log, i)
    ensures StillHolds(h, log, t, i, t)
  {
  }

  /** What the node had acknowledged survives acceptance, or the accepting term's
    * leader is the one that lacks it. */
  lemma AcceptHolds(h: History, log: Log, log': Log, t: nat, k: nat, w: nat, i: nat)
    requires t in h.ledger && t in h.elections && LedgerOk(h, t) && k < |h.ledger[t]|
    requires StillHolds(h, log, w, i, t) && w <= t && i < |h.ledger[w]|
    requires log' == if Agree(log, h.ledger[t], k) then log else h.ledger[t][..k + 1]
    ensures StillHolds(h, log', w, i, t)
  {
    if Agree(h.ledger[w], log, i) && log' != log {
      if w < t && !Agree(h.ledger[w], Base(h, t), i) {
        assert Lacks(h, w, i, t);
      } else {
        assert Agree(h.ledger[w], h.ledger[t], i);
        assert Agree(h.ledger[w], log', i);
      }
    }
  }
}
