/** Theorems about every run of the code as written. */
module ElectionSafety {
  import opened RaftLog
  import opened RaftNode
  import opened Quorums
  import opened Cluster
  import opened Actors
  import opened Elections

  lemma InitElectionInv(peersOf: map<NodeId, seq<NodeId>>)
    requires ValidMembership(peersOf)
    ensures ElectionInv(Init(peersOf))
  {
    assert Init(peersOf).nodes.Keys == peersOf.Keys;
    assert |Init(peersOf).nodes| == |Init(peersOf).nodes.Keys| == |peersOf.Keys| == |peersOf|;
    hide Distinct, SeqSet;
  }

  lemma InitLogInv(peersOf: map<NodeId, seq<NodeId>>)
    ensures LogInv(Init(peersOf))
  {
  }

  lemma {:induction false} RunElectionInv(d: Discipline, peersOf: map<NodeId, seq<NodeId>>, r: Run, i: nat)
    requires IsRun(d, peersOf, r) && i < |r.states|
    ensures ElectionInv(r.states[i]) && LogInv(r.states[i])
  {
    hide ElectionInv, LogInv, Step, Enabled, Allowed, ValidMembership;
    if i == 0 {
      InitElectionInv(peersOf);
      InitLogInv(peersOf);
    } else {
      RunElectionInv(d, peersOf, r, i - 1);
      assert IsStep(d, r.states[i - 1], r.events[i - 1], r.states[i]);
      ElectionInvStep(r.states[i - 1], r.events[i - 1]);
      LogInvStep(r.states[i - 1], r.events[i - 1]);
    }
  }

  // ---- History only grows, terms never fall ----

  lemma WinKeepsBallots(s: State, n: NodeId)
    requires LogsNonEmpty(s) && Enabled(s, Win(n)) && ElectionInv(s)
    ensures KeepsBallots(s.h, DoWin(s, n).h)
  {
    hide ElectionInv, LogsNonEmpty, BecomeLeader;
    TermNotYetWon(s, n);
  }

  lemma CastKeepsBallots(h: History, v: NodeId, t: nat, b: Ballot)
    ensures KeepsBallots(h, h) && KeepsBallots(h, CastVote(h, v, t, b))
  {
  }

  lemma VotingKeepsBallots(s: State, e: Event)
    requires LogsNonEmpty(s) && Enabled(s, e) && (e.Campaigning? || e.AnswerVote?)
    ensures KeepsBallots(s.h, Step(s, e).h)
  {
    assert |s.nodes[e.n].log| > 0 by { NodeLog(s, e.n); }
    hide LogsNonEmpty, CastVote, HandleRequestVote, VoteArgs, KeepsBallots;
    match e
    case Campaigning(n) =>
      var node := StartElection(s.nodes[n]);
      CastKeepsBallots(s.h, n, node.currentTerm, Ballot(n, node.log));
    case AnswerVote(n, m) =>
      var node := HandleRequestVote(s.nodes[n], m.vargs).0;
      CastKeepsBallots(s.h, n, m.vargs.term, Ballot(m.vargs.candidateId, node.log));
  }

  lemma AckingKeepsBallots(s: State, e: Event)
    requires LogsNonEmpty(s) && Enabled(s, e) && (e.ClientAppend? || e.HandleAppend?)
    ensures KeepsBallots(s.h, Step(s, e).h)
  {
    hide LogsNonEmpty, HandleAppendEntries, AppendCommand, NewEntry;
  }

  lemma StepKeepsBallots(s: State, e: Event)
    requires LogsNonEmpty(s) && Enabled(s, e) && ElectionInv(s)
    ensures KeepsBallots(s.h, Step(s, e).h)
  {
    if e.Win? {
      hide ElectionInv, LogsNonEmpty, KeepsBallots;
      WinKeepsBallots(s, e.n);
    } else {
      hide ElectionInv, LogsNonEmpty, Enabled, Step;
      if e.Campaigning? || e.AnswerVote? {
        VotingKeepsBallots(s, e);
      } else if e.ClientAppend? || e.HandleAppend? {
        AckingKeepsBallots(s, e);
      } else {
        HistoryKept(s, e);
      }
    }
  }

  lemma {:induction false} RunKeepsBallots(d: Discipline, peersOf: map<NodeId, seq<NodeId>>, r: Run, i: nat, j: nat)
    requires IsRun(d, peersOf, r) && i <= j < |r.states|
    ensures KeepsBallots(r.states[i].h, r.states[j].h)
    decreases j
  {
    hide ElectionInv, LogInv, Step, Enabled, Allowed, ValidMembership;
    if i < j {
      RunKeepsBallots(d, peersOf, r, i, j - 1);
      RunElectionInv(d, peersOf, r, j - 1);
      assert IsStep(d, r.states[j - 1], r.events[j - 1], r.states[j]);
      StepKeepsBallots(r.states[j - 1], r.events[j - 1]);
    }
  }

  ghost predicate TermsRise(s: State, s': State) {
    && s'.nodes.Keys == s.nodes.Keys
    && forall v | v in s.nodes :: s.nodes[v].currentTerm <= s'.nodes[v].currentTerm
  }

  lemma StepTermsRise(s: State, e: Event)
    requires LogsNonEmpty(s) && Enabled(s, e)
    ensures TermsRise(s, Step(s, e))
  {
    hide LogsNonEmpty, Enabled, Step;
    StepKeys(s, e);
    forall v | v in s.nodes ensures s.nodes[v].currentTerm <= Step(s, e).nodes[v].currentTerm {
      StepEffects(s, e, v);
    }
  }

  lemma {:induction false} RunTermsRise(d: Discipline, peersOf: map<NodeId, seq<NodeId>>, r: Run, i: nat, j: nat)
    requires IsRun(d, peersOf, r) && i <= j < |r.states|
    ensures TermsRise(r.states[i], r.states[j])
    decreases j
  {
    hide Step, Enabled, Allowed, ValidMembership;
    if i < j {
      RunTermsRise(d, peersOf, r, i, j - 1);
      assert IsStep(d, r.states[j - 1], r.events[j - 1], r.states[j]);
      StepTermsRise(r.states[j - 1], r.events[j - 1]);
    }
  }

  // ---- The theorems ----

  lemma FirstMembers(d: Discipline, peersOf: map<NodeId, seq<NodeId>>, r: Run)
    requires IsRun(d, peersOf, r)
    ensures |r.states| > 0 && r.states[0].nodes.Keys == peersOf.Keys
  {
    hide ValidMembership, IsStep;
  }

  /** A node's term never falls, and within a term its vote never changes. */
  lemma OneVotePerTerm(d: Discipline, peersOf: map<NodeId, seq<NodeId>>, r: Run, i: nat, j: nat, v: NodeId)
    requires IsRun(d, peersOf, r) && i <= j < |r.states| && v in peersOf
    ensures v in r.states[i].nodes && v in r.states[j].nodes
    ensures var n, n' := r.states[i].nodes[v], r.states[j].nodes[v];
            && n.currentTerm <= n'.currentTerm
            && (n.currentTerm == n'.currentTerm && n.votedFor != "" ==> n'.votedFor == n.votedFor)
  {
    hide IsRun, ElectionInv, LogInv;
    FirstMembers(d, peersOf, r);
    RunTermsRise(d, peersOf, r, 0, i);
    RunTermsRise(d, peersOf, r, i, j);
    RunKeepsBallots(d, peersOf, r, i, j);
    RunElectionInv(d, peersOf, r, i);
    RunElectionInv(d, peersOf, r, j);
    VoteOnRecord(r.states[i], v);
    VoteOnRecord(r.states[j], v);
  }

  /** At most one node ever leads a given term, in the whole run. */
  lemma ElectionSafety(d: Discipline, peersOf: map<NodeId, seq<NodeId>>, r: Run, i: nat, j: nat, a: NodeId, b: NodeId)
    requires IsRun(d, peersOf, r) && i < |r.states| && j < |r.states|
    requires a in r.states[i].nodes && r.states[i].nodes[a].role == Leader
    requires b in r.states[j].nodes && r.states[j].nodes[b].role == Leader
    requires r.states[i].nodes[a].currentTerm == r.states[j].nodes[b].currentTerm
    ensures a == b
  {
    RunElectionInv(d, peersOf, r, i);
    RunElectionInv(d, peersOf, r, j);
    if i <= j { RunKeepsBallots(d, peersOf, r, i, j); } else { RunKeepsBallots(d, peersOf, r, j, i); }
    assert LeaderElected(r.states[i], a) && LeaderElected(r.states[j], b);
  }

  /** In every state every log holds index i at position i, with terms that never
    * fall and stay within the node's term, and no next index is zero. */
  lemma GapFreeLogs(d: Discipline, peersOf: map<NodeId, seq<NodeId>>, r: Run, i: nat, v: NodeId)
    requires IsRun(d, peersOf, r) && i < |r.states| && v in r.states[i].nodes
    ensures var n := r.states[i].nodes[v];
            && WellFormed(n.log)
            && LastTerm(n.log) <= n.currentTerm
            && (n.role == Leader ==> forall p | p in n.peers :: p in n.nextIndex && 1 <= n.nextIndex[p])
  {
    RunElectionInv(d, peersOf, r, i);
    hide ElectionInv;
    assert GapFree(r.states[i].nodes[v]);
  }
}
