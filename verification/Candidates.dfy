/** The vote loop of loopCandidate as events of the cluster. Other critical sections may
  * run between two turns, so every turn is taken in whatever state the cluster is in. */
module Candidates {
  import opened RaftLog
  import opened RaftNode
  import opened RaftNodeImpl
  import opened Cluster

  /** n's loop of `term`, with `votes` counted, is the campaign on record. */
  ghost predicate Runs(s: State, n: NodeId, term: nat, votes: nat) {
    n in s.nodes && n in s.campaigns && s.campaigns[n].term == term && |s.campaigns[n].voters| == votes
  }

  /** What the answer `m` is to the loop. */
  ghost function Result(m: Message): VoteEvent
    requires m.VoteResponse?
  {
    VoteResult(m.vreply.voteGranted, m.vreply.term)
  }

  /** A turn that reads an answer not counted before is the event CountVote: it leaves
    * the node as the turn does, and the loop goes on with the votes on record. If the
    * turn reaches a majority, Win is enabled. */
  lemma AnswerTurnIsCountVote(s: State, m: Message, term: nat, votes: nat)
    requires m in s.net && m.VoteResponse? && m.vargs.term == term
    requires Runs(s, m.vargs.candidateId, term, votes) && |s.nodes[m.vargs.candidateId].log| > 0
    requires m.voter !in s.campaigns[m.vargs.candidateId].voters
    ensures Enabled(s, CountVote(m))
    ensures var n := m.vargs.candidateId;
            var s' := DoCountVote(s, m);
            var (node, votes', done) := Turn(s.nodes[n], term, votes, Result(m));
            && s'.nodes.Keys == s.nodes.Keys
            && (!done ==> Runs(s', n, term, votes') && s'.nodes[n] == node)
            && (done && m.vreply.term > term ==> n !in s'.campaigns && s'.nodes[n] == node)
            && (done && m.vreply.term <= term ==> Runs(s', n, term, votes') && s'.nodes == s.nodes && Enabled(s', Win(n)))
  {
    var c := s.campaigns[m.vargs.candidateId];
    assert |c.voters + {m.voter}| == |c.voters| + 1;
    assert DoCountVote(s, m).nodes.Keys == s.nodes.Keys;
  }

  /** Once its loop has a majority, n calls becomeLeader, in whatever state s that finds
    * the node in: that is the event Win, and if nothing came in between it leaves the
    * node as the turn does. */
  lemma MajorityTurnIsWin(s: State, n: NodeId, term: nat, votes: nat)
    requires LogsNonEmpty(s) && Runs(s, n, term, votes) && votes >= Majority(s.nodes[n].peers) && votes > 0
    ensures Enabled(s, Win(n)) && n in DoWin(s, n).nodes && n !in DoWin(s, n).campaigns
    ensures DoWin(s, n).nodes[n] == BecomeLeader(s.nodes[n], term)
    ensures DoWin(s, n).nodes[n] == Turn(s.nodes[n], term, votes - 1, VoteResult(true, term)).0
  {
  }

  /** A turn that reads the step-down channel is the event StepDown. */
  lemma StepDownTurnIsStepDown(s: State, n: NodeId, term: nat, votes: nat)
    requires Runs(s, n, term, votes) && s.nodes[n].stepDowns != [] && |s.nodes[n].log| > 0
    ensures Enabled(s, StepDown(n)) && n in DoStepDown(s, n).nodes && n !in DoStepDown(s, n).campaigns
    ensures var read := s.nodes[n].(stepDowns := s.nodes[n].stepDowns[1..]);
            (DoStepDown(s, n).nodes[n], votes, true) == Turn(read, term, votes, SteppedDown(s.nodes[n].stepDowns[0]))
  {
  }

  /** Conversely, every CountVote and Win of a run happens to a loop that reads such an
    * answer or has such a majority. */
  lemma EventsAreTurns(s: State, e: Event)
    requires Enabled(s, e) && LogsNonEmpty(s)
    ensures e.CountVote? ==>
              Runs(s, e.m.vargs.candidateId, e.m.vargs.term, |s.campaigns[e.m.vargs.candidateId].voters|)
    ensures e.Win? ==>
              var votes := |s.campaigns[e.n].voters|;
              && Runs(s, e.n, s.campaigns[e.n].term, votes) && votes > 0
              && Step(s, e).nodes[e.n] == Turn(s.nodes[e.n], s.campaigns[e.n].term, votes - 1, VoteResult(true, 0)).0
  {
  }
}
