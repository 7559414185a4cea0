/** Theorems about every run that keeps all four disciplines. */
module StateMachineSafety {
  import opened RaftLog
  import opened RaftNode
  import opened Cluster
  import opened Elections
  import opened ElectionSafety
  import opened Ledger
  import opened Replication
  import opened ReplicationSafety
  import opened Credits
  import opened Commits

  lemma InitCommitInv(peersOf: map<NodeId, seq<NodeId>>)
    requires ValidMembership(peersOf)
    ensures CommitInv(Init(peersOf))
  {
  }

  lemma {:induction false} RunCommitInv(peersOf: map<NodeId, seq<NodeId>>, r: Run, i: nat)
    requires IsRun(FULL, peersOf, r) && i < |r.states|
    ensures CommitInv(r.states[i])
  {
    hide ElectionInv, LogInv, ReplicationInv, MatchInv, CommitInv, Step, Enabled, ValidMembership, Allowed;
    if i == 0 {
      InitCommitInv(peersOf);
    } else {
      RunCommitInv(peersOf, r, i - 1);
      RunMatchInv(FULL, peersOf, r, i - 1);
      RunReplicationInv(FULL, peersOf, r, i - 1);
      RunElectionInv(FULL, peersOf, r, i - 1);
      assert IsStep(FULL, r.states[i - 1], r.events[i - 1], r.states[i]);
      CommitInvStep(r.states[i - 1], r.states[i], r.events[i - 1]);
    }
  }

  /** Two committed prefixes are consistent: one ledger contains the other's. */
  lemma CommittedComparable(s: State, t: nat, i: nat, u: nat, j: nat, k: nat)
    requires ElectionInv(s) && ReplicationInv(s)
    requires Committed(s.nodes.Keys, s.h, t, i) && Committed(s.nodes.Keys, s.h, u, j) && k <= i && k <= j
    ensures s.h.ledger[t][k] == s.h.ledger[u][k]
  {
    hide ElectionInv, ReplicationInv;
    if t <= u {
      LaterLedgerHolds(s, t, i, u);
    } else {
      LaterLedgerHolds(s, u, j, t);
    }
  }

  /** What node v has collected up to state i is a committed prefix in every later
    * state j. */
  lemma CollectedIsCommitted(peersOf: map<NodeId, seq<NodeId>>, r: Run, i: nat, j: nat, v: NodeId, x: nat) returns (t: nat, k: nat)
    requires IsRun(FULL, peersOf, r) && i <= j < |r.states| && v in r.states[i].nodes
    requires v in r.states[i].collected && x < |r.states[i].collected[v]|
    ensures Committed(r.states[j].nodes.Keys, r.states[j].h, t, k) && x + 1 <= k
    ensures r.states[i].collected[v][x] == r.states[j].h.ledger[t][x + 1]
  {
    RunCommitInv(peersOf, r, i);
    RunHistoryGrows(FULL, peersOf, r, i, j);
    RunTermsRise(FULL, peersOf, r, i, j);
    hide IsRun, CommitInv, HistoryGrows, Committed;
    var s := r.states[i];
    NodeCommitParts(s, v);
    t, k :| SafeBy(s.nodes.Keys, s.h, s.nodes[v].log, s.nodes[v].commitIndex, s.nodes[v].currentTerm, t, k);
    CommittedGrows(s.nodes.Keys, s.h, r.states[j].h, t, k);
  }

  /** State Machine Safety: no two nodes ever collect different entries for apply at
    * the same index, at whatever moments of the run. */
  lemma StateMachineSafety(peersOf: map<NodeId, seq<NodeId>>, r: Run, i: nat, j: nat, a: NodeId, b: NodeId, x: nat)
    requires IsRun(FULL, peersOf, r) && i < |r.states| && j < |r.states|
    requires a in r.states[i].nodes && a in r.states[i].collected && x < |r.states[i].collected[a]|
    requires b in r.states[j].nodes && b in r.states[j].collected && x < |r.states[j].collected[b]|
    ensures r.states[i].collected[a][x] == r.states[j].collected[b][x]
  {
    hide ElectionInv, LogInv, ReplicationInv, IsRun, Committed;
    var k := if i <= j then j else i;
    var t, p := CollectedIsCommitted(peersOf, r, i, k, a, x);
    var u, q := CollectedIsCommitted(peersOf, r, j, k, b, x);
    RunReplicationInv(FULL, peersOf, r, k);
    RunElectionInv(FULL, peersOf, r, k);
    CommittedComparable(r.states[k], t, p, u, q, x + 1);
  }

  /** Exactly-once collection: the batches a node takes cover the indices
    * 1..lastApplied once each, in order, and never pass its log's committed part. */
  lemma ExactlyOnceCollection(peersOf: map<NodeId, seq<NodeId>>, r: Run, i: nat, v: NodeId)
    requires IsRun(FULL, peersOf, r) && i < |r.states| && v in r.states[i].nodes
    ensures v in r.states[i].collected
    ensures var n, collected := r.states[i].nodes[v], r.states[i].collected[v];
            && |collected| == n.lastApplied <= n.commitIndex < |n.log|
            && forall k | 0 <= k < |collected| :: collected[k].index == k + 1 && collected[k] == n.log[k + 1]
  {
    RunCommitInv(peersOf, r, i);
    RunElectionInv(FULL, peersOf, r, i);
    hide IsRun, ElectionInv;
    assert GapFree(r.states[i].nodes[v]) && NodeCommitOk(r.states[i], v);
  }

  /** Whatever a node has committed, the leader of every later term holds, at
    * whatever moment of the run. */
  lemma CommittedEntriesSurvive(peersOf: map<NodeId, seq<NodeId>>, r: Run, i: nat, v: NodeId, j: nat, b: NodeId)
    requires IsRun(FULL, peersOf, r) && i < |r.states| && j < |r.states|
    requires v in r.states[i].nodes && 1 <= r.states[i].nodes[v].commitIndex
    requires b in r.states[j].nodes && r.states[j].nodes[b].role == Leader
    requires r.states[j].nodes[b].currentTerm > r.states[i].nodes[v].currentTerm
    ensures Agree(r.states[i].nodes[v].log, r.states[j].nodes[b].log, r.states[i].nodes[v].commitIndex)
  {
    hide CommitInv, IsRun, CollectedOk, Committed;
    var s, n := r.states[i], r.states[i].nodes[v];
    RunCommitInv(peersOf, r, i);
    NodeCommitParts(s, v);
    var t, k :| SafeBy(s.nodes.Keys, s.h, n.log, n.commitIndex, n.currentTerm, t, k);
    CommittedSurvives(FULL, peersOf, r, i, t, k, j, b);
  }
}
