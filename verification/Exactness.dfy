/** When, exactly, one call of the code keeps what the proofs rely on: each
  * discipline of a run is the guard the code lacks. */
module Exactness {
  import opened RaftLog
  import opened RaftNode
  import opened Quorums
  import opened CommitRule
  import opened Cluster
  import opened Elections
  import opened Ledger
  import opened Replication
  import opened Credits

  // ---- Building a heartbeat ----

  /** What the proofs know of the leaders' logs when they look at node n alone. */
  ghost predicate Fits(h: History, n: NodeState) {
    && Rooted(h.ledger, n.log)
    && (forall t | t in h.ledger :: WellFormed(h.ledger[t]))
    && (n.role == Leader ==> n.currentTerm in h.ledger && h.ledger[n.currentTerm] == n.log)
  }

  /** The heartbeat sends nothing that the leader of its term does not hold. */
  ghost predicate SpeaksForLeader(h: History, n: NodeState, p: NodeId)
    requires |n.log| > 0
  {
    RequestOk(h, BuildHeartbeat(n, p))
  }

  /** The leaders' logs in which the leader of n's term lacks n's last entry. */
  ghost function WithoutLast(n: NodeState): History
    requires |n.log| > 0
  {
    History(map[], map[],
            (map i | 0 <= i < |n.log| :: n.log[i].term := n.log)[n.currentTerm := n.log[..|n.log| - 1]],
            map[])
  }

  lemma WithoutLastFits(n: NodeState)
    requires WellFormed(n.log) && |n.log| > 1 && n.role != Leader && LastTerm(n.log) != n.currentTerm
    ensures Fits(WithoutLast(n), n)
  {
    hide WellFormed;
    PrefixWellFormed(n.log, |n.log| - 1);
    var h := WithoutLast(n);
    forall i: nat | 1 <= i < |n.log| ensures RootedAt(h.ledger, n.log, i) {
      assert i == |n.log| - 1 ==> n.log[i].term != n.currentTerm;
    }
  }

  lemma StaleHeartbeat(n: NodeState, p: NodeId)
    requires GapFree(n) && p in n.nextIndex && n.nextIndex[p] < |n.log|
    requires n.role != Leader && LastTerm(n.log) != n.currentTerm
    ensures Fits(WithoutLast(n), n) && !SpeaksForLeader(WithoutLast(n), n, p)
  {
    HeartbeatShape(n, p);
    WithoutLastFits(n);
    assert n.nextIndex[p] > 1 ==> n.log[n.nextIndex[p] - 1].term >= 1;
    hide BuildHeartbeat, Fits, WellFormed;
  }

  lemma OwnTermHeartbeat(h: History, n: NodeState, p: NodeId)
    requires GapFree(n) && p in n.nextIndex && n.nextIndex[p] < |n.log|
    requires Fits(h, n) && (n.role == Leader || LastTerm(n.log) == n.currentTerm)
    ensures SpeaksForLeader(h, n, p)
  {
    hide BuildHeartbeat, WellFormed, Rooted, RequestOk;
    assert HoldsPrefix(h.ledger, n) by {
      if n.role != Leader { OwnTermPrefix(h.ledger, n.log); }
    }
    HeartbeatWindow(h, n, p);
  }

  /** A heartbeat is safe to send, whatever the leaders' logs are, if and only if its
    * sender still leads, or its last entry is of its present term, or the peer has
    * caught up. The code checks none of these. */
  lemma HeartbeatSafeIff(n: NodeState, p: NodeId)
    requires GapFree(n) && p in n.nextIndex
    ensures (forall h | Fits(h, n) :: SpeaksForLeader(h, n, p)) <==>
            (n.role == Leader || LastTerm(n.log) == n.currentTerm || n.nextIndex[p] > LastIndex(n.log))
  {
    if n.nextIndex[p] >= |n.log| {
      assert forall h | Fits(h, n) :: SpeaksForLeader(h, n, p);
    } else if n.role == Leader || LastTerm(n.log) == n.currentTerm {
      forall h | Fits(h, n) ensures SpeaksForLeader(h, n, p) {
        OwnTermHeartbeat(h, n, p);
      }
    } else {
      StaleHeartbeat(n, p);
    }
  }

  // ---- Learning a commit index ----

  /** A request without entries, which the follower's log comparison lets through. */
  ghost function Empty(t: nat, commit: nat): AppendEntriesArgs {
    AppendEntriesArgs(t, "", 0, 0, [], commit)
  }

  /** What node f can know of the log of the leader of t, which has committed up to
    * `commit`: f's own log is rooted, and what f has committed is there. */
  ghost predicate MayCommit(h: History, f: NodeState, t: nat, commit: nat) {
    && Rooted(h.ledger, f.log) && t in h.ledger
    && WellFormed(h.ledger[t]) && LastTerm(h.ledger[t]) <= t && commit < |h.ledger[t]|
    && Agree(f.log, h.ledger[t], f.commitIndex)
  }

  /** If an empty request moves f's commit index, f holds what the leader holds up to
    * there. */
  ghost predicate LearnsSoundly(h: History, f: NodeState, t: nat, commit: nat)
    requires |f.log| > 0 && t in h.ledger
  {
    var f' := HandleAppendEntries(f, Empty(t, commit)).0;
    f'.commitIndex == f.commitIndex || Agree(f'.log, h.ledger[t], f'.commitIndex)
  }

  lemma EmptyRequestMoves(f: NodeState, t: nat, commit: nat)
    requires WellFormed(f.log) && f.currentTerm <= t
    ensures var f' := HandleAppendEntries(f, Empty(t, commit)).0;
            f'.log == f.log && f'.commitIndex == if commit > f.commitIndex then Min(commit, |f.log| - 1) else f.commitIndex
  {
    assert Merge(f.log, []) == f.log;
  }

  /** The leader's log parts from f's just after its first k entries. */
  ghost function Parted(f: NodeState, k: nat, t: nat, commit: nat): Log
    requires k <= |f.log| && k <= commit
  {
    f.log[..k] + seq(commit + 1 - k, i requires 0 <= i => LogEntry(t, k + i, ""))
  }

  lemma PartedWellFormed(f: NodeState, k: nat, t: nat, commit: nat)
    requires WellFormed(f.log) && 1 <= k <= |f.log| && k <= commit && LastTerm(f.log) < t
    ensures WellFormed(Parted(f, k, t, commit)) && LastTerm(Parted(f, k, t, commit)) == t
    ensures Agree(f.log, Parted(f, k, t, commit), k - 1)
  {
    var added := seq(commit + 1 - k, i requires 0 <= i => LogEntry(t, k + i, ""));
    PrefixWellFormed(f.log, k);
    assert f.log[k - 1].term <= LastTerm(f.log);
    hide WellFormed;
    JoinWellFormed(f.log[..k], added);
  }

  /** The leaders' logs in which the leader of t parted from f just before f's new
    * commit index. */
  ghost function WithParted(f: NodeState, t: nat, commit: nat): History
    requires |f.log| > 0
  {
    History(map[], map[],
            (map i | 0 <= i < |f.log| :: f.log[i].term := f.log)[t := Parted(f, Min(commit, |f.log| - 1), t, commit)],
            map[])
  }

  lemma WithPartedRooted(f: NodeState, t: nat, commit: nat)
    requires WellFormed(f.log) && LastTerm(f.log) < t
    ensures Rooted(WithParted(f, t, commit).ledger, f.log)
  {
    assert forall i | 0 <= i < |f.log| :: f.log[i].term < t;
    hide WellFormed, Parted;
    var ledger := WithParted(f, t, commit).ledger;
    forall i: nat | 1 <= i < |f.log| ensures RootedAt(ledger, f.log, i) {
      assert ledger[f.log[i].term] == f.log;
    }
  }

  lemma StrayedLearnsWrongly(f: NodeState, t: nat, commit: nat) returns (h: History)
    requires WellFormed(f.log) && f.currentTerm <= t && LastTerm(f.log) < t
    requires f.commitIndex < commit && f.commitIndex < |f.log| - 1
    ensures MayCommit(h, f, t, commit) && !LearnsSoundly(h, f, t, commit)
  {
    var k := Min(commit, |f.log| - 1);
    h := WithParted(f, t, commit);
    EmptyRequestMoves(f, t, commit);
    PartedWellFormed(f, k, t, commit);
    WithPartedRooted(f, t, commit);
    assert f.log[k].term < Parted(f, k, t, commit)[k].term;
    hide HandleAppendEntries, WellFormed, Rooted;
  }

  lemma OwnTermLearnsSoundly(h: History, f: NodeState, t: nat, commit: nat)
    requires WellFormed(f.log) && f.currentTerm <= t && LastTerm(f.log) == t && MayCommit(h, f, t, commit)
    ensures LearnsSoundly(h, f, t, commit)
  {
    EmptyRequestMoves(f, t, commit);
    assert Agree(f.log, h.ledger[t], |f.log| - 1) by {
      if |f.log| > 1 { assert RootedAt(h.ledger, f.log, |f.log| - 1); }
    }
    hide HandleAppendEntries, Rooted, WellFormed;
  }

  /** An empty request moves a node's commit index soundly, whatever the leader's log
    * is, if and only if the node's last entry is of the request's term, or its commit
    * index does not move. The code moves it in any case. */
  lemma CommitLearntSoundlyIff(f: NodeState, t: nat, commit: nat)
    requires GapFree(f) && f.commitIndex < |f.log| && f.currentTerm <= t
    ensures (forall h | MayCommit(h, f, t, commit) :: LearnsSoundly(h, f, t, commit)) <==>
            (LastTerm(f.log) == t || commit <= f.commitIndex || f.commitIndex == LastIndex(f.log))
  {
    EmptyRequestMoves(f, t, commit);
    if commit <= f.commitIndex || f.commitIndex == |f.log| - 1 {
      hide HandleAppendEntries;
      assert forall h | MayCommit(h, f, t, commit) :: LearnsSoundly(h, f, t, commit);
    } else {
      hide LearnsSoundly, MayCommit;
      if LastTerm(f.log) == t {
        forall h | MayCommit(h, f, t, commit) ensures t in h.ledger && LearnsSoundly(h, f, t, commit) {
          assert t in h.ledger by { LeaderKnown(h, f, t, commit); }
          OwnTermLearnsSoundly(h, f, t, commit);
        }
      } else {
        var h := StrayedLearnsWrongly(f, t, commit);
      }
    }
  }

  lemma LeaderKnown(h: History, f: NodeState, t: nat, commit: nat)
    requires MayCommit(h, f, t, commit)
    ensures t in h.ledger
  {
  }

  // ---- Crediting a success ----

  /** What the proofs know of the acknowledgements when they look at node n alone: a
    * leader's match indices, and its own log, are acknowledged in its term. */
  ghost predicate Knows(h: History, n: NodeState) {
    n.role == Leader ==>
      MatchOk(h, n) && |n.log| > 0 && Acked(h, n.id, n.currentTerm, |n.log| - 1)
  }

  /** A majority, which may include n itself, acknowledged i in n's present term. */
  ghost predicate MajorityAcked(h: History, n: NodeState, i: nat, q: set<NodeId>) {
    && q <= SeqSet(n.peers) + {n.id} && |q| >= Majority(n.peers)
    && forall v | v in q :: Acked(h, v, n.currentTerm, i)
  }

  ghost predicate CommitBacked(h: History, n: NodeState, n': NodeState) {
    n'.commitIndex == n.commitIndex || exists q :: MajorityAcked(h, n, n'.commitIndex, q)
  }

  /** Whatever else was acknowledged, handling the success of p for a request of term t
    * leaves match indices acknowledged in the node's term, and a new commit index
    * acknowledged by a majority in it. */
  ghost predicate CreditsSoundly(n: NodeState, n': NodeState, p: NodeId, t: nat, index: nat) {
    forall h | Knows(h, n) && Acked(h, p, t, index) :: Knows(h, n') && CommitBacked(h, n, n')
  }

  /** No acknowledgements but those a leader knows of, and the one that arrives. */
  ghost function JustThese(n: NodeState, p: NodeId, t: nat, index: nat): History
    requires |n.log| > 0
  {
    var known := if n.role != Leader then map[]
                 else (map q | q in n.peers :: (q, n.currentTerm) := Lookup(n.matchIndex, q))
                      [(n.id, n.currentTerm) := |n.log| - 1];
    History(map[], map[], map[], known[(p, t) := index])
  }

  /** A node as the cluster has them. */
  ghost predicate IsMember(n: NodeState) {
    |n.log| > 0 && GapFree(n) && Distinct(n.peers) && n.peers != [] && n.id !in n.peers
  }

  lemma LateCreditIsUnsound(n: NodeState, n': NodeState, p: NodeId, t: nat, index: nat)
    requires IsMember(n) && n.role == Leader && n.currentTerm != t && p in n.peers && index > Lookup(n.matchIndex, p)
    requires n'.role == Leader && n'.currentTerm == n.currentTerm && n'.peers == n.peers
    requires n'.matchIndex == n.matchIndex[p := index]
    ensures !CreditsSoundly(n, n', p, t, index)
  {
    hide GapFree;
    var h := JustThese(n, p, t, index);
    assert Knows(h, n) && Acked(h, p, t, index);
    assert !Acked(h, p, n.currentTerm, index);
    assert Lookup(n'.matchIndex, p) == index;
  }

  /** A success of Replicate for a request of term t is credited soundly if and only if
    * the node does not lead another term, or the credit would change nothing. The code
    * credits it whatever the term. */
  lemma ReplicateCreditSoundIff(n: NodeState, p: NodeId, t: nat, index: nat)
    requires IsMember(n)
    ensures CreditsSoundly(n, RecordReplicated(n, p, index), p, t, index) <==>
            (n.role != Leader || p !in n.peers || MayCredit(n, p, t, index))
  {
    hide GapFree;
    if n.role == Leader && p in n.peers && !MayCredit(n, p, t, index) {
      LateCreditIsUnsound(n, RecordReplicated(n, p, index), p, t, index);
    } else {
      assert CreditsSoundly(n, RecordReplicated(n, p, index), p, t, index);
    }
  }

  lemma LeadersCommitBacked(h: History, n: NodeState)
    requires IsMember(n) && n.role == Leader && Knows(h, n)
    ensures Knows(h, AdvanceCommit(n)) && CommitBacked(h, n, AdvanceCommit(n))
  {
    hide AdvanceFrom, Replicated;
    var i := AdvanceCommit(n).commitIndex;
    AdvanceFromLargest(n, n.commitIndex + 1, LastIndex(n.log), n.commitIndex);
    if i != n.commitIndex {
      LastEntry(n.log);
      hide GapFree;
      CountedAcked(h, n, i);
    }
  }

  lemma CountedAcked(h: History, n: NodeState, i: nat)
    requires |n.log| > 0 && Distinct(n.peers) && n.id !in n.peers && n.role == Leader && Knows(h, n)
    requires Replicated(n, i) && 1 <= i <= |n.log| - 1
    ensures exists q :: MajorityAcked(h, n, i, q)
  {
    hide EntryAt;
    var q := Matching(n.peers, n.matchIndex, i) + {n.id};
    CountIsSize(n.peers, n.matchIndex, i);
    assert |q| == |Matching(n.peers, n.matchIndex, i)| + 1;
    assert MajorityAcked(h, n, i, q);
  }

  lemma LeadersCreditSound(n: NodeState, p: NodeId, t: nat, index: nat)
    requires IsMember(n) && n.role == Leader && (p !in n.peers || MayCredit(n, p, t, index))
    ensures CreditsSoundly(n, AdvanceCommit(RecordHeartbeat(n, p, index)), p, t, index)
  {
    hide AdvanceCommit, GapFree;
    var n1 := RecordHeartbeat(n, p, index);
    assert IsMember(n1) by { CreditedMember(n, p, index); }
    forall h | Knows(h, n) && Acked(h, p, t, index) ensures Knows(h, AdvanceCommit(n1)) && CommitBacked(h, n, AdvanceCommit(n1)) {
      LeadersCommitBacked(h, n1);
      if AdvanceCommit(n1).commitIndex != n.commitIndex {
        var q :| MajorityAcked(h, n1, AdvanceCommit(n1).commitIndex, q);
        assert MajorityAcked(h, n, AdvanceCommit(n1).commitIndex, q);
      }
    }
  }

  lemma CreditedMember(n: NodeState, p: NodeId, index: nat)
    requires IsMember(n)
    ensures IsMember(RecordHeartbeat(n, p, index))
  {
    hide WellFormed;
  }

  /** A node that does not lead commits on credits of which it knows nothing. */
  lemma DeposedCommitIsUnsound(n: NodeState, n': NodeState, p: NodeId, t: nat, index: nat)
    requires IsMember(n) && n.role != Leader && n'.commitIndex != n.commitIndex
    ensures !CreditsSoundly(n, n', p, t, index)
  {
    hide GapFree;
    var h := JustThese(n, p, t, index);
    assert Knows(h, n) && Acked(h, p, t, index);
    forall q ensures !MajorityAcked(h, n, n'.commitIndex, q) {
      if forall v | v in q :: Acked(h, v, n.currentTerm, n'.commitIndex) {
        assert q <= {p};
        SubsetSize(q, {p});
      }
    }
  }

  /** A success of a heartbeat is handled soundly, with all that advanceCommitIndex makes
    * of it, if and only if the node leads and may credit it, or does not lead and is
    * left with nothing to commit. The code asks for neither. */
  lemma HeartbeatCreditSoundIff(n: NodeState, p: NodeId, t: nat, index: nat)
    requires IsMember(n)
    ensures CreditsSoundly(n, AdvanceCommit(RecordHeartbeat(n, p, index)), p, t, index) <==>
            if n.role == Leader then p !in n.peers || MayCredit(n, p, t, index)
            else NothingToCommit(RecordHeartbeat(n, p, index))
  {
    hide CreditsSoundly, NothingToCommit, AdvanceFrom, WellFormed;
    var n1 := RecordHeartbeat(n, p, index);
    CommitStaysIff(n1);
    if n.role == Leader {
      if p in n.peers && !MayCredit(n, p, t, index) {
        LateCreditIsUnsound(n, AdvanceCommit(n1), p, t, index);
      } else {
        LeadersCreditSound(n, p, t, index);
      }
    } else if NothingToCommit(n1) {
      QuietCreditSound(n, AdvanceCommit(n1), p, t, index);
    } else {
      DeposedCommitIsUnsound(n, AdvanceCommit(n1), p, t, index);
    }
  }

  lemma QuietCreditSound(n: NodeState, n': NodeState, p: NodeId, t: nat, index: nat)
    requires n.role != Leader && n'.role == n.role && n'.commitIndex == n.commitIndex
    ensures CreditsSoundly(n, n', p, t, index)
  {
  }
}
