/** The commit loop of advanceCommitIndex as an order statistic. */
module CommitRule {
  import opened RaftLog
  import opened RaftNode

  // ---- Sorting the match indices ----

  function Insert(x: nat, sorted: seq<nat>): seq<nat> {
    if sorted == [] || x >= sorted[0] then [x] + sorted else [sorted[0]] + Insert(x, sorted[1..])
  }

  function SortDown(s: seq<nat>): seq<nat> {
    if s == [] then [] else Insert(s[0], SortDown(s[1..]))
  }

  ghost predicate IsDown(s: seq<nat>) {
    forall i, j | 0 <= i <= j < |s| :: s[i] >= s[j]
  }

  function CountReached(s: seq<nat>, x: nat): nat {
    if s == [] then 0 else (if s[0] >= x then 1 else 0) + CountReached(s[1..], x)
  }

  lemma {:induction false} InsertAdds(x: nat, s: seq<nat>)
    ensures multiset(Insert(x, s)) == multiset(s) + multiset{x}
  {
    if s != [] {
      assert s == [s[0]] + s[1..];
      if x < s[0] {
        InsertAdds(x, s[1..]);
      }
    }
  }

  lemma {:induction false} InsertSorts(x: nat, s: seq<nat>)
    requires IsDown(s)
    ensures IsDown(Insert(x, s))
  {
    if s != [] && x < s[0] {
      var rest := Insert(x, s[1..]);
      InsertSorts(x, s[1..]);
      InsertAdds(x, s[1..]);
      hide Insert;
      forall k | 0 <= k < |rest| ensures s[0] >= rest[k] {
        assert rest[k] in multiset(rest);
        assert rest[k] == x || rest[k] in s[1..];
      }
    }
  }

  lemma EmptyIsDown()
    ensures IsDown([])
  {
  }

  /** SortDown sorts: same elements, never rising. */
  lemma {:induction false} SortDownSorts(s: seq<nat>)
    ensures IsDown(SortDown(s)) && multiset(SortDown(s)) == multiset(s)
    ensures |SortDown(s)| == |s|
  {
    hide Insert, IsDown;
    if s == [] {
      assert IsDown([]) by { EmptyIsDown(); }
    } else {
      SortDownSorts(s[1..]);
      InsertSorts(s[0], SortDown(s[1..]));
      InsertAdds(s[0], SortDown(s[1..]));
      assert s == [s[0]] + s[1..];
    }
    assert |multiset(SortDown(s))| == |SortDown(s)|;
  }

  lemma {:induction false} CountInsert(x: nat, s: seq<nat>, b: nat)
    ensures CountReached(Insert(x, s), b) == CountReached(s, b) + (if x >= b then 1 else 0)
  {
    if s != [] && x < s[0] {
      CountInsert(x, s[1..], b);
    }
  }

  lemma {:induction false} CountSorted(s: seq<nat>, b: nat)
    ensures CountReached(SortDown(s), b) == CountReached(s, b)
  {
    if s != [] {
      CountSorted(s[1..], b);
      CountInsert(s[0], SortDown(s[1..]), b);
    }
  }

  /** In falling order, at least k elements reach b exactly when the k-th does. */
  lemma {:induction false} KthReaches(s: seq<nat>, k: nat, b: nat)
    requires IsDown(s) && 1 <= k <= |s|
    ensures CountReached(s, b) >= k <==> s[k - 1] >= b
  {
    if k == 1 {
      if s[0] < b { NoneReach(s, b); }
    } else {
      KthReaches(s[1..], k - 1, b);
      if s[0] < b { NoneReach(s, b); }
    }
  }

  lemma {:induction false} NoneReach(s: seq<nat>, b: nat)
    requires forall i | 0 <= i < |s| :: s[i] < b
    ensures CountReached(s, b) == 0
  {
    if s != [] { NoneReach(s[1..], b); }
  }

  // ---- The rule ----

  function MatchIndices(peers: seq<NodeId>, matchIndex: map<NodeId, nat>): seq<nat> {
    if peers == [] then [] else [Lookup(matchIndex, peers[0])] + MatchIndices(peers[1..], matchIndex)
  }

  lemma {:induction false} CountIsCountReached(peers: seq<NodeId>, matchIndex: map<NodeId, nat>, i: nat)
    ensures CountAtLeast(peers, matchIndex, i) == CountReached(MatchIndices(peers, matchIndex), i)
    ensures |MatchIndices(peers, matchIndex)| == |peers|
  {
    if peers != [] { CountIsCountReached(peers[1..], matchIndex, i); }
  }

  /** The (N/2)-th largest peer match index of a cluster of N nodes. */
  function QuorumMatch(n: NodeState): nat
    requires n.peers != []
  {
    CountIsCountReached(n.peers, n.matchIndex, 0);
    SortDownSorts(MatchIndices(n.peers, n.matchIndex));
    SortDown(MatchIndices(n.peers, n.matchIndex))[(|n.peers| + 1) / 2 - 1]
  }

  lemma ReplicatedMeans(n: NodeState, i: nat)
    requires WellFormed(n.log) && n.peers != []
    ensures Replicated(n, i) <==> i < |n.log| && n.log[i].term == n.currentTerm && i <= QuorumMatch(n)
  {
    hide EntryAt, WellFormed;
    var ms := MatchIndices(n.peers, n.matchIndex);
    ScanIsIndexing(n.log, i);
    CountIsCountReached(n.peers, n.matchIndex, i);
    SortDownSorts(ms);
    CountSorted(ms, i);
    KthReaches(SortDown(ms), (|n.peers| + 1) / 2, i);
  }

  lemma {:induction false} AdvanceFromLargest(n: NodeState, from: nat, last: nat, commit: nat)
    requires commit < from
    ensures var i := AdvanceFrom(n, from, last, commit);
            && (i == commit || (from <= i <= last && Replicated(n, i)))
            && forall k | i < k <= last && from <= k :: !Replicated(n, k)
    decreases last + 1 - from
  {
    hide Replicated;
    if from <= last {
      AdvanceFromLargest(n, from + 1, last, if Replicated(n, from) then from else commit);
    }
  }

  /** The index-by-index commit loop equals the order-statistic rule: take the
    * (N/2)-th largest match index, capped at the last index, and commit it if it is
    * ahead and of the current term. */
  lemma AdvanceIsOrderStatistic(n: NodeState)
    requires WellFormed(n.log) && LastTerm(n.log) <= n.currentTerm && n.peers != []
    ensures var v := Min(QuorumMatch(n), |n.log| - 1);
            AdvanceCommit(n) ==
            n.(commitIndex := if v > n.commitIndex && n.log[v].term == n.currentTerm then v else n.commitIndex)
  {
    hide QuorumMatch, Replicated, AdvanceFrom;
    AdvanceFromLargest(n, n.commitIndex + 1, LastIndex(n.log), n.commitIndex);
    forall k: nat ensures Replicated(n, k) <==> k < |n.log| && n.log[k].term == n.currentTerm && k <= QuorumMatch(n) {
      ReplicatedMeans(n, k);
    }
  }

  /** The majority-th match index, capped at the last index, is not ahead or not of the
    * current term. */
  predicate NothingToCommit(n: NodeState)
    requires |n.log| > 0 && n.peers != []
  {
    var v := Min(QuorumMatch(n), |n.log| - 1);
    v <= n.commitIndex || n.log[v].term != n.currentTerm
  }

  lemma CommitStaysIff(n: NodeState)
    requires WellFormed(n.log) && LastTerm(n.log) <= n.currentTerm && n.peers != []
    ensures AdvanceCommit(n) == n <==> NothingToCommit(n)
    ensures AdvanceCommit(n).commitIndex == n.commitIndex <==> NothingToCommit(n)
  {
    hide QuorumMatch, AdvanceCommit;
    AdvanceIsOrderStatistic(n);
  }
}
