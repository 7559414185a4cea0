/** Majorities of the fixed membership. */
module Quorums {
  import opened RaftLog
  import opened RaftNode

  /** A set of members of the size the vote and ack loops ask for. */
  ghost predicate IsQuorum(members: set<NodeId>, q: set<NodeId>) {
    q <= members && |q| >= |members| / 2 + 1
  }

  lemma {:induction false} SubsetSize<T>(a: set<T>, b: set<T>)
    requires a <= b
    ensures |a| <= |b|
  {
    if a != {} {
      var x :| x in a;
      SubsetSize(a - {x}, b - {x});
    }
  }

  /** Two majorities share a member. */
  lemma QuorumsMeet(members: set<NodeId>, a: set<NodeId>, b: set<NodeId>) returns (v: NodeId)
    requires IsQuorum(members, a) && IsQuorum(members, b)
    ensures v in a && v in b
  {
    SubsetSize(a + b, members);
    assert |a + b| == |a| + |b| - |a * b|;
    v :| v in a * b;
  }

  ghost function SeqSet(s: seq<NodeId>): set<NodeId> {
    set x | x in s
  }

  ghost predicate Distinct(s: seq<NodeId>) {
    forall i, j | 0 <= i < j < |s| :: s[i] != s[j]
  }

  lemma {:induction false} DistinctSize(s: seq<NodeId>)
    requires Distinct(s)
    ensures |SeqSet(s)| == |s|
  {
    if s != [] {
      DistinctSize(s[1..]);
      assert SeqSet(s) == {s[0]} + SeqSet(s[1..]);
      assert s[0] !in SeqSet(s[1..]);
    }
  }

  /** The peers whose match index has reached `index`. */
  ghost function Matching(peers: seq<NodeId>, matchIndex: map<NodeId, nat>, index: nat): set<NodeId> {
    set p | p in peers && Lookup(matchIndex, p) >= index
  }

  /** The counting loop counts exactly the matching peers. */
  lemma {:induction false} CountIsSize(peers: seq<NodeId>, matchIndex: map<NodeId, nat>, index: nat)
    requires Distinct(peers)
    ensures CountAtLeast(peers, matchIndex, index) == |Matching(peers, matchIndex, index)|
  {
    if peers == [] {
      assert Matching(peers, matchIndex, index) == {};
    } else {
      CountIsSize(peers[1..], matchIndex, index);
      var rest := Matching(peers[1..], matchIndex, index);
      assert peers[0] !in rest;
      assert forall p :: p in peers <==> p == peers[0] || p in peers[1..];
      if Lookup(matchIndex, peers[0]) >= index {
        assert Matching(peers, matchIndex, index) == {peers[0]} + rest;
      } else {
        assert Matching(peers, matchIndex, index) == rest;
      }
    }
  }
}
