/** Why the disciplines are needed: runs of the code in which a property fails. */
module Counterexamples {
  import opened Options
  import opened RaftLog
  import opened RaftNode
  import opened Quorums
  import opened Cluster
  import opened Elections
  import opened ElectionSafety

  ghost predicate EndsIn(d: Discipline, peersOf: map<NodeId, seq<NodeId>>, r: Run, s: State) {
    IsRun(d, peersOf, r) && r.states[|r.states| - 1] == s
  }

  ghost predicate Reachable(d: Discipline, peersOf: map<NodeId, seq<NodeId>>, s: State) {
    exists r :: EndsIn(d, peersOf, r, s)
  }

  lemma ReachInit(d: Discipline, peersOf: map<NodeId, seq<NodeId>>)
    requires ValidMembership(peersOf)
    ensures Reachable(d, peersOf, Init(peersOf))
  {
    assert EndsIn(d, peersOf, Run([Init(peersOf)], []), Init(peersOf));
  }

  lemma ReachableNonEmpty(d: Discipline, peersOf: map<NodeId, seq<NodeId>>, s: State)
    requires Reachable(d, peersOf, s)
    ensures LogsNonEmpty(s)
  {
    hide IsRun, ElectionInv;
    var r :| EndsIn(d, peersOf, r, s);
    assert |r.states| > 0 by { RunNonEmpty(d, peersOf, r); }
    RunElectionInv(d, peersOf, r, |r.states| - 1);
  }

  lemma RunNonEmpty(d: Discipline, peersOf: map<NodeId, seq<NodeId>>, r: Run)
    requires IsRun(d, peersOf, r)
    ensures |r.states| > 0
  {
  }

  lemma ReachStep(d: Discipline, peersOf: map<NodeId, seq<NodeId>>, s: State, e: Event) returns (s': State)
    requires Reachable(d, peersOf, s) && Enabled(s, e) && Allowed(d, s, e)
    ensures LogsNonEmpty(s) && s' == Step(s, e) && Reachable(d, peersOf, s')
  {
    hide Enabled, Allowed, Step, ValidMembership;
    ReachableNonEmpty(d, peersOf, s);
    s' := Step(s, e);
    var r :| EndsIn(d, peersOf, r, s);
    var r' := Run(r.states + [s'], r.events + [e]);
    forall i | 0 <= i < |r'.events| ensures IsStep(d, r'.states[i], r'.events[i], r'.states[i + 1]) {
      if i < |r.events| {
        assert IsStep(d, r.states[i], r.events[i], r.states[i + 1]);
      }
    }
    assert EndsIn(d, peersOf, r', s');
  }

  /** The node once it stands for election, for the first time or again. */
  ghost function Standing(n: NodeState): NodeState {
    n.(role := Candidate, currentTerm := n.currentTerm + 1, votedFor := n.id)
  }

  /** The node once it has voted for c in term t. */
  ghost function Voting(n: NodeState, t: nat, c: NodeId): NodeState {
    n.(currentTerm := t, votedFor := c, role := Follower)
  }

  ghost predicate SameRest(s: State, s': State) {
    s'.calls == s.calls && s'.collected == s.collected && s.net <= s'.net
  }

  lemma TimeOut(d: Discipline, peersOf: map<NodeId, seq<NodeId>>, s: State, n: NodeId) returns (s': State)
    requires n in s.nodes && s.nodes[n].role == Follower
    requires Reachable(d, peersOf, s)
    ensures Reachable(d, peersOf, s') && SameRest(s, s') && s'.nodes == s.nodes[n := s.nodes[n].(role := Candidate)]
  {
    hide Reachable, LogsNonEmpty;
    s' := ReachStep(d, peersOf, s, Timeout(n));
  }

  lemma Campaigns(d: Discipline, peersOf: map<NodeId, seq<NodeId>>, s: State, n: NodeId) returns (s': State)
    requires n in s.nodes && s.nodes[n].role == Candidate && |s.nodes[n].log| > 0
    requires Reachable(d, peersOf, s)
    ensures Reachable(d, peersOf, s') && SameRest(s, s')
    ensures s'.nodes == s.nodes[n := Standing(s.nodes[n])]
    ensures VoteRequest(VoteArgs(Standing(s.nodes[n]))) in s'.net
    ensures n in s'.campaigns && s'.campaigns[n] == Campaign(s.nodes[n].currentTerm + 1, {n})
  {
    hide Reachable, LogsNonEmpty, CastVote;
    s' := ReachStep(d, peersOf, s, Campaigning(n));
  }

  lemma Stand(d: Discipline, peersOf: map<NodeId, seq<NodeId>>, s: State, n: NodeId) returns (s': State)
    requires n in s.nodes && s.nodes[n].role != Leader && |s.nodes[n].log| > 0
    requires Reachable(d, peersOf, s)
    ensures Reachable(d, peersOf, s') && SameRest(s, s')
    ensures s'.nodes == s.nodes[n := Standing(s.nodes[n])]
    ensures VoteRequest(VoteArgs(Standing(s.nodes[n]))) in s'.net
    ensures n in s'.campaigns && s'.campaigns[n] == Campaign(s.nodes[n].currentTerm + 1, {n})
  {
    hide Reachable, VoteArgs;
    var s1 := s;
    if s.nodes[n].role == Follower {
      s1 := TimeOut(d, peersOf, s, n);
    }
    s' := Campaigns(d, peersOf, s1, n);
  }

  lemma Grant(d: Discipline, peersOf: map<NodeId, seq<NodeId>>, s: State, v: NodeId, args: RequestVoteArgs) returns (s': State)
    requires v in s.nodes && v != args.candidateId && VoteRequest(args) in s.net
    requires s.nodes[v].currentTerm < args.term && |s.nodes[v].log| > 0
    requires UpToDate(args.lastLogTerm, args.lastLogIndex, s.nodes[v].log)
    requires Reachable(d, peersOf, s)
    ensures Reachable(d, peersOf, s') && SameRest(s, s') && s'.campaigns == s.campaigns
    ensures s'.nodes == s.nodes[v := Voting(s.nodes[v], args.term, args.candidateId)]
    ensures VoteResponse(v, args, RequestVoteReply(args.term, true)) in s'.net
  {
    hide Reachable, LogsNonEmpty, UpToDate;
    s' := ReachStep(d, peersOf, s, AnswerVote(v, VoteRequest(args)));
  }

  lemma CountOne(d: Discipline, peersOf: map<NodeId, seq<NodeId>>, s: State, n: NodeId, v: NodeId, args: RequestVoteArgs) returns (s': State)
    requires n in s.nodes && n in s.campaigns && args.candidateId == n && args.term == s.campaigns[n].term
    requires VoteResponse(v, args, RequestVoteReply(args.term, true)) in s.net
    requires Reachable(d, peersOf, s)
    ensures Reachable(d, peersOf, s') && SameRest(s, s') && s'.nodes == s.nodes && s.net == s'.net
    ensures n in s'.campaigns && s'.campaigns[n] == Campaign(args.term, s.campaigns[n].voters + {v})
  {
    hide Reachable, LogsNonEmpty;
    s' := ReachStep(d, peersOf, s, CountVote(VoteResponse(v, args, RequestVoteReply(args.term, true))));
  }

  lemma TakeLead(d: Discipline, peersOf: map<NodeId, seq<NodeId>>, s: State, n: NodeId) returns (s': State)
    requires n in s.nodes && n in s.campaigns && |s.campaigns[n].voters| >= Majority(s.nodes[n].peers) && |s.nodes[n].log| > 0
    requires Reachable(d, peersOf, s)
    ensures Reachable(d, peersOf, s') && SameRest(s, s')
    ensures s'.nodes == s.nodes[n := BecomeLeader(s.nodes[n], s.campaigns[n].term)]
  {
    hide Reachable, LogsNonEmpty, BecomeLeader, RecordAck;
    s' := ReachStep(d, peersOf, s, Win(n));
  }

  lemma TakeOffice(d: Discipline, peersOf: map<NodeId, seq<NodeId>>, s: State, n: NodeId, v: NodeId, args: RequestVoteArgs) returns (s': State)
    requires n in s.nodes && n != v && |s.nodes[n].peers| == 2 && |s.nodes[n].log| > 0
    requires n in s.campaigns && s.campaigns[n] == Campaign(args.term, {n}) && args.candidateId == n
    requires VoteResponse(v, args, RequestVoteReply(args.term, true)) in s.net
    requires Reachable(d, peersOf, s)
    ensures Reachable(d, peersOf, s') && SameRest(s, s')
    ensures s'.nodes == s.nodes[n := BecomeLeader(s.nodes[n], args.term)]
  {
    hide Reachable, BecomeLeader;
    var s1 := CountOne(d, peersOf, s, n, v, args);
    assert s1.campaigns[n].voters == {n, v};
    s' := TakeLead(d, peersOf, s1, n);
  }

  /** n stands, gets the vote of v and wins, in a cluster of three. */
  lemma Elect(d: Discipline, peersOf: map<NodeId, seq<NodeId>>, s: State, n: NodeId, v: NodeId) returns (s': State)
    requires n in s.nodes && v in s.nodes && n != v && s.nodes[n].id == n
    requires s.nodes[n].role != Leader && |s.nodes[n].peers| == 2
    requires s.nodes[v].currentTerm <= s.nodes[n].currentTerm && |s.nodes[n].log| > 0 && |s.nodes[v].log| > 0
    requires UpToDate(LastTerm(s.nodes[n].log), LastIndex(s.nodes[n].log), s.nodes[v].log)
    requires Reachable(d, peersOf, s)
    ensures Reachable(d, peersOf, s') && SameRest(s, s')
    ensures var cand := Standing(s.nodes[n]);
            && s'.nodes == s.nodes[v := Voting(s.nodes[v], cand.currentTerm, n)][n := BecomeLeader(cand, cand.currentTerm)]
            && VoteRequest(VoteArgs(cand)) in s'.net
  {
    hide Reachable, UpToDate, BecomeLeader;
    var args := VoteArgs(Standing(s.nodes[n]));
    var s1 := Stand(d, peersOf, s, n);
    var s2 := Grant(d, peersOf, s1, v, args);
    s' := TakeOffice(d, peersOf, s2, n, v, args);
  }

  lemma Append(d: Discipline, peersOf: map<NodeId, seq<NodeId>>, s: State, n: NodeId, command: Command) returns (s': State)
    requires n in s.nodes && s.nodes[n].role == Leader && |s.nodes[n].log| > 0
    requires Reachable(d, peersOf, s)
    ensures Reachable(d, peersOf, s') && s'.collected == s.collected && s'.net == s.net
    ensures s'.nodes == s.nodes[n := AppendCommand(s.nodes[n], command)]
    ensures s'.calls == s.calls + [Call(n, NewEntry(s.nodes[n], command), s.nodes[n].commitIndex, {}, false)]
  {
    hide Reachable, LogsNonEmpty, RecordAck;
    s' := ReachStep(d, peersOf, s, ClientAppend(n, command));
  }

  lemma Deliver(d: Discipline, peersOf: map<NodeId, seq<NodeId>>, s: State, m: Message) returns (s': State)
    requires m in s.net && m.AppendRequest? && m.peer in s.nodes && |s.nodes[m.peer].log| > 0
    requires d.checked ==> LearnsChecked(s, HandleAppend(m))
    requires Reachable(d, peersOf, s)
    ensures Reachable(d, peersOf, s') && SameRest(s, s')
    ensures s'.nodes == s.nodes[m.peer := HandleAppendEntries(s.nodes[m.peer], m.args).0]
    ensures AppendResponse(m.peer, m.args, m.call, HandleAppendEntries(s.nodes[m.peer], m.args).1) in s'.net
  {
    hide Reachable, LogsNonEmpty, RecordAck, HandleAppendEntries, LearnsChecked;
    s' := ReachStep(d, peersOf, s, HandleAppend(m));
  }

  ghost function Trio(a: NodeId, b: NodeId, c: NodeId): map<NodeId, seq<NodeId>> {
    map[a := [b, c], b := [a, c], c := [a, b]]
  }

  lemma TrioValid(a: NodeId, b: NodeId, c: NodeId)
    requires a != b && b != c && a != c && a != "" && b != "" && c != ""
    ensures ValidMembership(Trio(a, b, c))
  {
    var m := Trio(a, b, c);
    assert m.Keys == {a, b, c};
    assert SeqSet([b, c]) == {b, c} && SeqSet([a, c]) == {a, c} && SeqSet([a, b]) == {a, b};
    assert |m| == |m.Keys| == 3;
  }

  // ---- A deposed leader's heartbeat ----

  /** A leader with nothing committed yet, just elected with `log`. */
  ghost function LeaderOf(n: NodeId, peers: seq<NodeId>, t: nat, log: Log): NodeState
    requires |log| > 0
  {
    NodeState(n, peers, t, n, Leader, log, 0, 0, SetAll(map[], peers, LastIndex(log) + 1), SetAll(map[], peers, 0), [])
  }

  lemma TrioInit(d: Discipline, a: NodeId, b: NodeId, c: NodeId) returns (s: State)
    requires a != b && b != c && a != c && a != "" && b != "" && c != ""
    ensures Reachable(d, Trio(a, b, c), s)
    ensures s.nodes.Keys == {a, b, c} && s.nodes[a] == NewNode(a, [b, c]) && s.nodes[b] == NewNode(b, [a, c])
    ensures s.nodes[c] == NewNode(c, [a, b]) && s.calls == [] && s.collected == map[a := [], b := [], c := []]
  {
    TrioValid(a, b, c);
    hide ValidMembership, Reachable, NewNode;
    ReachInit(d, Trio(a, b, c));
    s := Init(Trio(a, b, c));
  }

  /** a leads term 1 with an entry of its own. */
  lemma OneLeader(d: Discipline, a: NodeId, b: NodeId, c: NodeId) returns (s: State)
    requires a != b && b != c && a != c && a != "" && b != "" && c != ""
    ensures Reachable(d, Trio(a, b, c), s)
    ensures s.nodes.Keys == {a, b, c}
    ensures s.nodes[a] == AppendCommand(LeaderOf(a, [b, c], 1, [SENTINEL]), "x")
    ensures s.nodes[b] == NewNode(b, [a, c])
    ensures s.nodes[c] == Voting(NewNode(c, [a, b]), 1, a)
    ensures |s.calls| == 1 && s.collected == map[a := [], b := [], c := []]
  {
    hide Reachable, SetAll, Trio;
    var peersOf := Trio(a, b, c);
    var s0 := TrioInit(d, a, b, c);
    var s1 := Elect(d, peersOf, s0, a, c);
    s := Append(d, peersOf, s1, a, "x");
  }

  /** Besides, b, whose first campaign nobody heard, leads term 2 with c's vote. */
  lemma TwoLeaders(d: Discipline, a: NodeId, b: NodeId, c: NodeId) returns (s: State)
    requires a != b && b != c && a != c && a != "" && b != "" && c != ""
    ensures Reachable(d, Trio(a, b, c), s)
    ensures s.nodes.Keys == {a, b, c}
    ensures s.nodes[a] == AppendCommand(LeaderOf(a, [b, c], 1, [SENTINEL]), "x")
    ensures s.nodes[b] == LeaderOf(b, [a, c], 2, [SENTINEL])
    ensures s.nodes[c] == Voting(NewNode(c, [a, b]), 2, b)
    ensures VoteRequest(RequestVoteArgs(2, b, 0, 0)) in s.net
    ensures |s.calls| == 1 && s.collected == map[a := [], b := [], c := []]
  {
    hide Reachable, SetAll, AppendCommand, Trio;
    var peersOf := Trio(a, b, c);
    var s2 := OneLeader(d, a, b, c);
    var s3 := Stand(d, peersOf, s2, b);
    s := Elect(d, peersOf, s3, b, c);
  }

  lemma Deny(d: Discipline, peersOf: map<NodeId, seq<NodeId>>, s: State, v: NodeId, args: RequestVoteArgs) returns (s': State)
    requires v in s.nodes && v != args.candidateId && VoteRequest(args) in s.net
    requires s.nodes[v].currentTerm < args.term && |s.nodes[v].log| > 0
    requires !UpToDate(args.lastLogTerm, args.lastLogIndex, s.nodes[v].log)
    requires Reachable(d, peersOf, s)
    ensures Reachable(d, peersOf, s') && SameRest(s, s')
    ensures s'.nodes == s.nodes[v := BecomeFollower(s.nodes[v], args.term)]
  {
    hide Reachable, LogsNonEmpty, UpToDate;
    s' := ReachStep(d, peersOf, s, AnswerVote(v, VoteRequest(args)));
  }

  lemma Heartbeat(d: Discipline, peersOf: map<NodeId, seq<NodeId>>, s: State, n: NodeId, p: NodeId) returns (s': State)
    requires n in s.nodes && p in s.nodes[n].peers && p in s.nodes[n].nextIndex && |s.nodes[n].log| > 0
    requires d.guarded ==> s.nodes[n].role == Leader
    requires Reachable(d, peersOf, s)
    ensures Reachable(d, peersOf, s') && SameRest(s, s') && s'.nodes == s.nodes
    ensures AppendRequest(p, BuildHeartbeat(s.nodes[n], p), None) in s'.net
  {
    hide Reachable, LogsNonEmpty, BuildHeartbeat;
    s' := ReachStep(d, peersOf, s, SendHeartbeat(n, p));
  }

  lemma SendEntry(d: Discipline, peersOf: map<NodeId, seq<NodeId>>, s: State, c: nat, p: NodeId) returns (s': State)
    requires c < |s.calls| && s.calls[c].leader in s.nodes
    requires var n := s.nodes[s.calls[c].leader];
             n.currentTerm == s.calls[c].entry.term && n.role == Leader && p in n.peers
    requires Reachable(d, peersOf, s)
    ensures Reachable(d, peersOf, s') && SameRest(s, s') && s'.nodes == s.nodes
    ensures ReplicateRequest(s, c, p) in s'.net
  {
    hide Reachable, LogsNonEmpty, ReplicateRequest;
    s' := ReachStep(d, peersOf, s, SendReplicate(c, p));
  }

  const X := LogEntry(1, 1, "x")
  const Y := LogEntry(2, 1, "y")
  const Z := LogEntry(2, 2, "z")

  /** b, leading term 2, has appended two entries, and a has heard of term 2. */
  lemma LeaderWithTwo(d: Discipline, a: NodeId, b: NodeId, c: NodeId) returns (s: State)
    requires a != b && b != c && a != c && a != "" && b != "" && c != ""
    ensures Reachable(d, Trio(a, b, c), s)
    ensures s.nodes.Keys == {a, b, c}
    ensures s.nodes[a] == BecomeFollower(AppendCommand(LeaderOf(a, [b, c], 1, [SENTINEL]), "x"), 2)
    ensures s.nodes[b] == AppendCommand(AppendCommand(LeaderOf(b, [a, c], 2, [SENTINEL]), "y"), "z")
    ensures s.nodes[c] == Voting(NewNode(c, [a, b]), 2, b)
    ensures |s.calls| == 3 && s.calls[2] == Call(b, Z, 0, {}, false)
  {
    hide Reachable, SetAll, Trio;
    var peersOf := Trio(a, b, c);
    var s1 := TwoLeaders(d, a, b, c);
    var s2 := Deny(d, peersOf, s1, a, RequestVoteArgs(2, b, 0, 0));
    var s3 := Append(d, peersOf, s2, b, "y");
    s := Append(d, peersOf, s3, b, "z");
  }

  lemma RequestOfB(n: NodeState, a: NodeId, b: NodeId, c: NodeId)
    requires a != b && b != c && a != c
    requires n == AppendCommand(AppendCommand(LeaderOf(b, [a, c], 2, [SENTINEL]), "y"), "z")
    ensures n.log == [SENTINEL, Y, Z]
    ensures BuildReplicate(n, c, Z, 2, 0) == AppendEntriesArgs(2, b, 0, 0, [Y, Z], 0)
  {
    hide BuildReplicate, SetAll;
    SetAllHas(map[], [a, c], 1, c);
    assert n.log == [SENTINEL, Y, Z];
    FirstRequest(n, c, Z, b, n.log, 2);
    assert n.log[1..] == [Y, Z];
  }

  lemma SetAllHas(m: map<NodeId, nat>, keys: seq<NodeId>, value: nat, k: NodeId)
    requires k in keys
    ensures k in SetAll(m, keys, value) && SetAll(m, keys, value)[k] == value
  {
  }

  lemma HeartbeatOfA(n: NodeState, a: NodeId, b: NodeId, c: NodeId)
    requires a != b && b != c && a != c
    requires n == BecomeFollower(AppendCommand(LeaderOf(a, [b, c], 1, [SENTINEL]), "x"), 2)
    ensures BuildHeartbeat(n, b) == AppendEntriesArgs(2, a, 0, 0, [X], 0)
  {
    hide SetAll, EntryAt, EntriesFrom;
    SetAllHas(map[], [b, c], 1, b);
    assert n.log == [SENTINEL, X];
    ScanIsIndexing(n.log, 1);
    assert n.log[1..] == [X];
  }

  lemma CAccepts(n: NodeState, args: AppendEntriesArgs)
    requires n.log == [SENTINEL] && n.currentTerm == args.term && n.commitIndex == args.leaderCommit == 0
    requires args.prevLogIndex == 0 && args.entries == [Y, Z]
    ensures HandleAppendEntries(n, args).0.log == [SENTINEL, Y, Z]
  {
    MergeAppends(n.log, args.entries);
  }

  lemma BAccepts(n: NodeState, args: AppendEntriesArgs)
    requires n.log == [SENTINEL, Y, Z] && n.currentTerm == args.term && n.role == Leader
    requires n.commitIndex == args.leaderCommit == 0
    requires args.prevLogIndex == 0 && args.entries == [X]
    ensures HandleAppendEntries(n, args).0 == n.(log := [SENTINEL, X])
  {
    MergeOneStep(n.log, X);
    assert n.log[..1] + [X] == [SENTINEL, X];
    assert args.entries[1..] == [];
    assert Merge([SENTINEL, X], []) == [SENTINEL, X];
  }

  /** c has taken both entries of b. */
  lemma TwoReplicated(d: Discipline, a: NodeId, b: NodeId, c: NodeId) returns (s: State)
    requires a != b && b != c && a != c && a != "" && b != "" && c != ""
    ensures Reachable(d, Trio(a, b, c), s)
    ensures s.nodes.Keys == {a, b, c} && a in s.nodes && b in s.nodes && c in s.nodes
    ensures s.nodes[a].id == a && s.nodes[a].peers == [b, c] && b in s.nodes[a].nextIndex && s.nodes[a].log == [SENTINEL, X]
    ensures BuildHeartbeat(s.nodes[a], b) == AppendEntriesArgs(2, a, 0, 0, [X], 0)
    ensures s.nodes[b].role == Leader && s.nodes[b].currentTerm == 2 && s.nodes[b].log == [SENTINEL, Y, Z]
    ensures s.nodes[b].commitIndex == 0 && s.nodes[c].log == [SENTINEL, Y, Z]
  {
    hide Reachable, Trio, BuildReplicate, BuildHeartbeat, HandleAppendEntries, SetAll;
    var peersOf := Trio(a, b, c);
    var s1 := LeaderWithTwo(d, a, b, c);
    RequestOfB(s1.nodes[b], a, b, c);
    HeartbeatOfA(s1.nodes[a], a, b, c);
    SetAllHas(map[], [b, c], 1, b);
    var s2 := SendEntry(d, peersOf, s1, 2, c);
    var args := AppendEntriesArgs(2, b, 0, 0, [Y, Z], 0);
    CAccepts(s2.nodes[c], args);
    s := Deliver(d, peersOf, s2, AppendRequest(c, args, Some(2)));
  }

  /** A heartbeat that a deposed leader builds under its successor's term rewrites the
    * log of the present leader: Leader Append-Only and Log Matching fail, although
    * commits are checked and replies credited in their own term. */
  lemma UnguardedHeartbeatBreaksLogMatching(a: NodeId, b: NodeId, c: NodeId) returns (s: State, s': State)
    requires a != b && b != c && a != c && a != "" && b != "" && c != ""
    ensures var d := Discipline(false, true, true, true);
            Reachable(d, Trio(a, b, c), s) && Reachable(d, Trio(a, b, c), s')
    // b leads term 2 in both states, but its log did not grow at the end
    ensures b in s.nodes && s.nodes[b].role == Leader && s.nodes[b].currentTerm == 2
    ensures b in s'.nodes && s'.nodes[b].role == Leader && s'.nodes[b].currentTerm == 2
    ensures !IsPrefix(s.nodes[b].log, s'.nodes[b].log)
    // b and c hold different entries of the same index and term
    ensures c in s'.nodes && |s'.nodes[b].log| == |s'.nodes[c].log| == 3
    ensures s'.nodes[b].log[2].term == s'.nodes[c].log[2].term && s'.nodes[b].log[2] != s'.nodes[c].log[2]
  {
    hide Reachable, Trio, BuildHeartbeat, HandleAppendEntries;
    var d := Discipline(false, true, true, true);
    var peersOf := Trio(a, b, c);
    s := TwoReplicated(d, a, b, c);
    var s4 := Heartbeat(d, peersOf, s, a, b);
    var args' := AppendEntriesArgs(2, a, 0, 0, [X], 0);
    BAccepts(s4.nodes[b], args');
    var s5 := Deliver(d, peersOf, s4, AppendRequest(b, args', None));
    s' := Append(d, peersOf, s5, b, "w");
    assert s.nodes[b].log[1] == Y && s'.nodes[b].log[1] == X;
  }

  // ---- A heartbeat that carries nothing but a commit index ----

  /** b, leading term 2, has replicated an entry to c. */
  lemma ReplicatedEntry(d: Discipline, a: NodeId, b: NodeId, c: NodeId) returns (s: State)
    requires a != b && b != c && a != c && a != "" && b != "" && c != ""
    ensures Reachable(d, Trio(a, b, c), s)
    ensures s.nodes.Keys == {a, b, c} && s.collected == map[a := [], b := [], c := []]
    ensures s.nodes[a] == AppendCommand(LeaderOf(a, [b, c], 1, [SENTINEL]), "x")
    ensures s.nodes[b] == AppendCommand(LeaderOf(b, [a, c], 2, [SENTINEL]), "y") && s.nodes[b].log == [SENTINEL, Y]
    ensures s.nodes[c] == Voting(NewNode(c, [a, b]), 2, b).(log := [SENTINEL, Y])
    ensures |s.calls| == 2 && s.calls[1] == Call(b, Y, 0, {}, false)
    ensures AppendResponse(c, AppendEntriesArgs(2, b, 0, 0, [Y], 0), Some(1), AppendEntriesReply(2, true)) in s.net
  {
    hide Reachable, Trio, BuildReplicate, HandleAppendEntries, SetAll;
    var peersOf := Trio(a, b, c);
    var s1 := TwoLeaders(d, a, b, c);
    var s2 := Append(d, peersOf, s1, b, "y");
    var args := AppendEntriesArgs(2, b, 0, 0, [Y], 0);
    YRequest(s2.nodes[b], a, b, c);
    var s3 := SendEntry(d, peersOf, s2, 1, c);
    YAccepted(s3.nodes[c], args);
    s := Deliver(d, peersOf, s3, AppendRequest(c, args, Some(1)));
  }

  /** Then it has committed and collected the entry. */
  lemma CommittedEntry(d: Discipline, a: NodeId, b: NodeId, c: NodeId) returns (s: State)
    requires a != b && b != c && a != c && a != "" && b != "" && c != ""
    ensures Reachable(d, Trio(a, b, c), s)
    ensures s.nodes.Keys == {a, b, c} && s.collected == map[a := [], b := [Y], c := []]
    ensures s.nodes[a] == AppendCommand(LeaderOf(a, [b, c], 1, [SENTINEL]), "x")
    ensures var n := s.nodes[b];
            n.id == b && n.peers == [a, c] && n.currentTerm == 2 && n.log == [SENTINEL, Y] && n.commitIndex == 1
    ensures s.nodes[c] == Voting(NewNode(c, [a, b]), 2, b).(log := [SENTINEL, Y])
  {
    hide Reachable, Trio, SetAll;
    var peersOf := Trio(a, b, c);
    var s1 := ReplicatedEntry(d, a, b, c);
    var reply := AppendResponse(c, AppendEntriesArgs(2, b, 0, 0, [Y], 0), Some(1), AppendEntriesReply(2, true));
    var s2 := Acknowledge(d, peersOf, s1, 1, reply);
    assert s2.calls[1].acks == {c};
    var s3 := Finish(d, peersOf, s2, 1);
    s := GatherAll(d, peersOf, s3, b);
    var none: seq<LogEntry> := [];
    assert [SENTINEL, Y][1..] == [Y];
    assert s3.collected[b := [Y]] == map[a := none, b := [Y], c := none];
  }

  lemma YRequest(n: NodeState, a: NodeId, b: NodeId, c: NodeId)
    requires a != b && b != c && a != c
    requires n == AppendCommand(LeaderOf(b, [a, c], 2, [SENTINEL]), "y")
    ensures n.log == [SENTINEL, Y]
    ensures BuildReplicate(n, c, Y, 2, 0) == AppendEntriesArgs(2, b, 0, 0, [Y], 0)
  {
    hide BuildReplicate, SetAll;
    SetAllHas(map[], [a, c], 1, c);
    assert n.log == [SENTINEL, Y];
    FirstRequest(n, c, Y, b, n.log, 2);
    assert n.log[1..] == [Y];
  }

  lemma YAccepted(n: NodeState, args: AppendEntriesArgs)
    requires n.log == [SENTINEL] && n.currentTerm == args.term && n.commitIndex == args.leaderCommit == 0 && n.role == Follower
    requires args.prevLogIndex == 0 && args.entries == [Y]
    ensures HandleAppendEntries(n, args) == (n.(log := [SENTINEL, Y]), AppendEntriesReply(args.term, true))
  {
    MergeAppends(n.log, args.entries);
    assert n.log + [Y] == [SENTINEL, Y];
  }

  /** b loses the lead to c and wins it back, so that its next index for a passes the
    * end of its log. */
  lemma LeaderAgain(d: Discipline, a: NodeId, b: NodeId, c: NodeId) returns (s: State)
    requires a != b && b != c && a != c && a != "" && b != "" && c != ""
    ensures Reachable(d, Trio(a, b, c), s)
    ensures s.nodes.Keys == {a, b, c} && s.collected == map[a := [], b := [Y], c := []]
    ensures s.nodes[a] == AppendCommand(LeaderOf(a, [b, c], 1, [SENTINEL]), "x")
    ensures var n := s.nodes[b];
            && n.id == b && n.peers == [a, c] && n.role == Leader && n.currentTerm == 4 && n.log == [SENTINEL, Y]
            && n.commitIndex == 1 && a in n.nextIndex && n.nextIndex[a] == 2
  {
    hide Reachable, Trio, AppendCommand, BecomeLeader;
    var peersOf := Trio(a, b, c);
    var s1 := CommittedEntry(d, a, b, c);
    var s2 := Elect(d, peersOf, s1, c, b);
    InOffice(Standing(s1.nodes[c]));
    s := Elect(d, peersOf, s2, b, c);
    InOffice(Standing(s2.nodes[b]));
  }

  lemma InOffice(n: NodeState)
    requires n.role == Candidate && |n.log| > 0
    ensures var l := BecomeLeader(n, n.currentTerm);
            && l == n.(role := Leader, nextIndex := l.nextIndex, matchIndex := l.matchIndex)
            && forall p | p in n.peers ::
                 && p in l.nextIndex && l.nextIndex[p] == LastIndex(n.log) + 1
                 && p in l.matchIndex && l.matchIndex[p] == 0
  {
  }

  lemma EmptyHeartbeat(n: NodeState, p: NodeId)
    requires |n.log| > 0 && p in n.nextIndex && n.nextIndex[p] > LastIndex(n.log)
    ensures BuildHeartbeat(n, p) == AppendEntriesArgs(n.currentTerm, n.id, 0, 0, [], n.commitIndex)
  {
  }

  lemma EmptyHeartbeatCommits(n: NodeState, args: AppendEntriesArgs)
    requires |n.log| > 0 && LastIndex(n.log) == 1 && n.currentTerm < args.term && n.commitIndex == 0
    requires args.prevLogIndex == 0 && args.entries == [] && args.leaderCommit == 1
    ensures HandleAppendEntries(n, args).0 == BecomeFollower(n, args.term).(commitIndex := 1)
  {
    assert Merge(n.log, []) == n.log;
  }

  /** A follower that takes the commit index of an empty heartbeat at face value
    * applies its own diverging entry: State Machine Safety fails, although heartbeats
    * are guarded and replies credited in their own term. */
  lemma UncheckedCommitBreaksSafety(a: NodeId, b: NodeId, c: NodeId) returns (s: State)
    requires a != b && b != c && a != c && a != "" && b != "" && c != ""
    ensures Reachable(Discipline(true, false, true, true), Trio(a, b, c), s)
    ensures a in s.collected && s.collected[a] == [X] && b in s.collected && s.collected[b] == [Y]
  {
    hide Reachable, Trio, BuildHeartbeat, HandleAppendEntries, SetAll, LearnsChecked;
    var d := Discipline(true, false, true, true);
    var peersOf := Trio(a, b, c);
    var s1 := LeaderAgain(d, a, b, c);
    var s2 := Heartbeat(d, peersOf, s1, b, a);
    EmptyHeartbeat(s1.nodes[b], a);
    var args := AppendEntriesArgs(4, b, 0, 0, [], 1);
    assert s1.nodes[a].log == [SENTINEL, X];
    EmptyHeartbeatCommits(s2.nodes[a], args);
    var s3 := Deliver(d, peersOf, s2, AppendRequest(a, args, None));
    s := GatherAll(d, peersOf, s3, a);
    assert [SENTINEL, X][1..] == [X];
  }

  // ---- A success credited in a later term, in a cluster of five ----

  ghost function Quintet(a: NodeId, b: NodeId, c: NodeId, d: NodeId, e: NodeId): map<NodeId, seq<NodeId>> {
    map[a := [b, c, d, e], b := [a, c, d, e], c := [a, b, d, e], d := [a, b, c, e], e := [a, b, c, d]]
  }

  ghost predicate Five(a: NodeId, b: NodeId, c: NodeId, d: NodeId, e: NodeId) {
    && a != b && a != c && a != d && a != e && b != c && b != d && b != e && c != d && c != e && d != e
    && a != "" && b != "" && c != "" && d != "" && e != ""
  }

  lemma FourPeers(w: NodeId, x: NodeId, y: NodeId, z: NodeId)
    requires w != x && w != y && w != z && x != y && x != z && y != z
    ensures Distinct([w, x, y, z]) && SeqSet([w, x, y, z]) == {w, x, y, z}
  {
  }

  lemma QuintetValid(a: NodeId, b: NodeId, c: NodeId, d: NodeId, e: NodeId)
    requires Five(a, b, c, d, e)
    ensures ValidMembership(Quintet(a, b, c, d, e))
  {
    hide Distinct, SeqSet;
    var m := Quintet(a, b, c, d, e);
    assert m.Keys == {a, b, c, d, e};
    assert |m| == |m.Keys| >= 2 by { SubsetSize({a, b}, m.Keys); }
    FourPeers(b, c, d, e);
    FourPeers(a, c, d, e);
    FourPeers(a, b, d, e);
    FourPeers(a, b, c, e);
    FourPeers(a, b, c, d);
    assert {b, c, d, e} == m.Keys - {a} && {a, c, d, e} == m.Keys - {b} && {a, b, d, e} == m.Keys - {c};
    assert {a, b, c, e} == m.Keys - {d} && {a, b, c, d} == m.Keys - {e};
  }

  lemma TakeOffice5(k: Discipline, peersOf: map<NodeId, seq<NodeId>>, s: State, n: NodeId, v: NodeId, w: NodeId, args: RequestVoteArgs)
    returns (s': State)
    requires n in s.nodes && n != v && n != w && v != w && |s.nodes[n].peers| == 4 && |s.nodes[n].log| > 0
    requires n in s.campaigns && s.campaigns[n] == Campaign(args.term, {n}) && args.candidateId == n
    requires VoteResponse(v, args, RequestVoteReply(args.term, true)) in s.net
    requires VoteResponse(w, args, RequestVoteReply(args.term, true)) in s.net
    requires Reachable(k, peersOf, s)
    ensures Reachable(k, peersOf, s') && SameRest(s, s')
    ensures s'.nodes == s.nodes[n := BecomeLeader(s.nodes[n], args.term)]
  {
    hide Reachable, BecomeLeader;
    var s1 := CountOne(k, peersOf, s, n, v, args);
    var s2 := CountOne(k, peersOf, s1, n, w, args);
    assert s2.campaigns[n].voters == {n, v, w};
    s' := TakeLead(k, peersOf, s2, n);
  }

  lemma Elect5(k: Discipline, peersOf: map<NodeId, seq<NodeId>>, s: State, n: NodeId, v: NodeId, w: NodeId) returns (s': State)
    requires n in s.nodes && v in s.nodes && w in s.nodes && n != v && n != w && v != w && s.nodes[n].id == n
    requires s.nodes[n].role != Leader && |s.nodes[n].peers| == 4
    requires s.nodes[v].currentTerm <= s.nodes[n].currentTerm && s.nodes[w].currentTerm <= s.nodes[n].currentTerm
    requires |s.nodes[n].log| > 0 && |s.nodes[v].log| > 0 && |s.nodes[w].log| > 0
    requires UpToDate(LastTerm(s.nodes[n].log), LastIndex(s.nodes[n].log), s.nodes[v].log)
    requires UpToDate(LastTerm(s.nodes[n].log), LastIndex(s.nodes[n].log), s.nodes[w].log)
    requires Reachable(k, peersOf, s)
    ensures Reachable(k, peersOf, s') && SameRest(s, s')
    ensures var cand := Standing(s.nodes[n]);
            s'.nodes == s.nodes[v := Voting(s.nodes[v], cand.currentTerm, n)][w := Voting(s.nodes[w], cand.currentTerm, n)]
                              [n := BecomeLeader(cand, cand.currentTerm)]
  {
    hide Reachable, UpToDate, BecomeLeader;
    var args := VoteArgs(Standing(s.nodes[n]));
    var s1 := Stand(k, peersOf, s, n);
    var s2 := Grant(k, peersOf, s1, v, args);
    var s3 := Grant(k, peersOf, s2, w, args);
    s' := TakeOffice5(k, peersOf, s3, n, v, w, args);
  }

  /** What a node looks like, apart from its vote and its bookkeeping about peers. */
  ghost predicate Looks(n: NodeState, id: NodeId, peers: seq<NodeId>, term: nat, role: Role, log: Log) {
    && n.id == id && n.peers == peers && n.currentTerm == term && n.role == role && n.log == log
    && n.commitIndex == 0 && n.lastApplied == 0
  }

  const X2 := LogEntry(1, 2, "x2")
  const Z3 := LogEntry(3, 2, "z")
  const W4 := LogEntry(4, 2, "w")

  ghost function XArgs(a: NodeId): AppendEntriesArgs { AppendEntriesArgs(1, a, 0, 0, [X, X2], 0) }

  ghost function LateReply(a: NodeId, b: NodeId): Message {
    AppendResponse(b, XArgs(a), Some(1), AppendEntriesReply(1, true))
  }

  /** A request goes out for call c and is handled by p. */
  lemma SendAndDeliver(k: Discipline, peersOf: map<NodeId, seq<NodeId>>, s: State, c: nat, p: NodeId, args: AppendEntriesArgs) returns (s': State)
    requires c < |s.calls| && s.calls[c].leader in s.nodes && p in s.nodes && |s.nodes[p].log| > 0
    requires var n := s.nodes[s.calls[c].leader];
             n.currentTerm == s.calls[c].entry.term && n.role == Leader && p in n.peers
    requires args == BuildReplicate(s.nodes[s.calls[c].leader], p, s.calls[c].entry, s.calls[c].entry.term, s.calls[c].commit)
    requires args.entries != []
    requires Reachable(k, peersOf, s)
    ensures Reachable(k, peersOf, s') && SameRest(s, s')
    ensures s'.nodes == s.nodes[p := HandleAppendEntries(s.nodes[p], args).0]
    ensures AppendResponse(p, args, Some(c), HandleAppendEntries(s.nodes[p], args).1) in s'.net
  {
    hide Reachable, BuildReplicate, HandleAppendEntries;
    var s1 := SendEntry(k, peersOf, s, c, p);
    s' := Deliver(k, peersOf, s1, AppendRequest(p, args, Some(c)));
  }

  /** A node without entries, or with a's two, takes a request from the start. */
  lemma TakesFromStart(n: NodeState, args: AppendEntriesArgs)
    requires n.log == [SENTINEL] || n.log == [SENTINEL, X, X2]
    requires n.currentTerm <= args.term && n.role != Candidate && args.prevLogIndex == 0 && n.commitIndex == args.leaderCommit == 0
    requires args.entries == [Y] || (n.log == [SENTINEL] && args.entries == [X, X2])
    ensures HandleAppendEntries(n, args) == (EnterTerm(n, args.term).(log := [SENTINEL] + args.entries), AppendEntriesReply(args.term, true))
  {
    hide Merge;
    if n.log == [SENTINEL] {
      MergeAppends(n.log, args.entries);
    } else {
      YReplacesBoth(n.log);
    }
  }

  lemma YReplacesBoth(log: Log)
    requires log == [SENTINEL, X, X2]
    ensures Merge(log, [Y]) == [SENTINEL] + [Y]
  {
    MergeOneStep(log, Y);
    assert log[..1] + [Y] == [SENTINEL] + [Y];
    assert [Y][1..] == [];
    assert Merge([SENTINEL] + [Y], []) == [SENTINEL] + [Y];
  }

  lemma FirstRequest(n: NodeState, p: NodeId, entry: LogEntry, id: NodeId, log: Log, term: nat)
    requires n.log == log && n.id == id && n.currentTerm == term && p in n.nextIndex && n.nextIndex[p] == 1
    requires WellFormed(log) && entry.index == |log| - 1 >= 1
    ensures BuildReplicate(n, p, entry, term, 0) == AppendEntriesArgs(term, id, 0, 0, log[1..], 0)
  {
    EntriesBetweenIsSlice(log, 1, entry.index);
  }

  lemma QuintetCollected(a: NodeId, b: NodeId, c: NodeId, d: NodeId, e: NodeId)
    requires Five(a, b, c, d, e)
    ensures Init(Quintet(a, b, c, d, e)).collected == map[a := [], b := [], c := [], d := [], e := []]
  {
    hide NewNode;
  }

  lemma QuintetInit(k: Discipline, a: NodeId, b: NodeId, c: NodeId, d: NodeId, e: NodeId) returns (s: State)
    requires Five(a, b, c, d, e)
    ensures Reachable(k, Quintet(a, b, c, d, e), s)
    ensures s.nodes.Keys == {a, b, c, d, e} && s.collected == map[a := [], b := [], c := [], d := [], e := []] && s.calls == []
    ensures s.nodes[a] == NewNode(a, [b, c, d, e]) && s.nodes[b] == NewNode(b, [a, c, d, e])
    ensures s.nodes[c] == NewNode(c, [a, b, d, e]) && s.nodes[d] == NewNode(d, [a, b, c, e])
    ensures s.nodes[e] == NewNode(e, [a, b, c, d])
  {
    QuintetValid(a, b, c, d, e);
    hide ValidMembership, Reachable, NewNode;
    ReachInit(k, Quintet(a, b, c, d, e));
    s := Init(Quintet(a, b, c, d, e));
    QuintetCollected(a, b, c, d, e);
  }

  /** a leads term 1 with the votes of c and d. */
  lemma Phase0(k: Discipline, a: NodeId, b: NodeId, c: NodeId, d: NodeId, e: NodeId) returns (s: State)
    requires Five(a, b, c, d, e)
    ensures Reachable(k, Quintet(a, b, c, d, e), s)
    ensures s.nodes.Keys == {a, b, c, d, e} && s.collected == map[a := [], b := [], c := [], d := [], e := []]
    ensures Looks(s.nodes[a], a, [b, c, d, e], 1, Leader, [SENTINEL])
    ensures Looks(s.nodes[b], b, [a, c, d, e], 0, Follower, [SENTINEL])
    ensures Looks(s.nodes[c], c, [a, b, d, e], 1, Follower, [SENTINEL])
    ensures Looks(s.nodes[d], d, [a, b, c, e], 1, Follower, [SENTINEL])
    ensures Looks(s.nodes[e], e, [a, b, c, d], 0, Follower, [SENTINEL])
    ensures s.calls == [] && forall p | p in [b, c, d, e] :: p in s.nodes[a].nextIndex && s.nodes[a].nextIndex[p] == 1
  {
    hide Reachable, BecomeLeader, Quintet;
    var peersOf := Quintet(a, b, c, d, e);
    var s0 := QuintetInit(k, a, b, c, d, e);
    s := Elect5(k, peersOf, s0, a, c, d);
    InOffice(Standing(s0.nodes[a]));
  }

  lemma AppendTwo(k: Discipline, peersOf: map<NodeId, seq<NodeId>>, s: State, a: NodeId) returns (s': State)
    requires a in s.nodes && s.nodes[a].id == a && s.nodes[a].role == Leader && s.nodes[a].currentTerm == 1
    requires s.nodes[a].log == [SENTINEL] && s.nodes[a].commitIndex == 0 && s.calls == []
    requires Reachable(k, peersOf, s)
    ensures Reachable(k, peersOf, s') && s'.collected == s.collected && s'.net == s.net && a in s'.nodes
    ensures s'.nodes == s.nodes[a := s'.nodes[a]]
    ensures s'.nodes[a] == s.nodes[a].(log := [SENTINEL, X, X2], matchIndex := s'.nodes[a].matchIndex)
    ensures |s'.calls| == 2 && s'.calls[1] == Call(a, X2, 0, {}, false)
  {
    hide Reachable;
    var s1 := Append(k, peersOf, s, a, "x");
    s' := Append(k, peersOf, s1, a, "x2");
    assert s'.nodes[a].log == [SENTINEL, X, X2];
  }

  /** b has confirmed a's two entries, unheard. */
  lemma Phase1(k: Discipline, a: NodeId, b: NodeId, c: NodeId, d: NodeId, e: NodeId) returns (s: State)
    requires Five(a, b, c, d, e)
    ensures Reachable(k, Quintet(a, b, c, d, e), s)
    ensures s.nodes.Keys == {a, b, c, d, e} && s.collected == map[a := [], b := [], c := [], d := [], e := []]
    ensures Looks(s.nodes[a], a, [b, c, d, e], 1, Leader, [SENTINEL, X, X2])
    ensures Looks(s.nodes[b], b, [a, c, d, e], 1, Follower, [SENTINEL, X, X2])
    ensures Looks(s.nodes[c], c, [a, b, d, e], 1, Follower, [SENTINEL])
    ensures Looks(s.nodes[d], d, [a, b, c, e], 1, Follower, [SENTINEL])
    ensures Looks(s.nodes[e], e, [a, b, c, d], 0, Follower, [SENTINEL])
    ensures |s.calls| == 2 && s.calls[1] == Call(a, X2, 0, {}, false) && LateReply(a, b) in s.net
  {
    hide Reachable, HandleAppendEntries, BuildReplicate, Quintet;
    var peersOf := Quintet(a, b, c, d, e);
    var s1 := Phase0(k, a, b, c, d, e);
    var s3 := AppendTwo(k, peersOf, s1, a);
    FirstRequest(s3.nodes[a], b, X2, a, [SENTINEL, X, X2], 1);
    assert [SENTINEL, X, X2][1..] == [X, X2];
    TakesFromStart(s3.nodes[b], XArgs(a));
    assert [SENTINEL] + [X, X2] == [SENTINEL, X, X2];
    s := SendAndDeliver(k, peersOf, s3, 1, b, XArgs(a));
  }

  /** c leads term 2 with the votes of d and e, and has an entry of its own. */
  lemma Phase2(k: Discipline, a: NodeId, b: NodeId, c: NodeId, d: NodeId, e: NodeId) returns (s: State)
    requires Five(a, b, c, d, e)
    ensures Reachable(k, Quintet(a, b, c, d, e), s)
    ensures s.nodes.Keys == {a, b, c, d, e} && s.collected == map[a := [], b := [], c := [], d := [], e := []]
    ensures Looks(s.nodes[a], a, [b, c, d, e], 1, Leader, [SENTINEL, X, X2])
    ensures Looks(s.nodes[b], b, [a, c, d, e], 1, Follower, [SENTINEL, X, X2])
    ensures Looks(s.nodes[c], c, [a, b, d, e], 2, Leader, [SENTINEL, Y])
    ensures Looks(s.nodes[d], d, [a, b, c, e], 2, Follower, [SENTINEL])
    ensures Looks(s.nodes[e], e, [a, b, c, d], 2, Follower, [SENTINEL])
    ensures |s.calls| == 3 && s.calls[1] == Call(a, X2, 0, {}, false) && s.calls[2] == Call(c, Y, 0, {}, false)
    ensures LateReply(a, b) in s.net
    ensures forall p | p in [a, b, d, e] :: p in s.nodes[c].nextIndex && s.nodes[c].nextIndex[p] == 1
  {
    hide Reachable, Quintet, LateReply, BecomeLeader;
    var peersOf := Quintet(a, b, c, d, e);
    var s1 := Phase1(k, a, b, c, d, e);
    var s2 := Elect5(k, peersOf, s1, c, d, e);
    InOffice(Standing(s1.nodes[c]));
    s := Append(k, peersOf, s2, c, "y");
  }

  /** p takes the entry of c, who leads term 2. */
  lemma TakeY(k: Discipline, peersOf: map<NodeId, seq<NodeId>>, s: State, c: NodeId, p: NodeId) returns (s': State)
    requires c in s.nodes && p in s.nodes && c != p && p in s.nodes[c].peers
    requires s.nodes[c].id == c && s.nodes[c].currentTerm == 2 && s.nodes[c].role == Leader && s.nodes[c].log == [SENTINEL, Y]
    requires p in s.nodes[c].nextIndex && s.nodes[c].nextIndex[p] == 1
    requires |s.calls| == 3 && s.calls[2] == Call(c, Y, 0, {}, false)
    requires s.nodes[p].log == [SENTINEL] || s.nodes[p].log == [SENTINEL, X, X2]
    requires s.nodes[p].role == Follower || s.nodes[p].currentTerm < 2
    requires s.nodes[p].currentTerm <= 2 && s.nodes[p].commitIndex == 0 && s.nodes[p].role != Candidate
    requires Reachable(k, peersOf, s)
    ensures Reachable(k, peersOf, s') && SameRest(s, s')
    ensures p in s'.nodes && s'.nodes == s.nodes[p := s'.nodes[p]]
    ensures Looks(s'.nodes[p].(lastApplied := 0), s.nodes[p].id, s.nodes[p].peers, 2, Follower, [SENTINEL, Y])
    ensures s'.nodes[p].lastApplied == s.nodes[p].lastApplied
  {
    hide Reachable, HandleAppendEntries, BuildReplicate;
    var args := AppendEntriesArgs(2, c, 0, 0, [Y], 0);
    assert [SENTINEL, Y][1..] == [Y] && [SENTINEL] + [Y] == [SENTINEL, Y];
    FirstRequest(s.nodes[c], p, Y, c, [SENTINEL, Y], 2);
    TakesFromStart(s.nodes[p], args);
    s' := SendAndDeliver(k, peersOf, s, 2, p, args);
  }

  /** All others have taken c's entry; a's two are gone. */
  lemma Phase3(k: Discipline, a: NodeId, b: NodeId, c: NodeId, d: NodeId, e: NodeId) returns (s: State)
    requires Five(a, b, c, d, e)
    ensures Reachable(k, Quintet(a, b, c, d, e), s)
    ensures s.nodes.Keys == {a, b, c, d, e} && s.collected == map[a := [], b := [], c := [], d := [], e := []]
    ensures Looks(s.nodes[a], a, [b, c, d, e], 2, Follower, [SENTINEL, Y])
    ensures Looks(s.nodes[b], b, [a, c, d, e], 2, Follower, [SENTINEL, Y])
    ensures Looks(s.nodes[c], c, [a, b, d, e], 2, Leader, [SENTINEL, Y])
    ensures Looks(s.nodes[d], d, [a, b, c, e], 2, Follower, [SENTINEL, Y])
    ensures Looks(s.nodes[e], e, [a, b, c, d], 2, Follower, [SENTINEL, Y])
    ensures |s.calls| == 3 && s.calls[1] == Call(a, X2, 0, {}, false) && LateReply(a, b) in s.net
  {
    hide Reachable, Quintet, LateReply;
    var peersOf := Quintet(a, b, c, d, e);
    var s1 := Phase2(k, a, b, c, d, e);
    var s2 := TakeY(k, peersOf, s1, c, a);
    var s3 := TakeY(k, peersOf, s2, c, b);
    var s4 := TakeY(k, peersOf, s3, c, d);
    s := TakeY(k, peersOf, s4, c, e);
  }

  /** a leads term 3 with the votes of c and d, and has appended an entry. */
  lemma Phase4(k: Discipline, a: NodeId, b: NodeId, c: NodeId, d: NodeId, e: NodeId) returns (s: State)
    requires Five(a, b, c, d, e)
    ensures Reachable(k, Quintet(a, b, c, d, e), s)
    ensures s.nodes.Keys == {a, b, c, d, e} && s.collected == map[a := [], b := [], c := [], d := [], e := []]
    ensures Looks(s.nodes[a], a, [b, c, d, e], 3, Leader, [SENTINEL, Y, Z3])
    ensures Looks(s.nodes[b], b, [a, c, d, e], 2, Follower, [SENTINEL, Y])
    ensures Looks(s.nodes[c], c, [a, b, d, e], 3, Follower, [SENTINEL, Y])
    ensures Looks(s.nodes[d], d, [a, b, c, e], 3, Follower, [SENTINEL, Y])
    ensures Looks(s.nodes[e], e, [a, b, c, d], 2, Follower, [SENTINEL, Y])
    ensures |s.calls| == 4 && s.calls[1] == Call(a, X2, 0, {}, false) && LateReply(a, b) in s.net
    ensures forall p | p in [b, c, d, e] ::
              && p in s.nodes[a].nextIndex && s.nodes[a].nextIndex[p] == 2
              && p in s.nodes[a].matchIndex && s.nodes[a].matchIndex[p] == 0
  {
    hide Reachable, Quintet, LateReply, BecomeLeader;
    var peersOf := Quintet(a, b, c, d, e);
    var s1 := Phase3(k, a, b, c, d, e);
    var s2 := Elect5(k, peersOf, s1, a, c, d);
    InOffice(Standing(s1.nodes[a]));
    s := Append(k, peersOf, s2, a, "z");
    assert s.nodes[a].log == [SENTINEL, Y, Z3];
  }

  lemma LateCredit(k: Discipline, peersOf: map<NodeId, seq<NodeId>>, s: State, a: NodeId, b: NodeId) returns (s': State)
    requires a in s.nodes && LateReply(a, b) in s.net && (!k.ownTerm || s.nodes[a].role != Leader)
    requires |s.calls| > 1 && s.calls[1] == Call(a, X2, 0, {}, false)
    requires b in s.nodes[a].matchIndex && s.nodes[a].matchIndex[b] == 0
    requires Reachable(k, peersOf, s)
    ensures Reachable(k, peersOf, s') && s'.collected == s.collected && s'.net == s.net
    ensures s'.nodes == s.nodes[a := s.nodes[a].(matchIndex := s.nodes[a].matchIndex[b := 2],
                                                 nextIndex := s.nodes[a].nextIndex[b := 3])]
    ensures |s'.calls| == |s.calls|
  {
    hide Reachable, LogsNonEmpty;
    s' := ReachStep(k, peersOf, s, ReplicateReply(LateReply(a, b)));
  }

  /** A node with c's entry takes one more entry after it. */
  lemma TakesSecond(n: NodeState, args: AppendEntriesArgs, x: LogEntry)
    requires n.log == [SENTINEL, Y] && n.currentTerm <= args.term && n.role == Follower
    requires args.prevLogIndex == 1 && args.prevLogTerm == 2 && args.entries == [x] && x.index == 2
    requires n.commitIndex == args.leaderCommit == 0
    ensures HandleAppendEntries(n, args) == (EnterTerm(n, args.term).(log := [SENTINEL, Y, x]), AppendEntriesReply(args.term, true))
  {
    ScanContiguous(n.log, 0, 1);
    MergeAppends(n.log, args.entries);
    assert n.log + [x] == [SENTINEL, Y, x];
  }

  lemma ZHeartbeat(n: NodeState, p: NodeId)
    requires n.log == [SENTINEL, Y, Z3] && p in n.nextIndex && n.nextIndex[p] == 2 && n.commitIndex == 0
    ensures BuildHeartbeat(n, p) == AppendEntriesArgs(n.currentTerm, n.id, 1, 2, [Z3], 0)
  {
    ScanIsIndexing(n.log, 1);
    ScanIsIndexing(n.log, 2);
    assert n.log[2..] == [Z3];
  }

  /** The successes of b and d for index 2 make up a majority of five. */
  lemma TwoSuccessesCommit(n: NodeState, b: NodeId, c: NodeId, d: NodeId, e: NodeId, leader: NodeId, z: LogEntry)
    requires b != c && b != d && b != e && c != d && c != e && d != e
    requires n.peers == [b, c, d, e] && n.log == [SENTINEL, Y, z] && z.term == n.currentTerm && z.index == 2 && n.commitIndex == 0
    requires b in n.matchIndex && n.matchIndex[b] == 2 && d in n.matchIndex && n.matchIndex[d] == 0
    ensures var n' := HandleHeartbeatReply(n, d, AppendEntriesArgs(3, leader, 1, 2, [Z3], 0), AppendEntriesReply(3, true));
            n' == n.(commitIndex := 2, nextIndex := n'.nextIndex, matchIndex := n'.matchIndex)
  {
    var n1 := RecordHeartbeat(n, d, 2);
    ScanContiguous(n.log, 0, 2);
    assert n1.peers[1..] == [c, d, e] && n1.peers[1..][1..] == [d, e] && n1.peers[1..][1..][1..] == [e];
    assert CountAtLeast([d, e], n1.matchIndex, 2) >= 1;
    assert CountAtLeast([c, d, e], n1.matchIndex, 2) >= 1;
    assert CountAtLeast(n1.peers, n1.matchIndex, 2) >= 2;
    assert Replicated(n1, 2);
    assert AdvanceFrom(n1, 3, 2, 2) == 2;
  }

  lemma CreditBeat(k: Discipline, peersOf: map<NodeId, seq<NodeId>>, s: State, m: Message) returns (s': State)
    requires m in s.net && m.AppendResponse? && m.call == None && m.args.leaderId in s.nodes && |s.nodes[m.args.leaderId].log| > 0
    requires var n := s.nodes[m.args.leaderId];
             if n.role == Leader then n.currentTerm == m.args.term else !k.leading
    requires Reachable(k, peersOf, s)
    ensures Reachable(k, peersOf, s') && s'.collected == s.collected && s'.net == s.net && s'.calls == s.calls
    ensures s'.nodes == s.nodes[m.args.leaderId := HandleHeartbeatReply(s.nodes[m.args.leaderId], m.peer, m.args, m.reply)]
  {
    hide Reachable, LogsNonEmpty, HandleHeartbeatReply;
    s' := ReachStep(k, peersOf, s, HeartbeatReply(m));
  }

  /** A node collects its whole log, all of it committed. */
  lemma GatherAll(k: Discipline, peersOf: map<NodeId, seq<NodeId>>, s: State, n: NodeId) returns (s': State)
    requires n in s.nodes && n in s.collected && WellFormed(s.nodes[n].log) && s.collected[n] == []
    requires s.nodes[n].lastApplied == 0 && s.nodes[n].commitIndex == |s.nodes[n].log| - 1
    requires Reachable(k, peersOf, s)
    ensures Reachable(k, peersOf, s') && s'.net == s.net && s'.calls == s.calls
    ensures s'.nodes == s.nodes[n := s.nodes[n].(lastApplied := s.nodes[n].commitIndex)]
    ensures s'.collected == s.collected[n := s.nodes[n].log[1..]]
  {
    hide Reachable, LogsNonEmpty, EntriesBetween, WellFormed;
    var log := s.nodes[n].log;
    EntriesBetweenIsSlice(log, 1, |log| - 1);
    s' := ReachStep(k, peersOf, s, CollectCommitted(n));
    assert [] + log[1..|log|] == log[1..];
  }

  ghost function BeatArgs(a: NodeId): AppendEntriesArgs { AppendEntriesArgs(3, a, 1, 2, [Z3], 0) }

  /** d's success of a's heartbeat of term 3, which a has not handled yet. */
  ghost function LateBeat(a: NodeId, d: NodeId): Message {
    AppendResponse(d, BeatArgs(a), None, AppendEntriesReply(3, true))
  }

  /** d has taken a's entry of term 3 and its success is on the way. */
  lemma Beaten(k: Discipline, a: NodeId, b: NodeId, c: NodeId, d: NodeId, e: NodeId) returns (s: State)
    requires Five(a, b, c, d, e)
    ensures Reachable(k, Quintet(a, b, c, d, e), s)
    ensures s.nodes.Keys == {a, b, c, d, e} && s.collected == map[a := [], b := [], c := [], d := [], e := []]
    ensures Looks(s.nodes[a], a, [b, c, d, e], 3, Leader, [SENTINEL, Y, Z3])
    ensures Looks(s.nodes[b], b, [a, c, d, e], 2, Follower, [SENTINEL, Y])
    ensures Looks(s.nodes[c], c, [a, b, d, e], 3, Follower, [SENTINEL, Y])
    ensures Looks(s.nodes[d], d, [a, b, c, e], 3, Follower, [SENTINEL, Y, Z3])
    ensures Looks(s.nodes[e], e, [a, b, c, d], 2, Follower, [SENTINEL, Y])
    ensures |s.calls| == 4 && s.calls[1] == Call(a, X2, 0, {}, false) && LateReply(a, b) in s.net && LateBeat(a, d) in s.net
    ensures forall p | p in [b, c, d, e] :: p in s.nodes[a].matchIndex && s.nodes[a].matchIndex[p] == 0
  {
    hide Reachable, Quintet, LateReply, HandleAppendEntries, BuildHeartbeat;
    var peersOf := Quintet(a, b, c, d, e);
    var s1 := Phase4(k, a, b, c, d, e);
    var s2 := Heartbeat(k, peersOf, s1, a, d);
    ZHeartbeat(s1.nodes[a], d);
    TakesSecond(s2.nodes[d], BeatArgs(a), Z3);
    s := Deliver(k, peersOf, s2, AppendRequest(d, BeatArgs(a), None));
  }

  /** a has credited b for entries b no longer holds, and d for the new one: a has
    * committed and collected an entry that only a and d hold. */
  lemma Phase5(k: Discipline, a: NodeId, b: NodeId, c: NodeId, d: NodeId, e: NodeId) returns (s: State)
    requires Five(a, b, c, d, e) && !k.ownTerm
    ensures Reachable(k, Quintet(a, b, c, d, e), s)
    ensures s.nodes.Keys == {a, b, c, d, e} && s.collected == map[a := [Y, Z3], b := [], c := [], d := [], e := []]
    ensures Looks(s.nodes[b], b, [a, c, d, e], 2, Follower, [SENTINEL, Y])
    ensures Looks(s.nodes[c], c, [a, b, d, e], 3, Follower, [SENTINEL, Y])
    ensures Looks(s.nodes[e], e, [a, b, c, d], 2, Follower, [SENTINEL, Y])
    ensures |s.calls| == 4
  {
    hide Reachable, Quintet, LateReply, HandleHeartbeatReply;
    var peersOf := Quintet(a, b, c, d, e);
    var s1 := Beaten(k, a, b, c, d, e);
    var s2 := LateCredit(k, peersOf, s1, a, b);
    TwoSuccessesCommit(s2.nodes[a], b, c, d, e, a, Z3);
    var s3 := CreditBeat(k, peersOf, s2, LateBeat(a, d));
    s := GatherAll(k, peersOf, s3, a);
    var none: seq<LogEntry> := [];
    assert [SENTINEL, Y, Z3][1..] == [Y, Z3];
    assert s3.collected[a := [Y, Z3]] == map[a := [Y, Z3], b := none, c := none, d := none, e := none];
  }

  /** A success answers call c of the leader, in the term of the call. */
  lemma Acknowledge(k: Discipline, peersOf: map<NodeId, seq<NodeId>>, s: State, c: nat, m: Message) returns (s': State)
    requires m in s.net && m.AppendResponse? && m.call == Some(c) && m.reply.success && m.reply.term == m.args.term
    requires c < |s.calls| && s.calls[c].leader in s.nodes && s.nodes[s.calls[c].leader].currentTerm == m.args.term
    requires Reachable(k, peersOf, s)
    ensures Reachable(k, peersOf, s') && s'.collected == s.collected && s'.net == s.net
    ensures s'.calls == s.calls[c := s.calls[c].(acks := s.calls[c].acks + {m.peer})]
    ensures s.calls[c].leader in s'.nodes && s'.nodes == s.nodes[s.calls[c].leader := s'.nodes[s.calls[c].leader]]
    ensures var n := s.nodes[s.calls[c].leader];
            var n' := s'.nodes[s.calls[c].leader];
            n' == n.(matchIndex := n'.matchIndex, nextIndex := n'.nextIndex)
  {
    hide Reachable, LogsNonEmpty;
    s' := ReachStep(k, peersOf, s, ReplicateReply(m));
  }

  lemma Finish(k: Discipline, peersOf: map<NodeId, seq<NodeId>>, s: State, c: nat) returns (s': State)
    requires c < |s.calls| && !s.calls[c].returned && s.calls[c].leader in s.nodes
    requires |s.calls[c].acks| + 1 >= Majority(s.nodes[s.calls[c].leader].peers)
    requires Reachable(k, peersOf, s)
    ensures Reachable(k, peersOf, s') && s'.collected == s.collected && s'.net == s.net
    ensures s'.calls == s.calls[c := s.calls[c].(returned := true)]
    ensures s'.nodes == s.nodes[s.calls[c].leader := CommitEntry(s.nodes[s.calls[c].leader], s.calls[c].entry.index)]
  {
    hide Reachable, LogsNonEmpty, CommitEntry;
    s' := ReachStep(k, peersOf, s, Return(c));
  }

  lemma SecondRequest(n: NodeState, p: NodeId, id: NodeId)
    requires n.log == [SENTINEL, Y, W4] && n.id == id && p in n.nextIndex && n.nextIndex[p] == 2
    ensures BuildReplicate(n, p, W4, 4, 0) == AppendEntriesArgs(4, id, 1, 2, [W4], 0)
  {
    EntriesBetweenIsSlice(n.log, 2, 2);
    ScanIsIndexing(n.log, 1);
    assert n.log[2..3] == [W4];
  }

  /** p takes c's new entry. */
  lemma TakeW(k: Discipline, peersOf: map<NodeId, seq<NodeId>>, s: State, c: NodeId, p: NodeId) returns (s': State)
    requires c in s.nodes && p in s.nodes && c != p && p in s.nodes[c].peers
    requires s.nodes[c].id == c && s.nodes[c].currentTerm == 4 && s.nodes[c].role == Leader && s.nodes[c].log == [SENTINEL, Y, W4]
    requires p in s.nodes[c].nextIndex && s.nodes[c].nextIndex[p] == 2
    requires |s.calls| == 5 && s.calls[4] == Call(c, W4, 0, {}, false)
    requires s.nodes[p].log == [SENTINEL, Y] && s.nodes[p].currentTerm <= 4
    requires s.nodes[p].role == Follower && s.nodes[p].commitIndex == 0
    requires Reachable(k, peersOf, s)
    ensures Reachable(k, peersOf, s') && SameRest(s, s')
    ensures p in s'.nodes && s'.nodes == s.nodes[p := s'.nodes[p]]
    ensures AppendResponse(p, AppendEntriesArgs(4, c, 1, 2, [W4], 0), Some(4), AppendEntriesReply(4, true)) in s'.net
  {
    hide Reachable, HandleAppendEntries, BuildReplicate;
    var args := AppendEntriesArgs(4, c, 1, 2, [W4], 0);
    SecondRequest(s.nodes[c], p, c);
    TakesSecond(s.nodes[p], args, W4);
    s' := SendAndDeliver(k, peersOf, s, 4, p, args);
  }

  /** c leads term 4 with the votes of b and e, who have taken its new entry. */
  lemma Phase6(k: Discipline, a: NodeId, b: NodeId, c: NodeId, d: NodeId, e: NodeId) returns (s: State)
    requires Five(a, b, c, d, e) && !k.ownTerm
    ensures Reachable(k, Quintet(a, b, c, d, e), s)
    ensures s.nodes.Keys == {a, b, c, d, e} && s.collected == map[a := [Y, Z3], b := [], c := [], d := [], e := []]
    ensures Looks(s.nodes[c], c, [a, b, d, e], 4, Leader, [SENTINEL, Y, W4])
    ensures |s.calls| == 5 && s.calls[4] == Call(c, W4, 0, {}, false)
    ensures AppendResponse(b, AppendEntriesArgs(4, c, 1, 2, [W4], 0), Some(4), AppendEntriesReply(4, true)) in s.net
    ensures AppendResponse(e, AppendEntriesArgs(4, c, 1, 2, [W4], 0), Some(4), AppendEntriesReply(4, true)) in s.net
  {
    hide Reachable, Quintet, BecomeLeader;
    var peersOf := Quintet(a, b, c, d, e);
    var s1 := Phase5(k, a, b, c, d, e);
    var s2 := Elect5(k, peersOf, s1, c, b, e);
    InOffice(Standing(s1.nodes[c]));
    var s3 := Append(k, peersOf, s2, c, "w");
    assert s3.nodes[c].log == [SENTINEL, Y, W4];
    var s4 := TakeW(k, peersOf, s3, c, b);
    s := TakeW(k, peersOf, s4, c, e);
  }

  /** A success that a node credits to itself in a later term makes it commit an entry
    * that no majority holds: State Machine Safety fails in a cluster of five, although
    * heartbeats are guarded and commits checked. */
  lemma LateReplyBreaksSafety(a: NodeId, b: NodeId, c: NodeId, d: NodeId, e: NodeId) returns (s: State)
    requires Five(a, b, c, d, e)
    ensures Reachable(Discipline(true, true, false, true), Quintet(a, b, c, d, e), s)
    ensures a in s.collected && s.collected[a] == [Y, Z3] && c in s.collected && s.collected[c] == [Y, W4]
  {
    hide Reachable, Quintet;
    var k := Discipline(true, true, false, true);
    var peersOf := Quintet(a, b, c, d, e);
    var args := AppendEntriesArgs(4, c, 1, 2, [W4], 0);
    var s1 := Phase6(k, a, b, c, d, e);
    var s2 := Acknowledge(k, peersOf, s1, 4, AppendResponse(b, args, Some(4), AppendEntriesReply(4, true)));
    var s3 := Acknowledge(k, peersOf, s2, 4, AppendResponse(e, args, Some(4), AppendEntriesReply(4, true)));
    assert s3.calls[4].acks == {b, e};
    var s4 := Finish(k, peersOf, s3, 4);
    s := GatherAll(k, peersOf, s4, c);
    assert [SENTINEL, Y, W4][1..] == [Y, W4];
  }

  // ---- A deposed leader's commit, in a cluster of five ----

  const V5 := LogEntry(5, 3, "v")

  /** A leader of an earlier term gives up its own entry for the present leader's. */
  lemma ReplacesSecond(n: NodeState, args: AppendEntriesArgs)
    requires n.log == [SENTINEL, Y, Z3] && n.currentTerm < args.term && n.commitIndex == args.leaderCommit == 0
    requires args.prevLogIndex == 1 && args.prevLogTerm == 2 && args.entries == [W4]
    ensures HandleAppendEntries(n, args).0 == BecomeFollower(n, args.term).(log := [SENTINEL, Y, W4])
  {
    ScanContiguous(n.log, 0, 1);
    MergeOneStep(n.log, W4);
    assert n.log[..2] + [W4] == [SENTINEL, Y, W4];
    assert args.entries[1..] == [];
    assert Merge([SENTINEL, Y, W4], []) == [SENTINEL, Y, W4];
  }

  /** c leads term 4 with the votes of b and e, and a has given up its entry for c's. */
  lemma Deposed1(k: Discipline, a: NodeId, b: NodeId, c: NodeId, d: NodeId, e: NodeId) returns (s: State)
    requires Five(a, b, c, d, e)
    ensures Reachable(k, Quintet(a, b, c, d, e), s)
    ensures s.nodes.Keys == {a, b, c, d, e} && s.collected == map[a := [], b := [], c := [], d := [], e := []]
    ensures Looks(s.nodes[a], a, [b, c, d, e], 4, Follower, [SENTINEL, Y, W4])
    ensures Looks(s.nodes[b], b, [a, c, d, e], 4, Follower, [SENTINEL, Y])
    ensures Looks(s.nodes[d], d, [a, b, c, e], 3, Follower, [SENTINEL, Y, Z3])
    ensures Looks(s.nodes[e], e, [a, b, c, d], 4, Follower, [SENTINEL, Y])
    ensures |s.calls| == 5 && s.calls[1] == Call(a, X2, 0, {}, false) && LateReply(a, b) in s.net && LateBeat(a, d) in s.net
    ensures forall p | p in [b, c, d, e] :: p in s.nodes[a].matchIndex && s.nodes[a].matchIndex[p] == 0
  {
    hide Reachable, Quintet, LateReply, LateBeat, BecomeLeader, HandleAppendEntries, BuildReplicate;
    var peersOf := Quintet(a, b, c, d, e);
    var args := AppendEntriesArgs(4, c, 1, 2, [W4], 0);
    var s1 := Beaten(k, a, b, c, d, e);
    var s2 := Elect5(k, peersOf, s1, c, b, e);
    InOffice(Standing(s1.nodes[c]));
    var s3 := Append(k, peersOf, s2, c, "w");
    assert s3.nodes[c].log == [SENTINEL, Y, W4];
    SecondRequest(s3.nodes[c], a, c);
    ReplacesSecond(s3.nodes[a], args);
    s := SendAndDeliver(k, peersOf, s3, 4, a, args);
  }

  /** a, a follower of term 4, has handled both late successes, and has committed and
    * collected an entry that only a and c hold. */
  lemma Deposed2(k: Discipline, a: NodeId, b: NodeId, c: NodeId, d: NodeId, e: NodeId) returns (s: State)
    requires Five(a, b, c, d, e) && !k.leading
    ensures Reachable(k, Quintet(a, b, c, d, e), s)
    ensures s.nodes.Keys == {a, b, c, d, e} && s.collected == map[a := [Y, W4], b := [], c := [], d := [], e := []]
    ensures s.nodes[a].currentTerm == 4 && s.nodes[a].log == [SENTINEL, Y, W4] && s.nodes[a].commitIndex == 2
    ensures Looks(s.nodes[b], b, [a, c, d, e], 4, Follower, [SENTINEL, Y])
    ensures Looks(s.nodes[d], d, [a, b, c, e], 3, Follower, [SENTINEL, Y, Z3])
    ensures Looks(s.nodes[e], e, [a, b, c, d], 4, Follower, [SENTINEL, Y])
    ensures |s.calls| == 5
  {
    hide Reachable, Quintet, LateReply, HandleHeartbeatReply;
    var peersOf := Quintet(a, b, c, d, e);
    var s1 := Deposed1(k, a, b, c, d, e);
    var s2 := LateCredit(k, peersOf, s1, a, b);
    TwoSuccessesCommit(s2.nodes[a], b, c, d, e, a, W4);
    var s3 := CreditBeat(k, peersOf, s2, LateBeat(a, d));
    s := GatherAll(k, peersOf, s3, a);
    var none: seq<LogEntry> := [];
    assert [SENTINEL, Y, W4][1..] == [Y, W4];
    assert s3.collected[a := [Y, W4]] == map[a := [Y, W4], b := none, c := none, d := none, e := none];
  }

  /** d, whose first campaign nobody heard, leads term 5 with the votes of b and e. */
  lemma Deposed3(k: Discipline, a: NodeId, b: NodeId, c: NodeId, d: NodeId, e: NodeId) returns (s: State)
    requires Five(a, b, c, d, e) && !k.leading
    ensures Reachable(k, Quintet(a, b, c, d, e), s)
    ensures s.nodes.Keys == {a, b, c, d, e} && s.collected == map[a := [Y, W4], b := [], c := [], d := [], e := []]
    ensures s.nodes[a].currentTerm == 4 && s.nodes[a].log == [SENTINEL, Y, W4] && s.nodes[a].commitIndex == 2
    ensures Looks(s.nodes[b], b, [a, c, d, e], 5, Follower, [SENTINEL, Y])
    ensures Looks(s.nodes[d], d, [a, b, c, e], 5, Leader, [SENTINEL, Y, Z3, V5])
    ensures Looks(s.nodes[e], e, [a, b, c, d], 5, Follower, [SENTINEL, Y])
    ensures |s.calls| == 6 && s.calls[5] == Call(d, V5, 0, {}, false)
    ensures forall p | p in [a, b, c, e] :: p in s.nodes[d].nextIndex && s.nodes[d].nextIndex[p] == 3
  {
    hide Reachable, Quintet, BecomeLeader;
    var peersOf := Quintet(a, b, c, d, e);
    var s1 := Deposed2(k, a, b, c, d, e);
    var s2 := Stand(k, peersOf, s1, d);
    var s3 := Elect5(k, peersOf, s2, d, b, e);
    InOffice(Standing(s2.nodes[d]));
    s := Append(k, peersOf, s3, d, "v");
    assert s.nodes[d].log == [SENTINEL, Y, Z3, V5];
  }

  lemma LastRequests(n: NodeState, p: NodeId, id: NodeId)
    requires n.log == [SENTINEL, Y, Z3, V5] && n.id == id && p in n.nextIndex
    ensures n.nextIndex[p] == 3 ==> BuildReplicate(n, p, V5, 5, 0) == AppendEntriesArgs(5, id, 2, 3, [V5], 0)
    ensures n.nextIndex[p] == 2 ==> BuildReplicate(n, p, V5, 5, 0) == AppendEntriesArgs(5, id, 1, 2, [Z3, V5], 0)
  {
    hide EntriesBetween, EntryAt;
    EntriesBetweenIsSlice(n.log, 3, 3);
    EntriesBetweenIsSlice(n.log, 2, 3);
    ScanIsIndexing(n.log, 1);
    ScanIsIndexing(n.log, 2);
    assert n.log[3..4] == [V5] && n.log[2..4] == [Z3, V5];
  }

  lemma LacksSecond(n: NodeState, args: AppendEntriesArgs)
    requires n.log == [SENTINEL, Y] && n.currentTerm == args.term && n.role == Follower && args.prevLogIndex == 2
    ensures HandleAppendEntries(n, args) == (n, AppendEntriesReply(args.term, false))
  {
    ScanContiguous(n.log, 0, 2);
  }

  lemma TakesTwo(n: NodeState, args: AppendEntriesArgs)
    requires n.log == [SENTINEL, Y] && n.currentTerm == args.term && n.role == Follower
    requires args.prevLogIndex == 1 && args.prevLogTerm == 2 && args.entries == [Z3, V5]
    requires n.commitIndex == args.leaderCommit == 0
    ensures HandleAppendEntries(n, args).1 == AppendEntriesReply(args.term, true)
  {
    ScanContiguous(n.log, 0, 1);
    hide Merge;
  }

  lemma Rebuff(k: Discipline, peersOf: map<NodeId, seq<NodeId>>, s: State, c: nat, m: Message) returns (s': State)
    requires m in s.net && m.AppendResponse? && m.call == Some(c) && m.reply == AppendEntriesReply(m.args.term, false)
    requires c < |s.calls| && s.calls[c].leader in s.nodes
    requires Reachable(k, peersOf, s)
    ensures Reachable(k, peersOf, s') && SameRest(s, s')
    ensures s'.nodes == s.nodes[s.calls[c].leader := BackOff(s.nodes[s.calls[c].leader], m.peer)]
  {
    hide Reachable, LogsNonEmpty;
    s' := ReachStep(k, peersOf, s, ReplicateReply(m));
  }

  /** p lacks d's second entry, so that d backs off by one, and then takes both. */
  lemma TakeBoth(k: Discipline, peersOf: map<NodeId, seq<NodeId>>, s: State, d: NodeId, p: NodeId) returns (s': State)
    requires d in s.nodes && p in s.nodes && d != p && p in s.nodes[d].peers
    requires s.nodes[d].id == d && s.nodes[d].currentTerm == 5 && s.nodes[d].role == Leader
    requires s.nodes[d].log == [SENTINEL, Y, Z3, V5] && p in s.nodes[d].nextIndex && s.nodes[d].nextIndex[p] == 3
    requires |s.calls| == 6 && s.calls[5] == Call(d, V5, 0, {}, false)
    requires s.nodes[p].log == [SENTINEL, Y] && s.nodes[p].currentTerm == 5
    requires s.nodes[p].role == Follower && s.nodes[p].commitIndex == 0
    requires Reachable(k, peersOf, s)
    ensures Reachable(k, peersOf, s') && SameRest(s, s')
    ensures p in s'.nodes && d in s'.nodes && s'.nodes == s.nodes[p := s'.nodes[p]][d := s'.nodes[d]]
    ensures s'.nodes[d] == s.nodes[d].(nextIndex := s.nodes[d].nextIndex[p := 2])
    ensures AppendResponse(p, AppendEntriesArgs(5, d, 1, 2, [Z3, V5], 0), Some(5), AppendEntriesReply(5, true)) in s'.net
  {
    hide Reachable, HandleAppendEntries, BuildReplicate;
    var first, second := AppendEntriesArgs(5, d, 2, 3, [V5], 0), AppendEntriesArgs(5, d, 1, 2, [Z3, V5], 0);
    LastRequests(s.nodes[d], p, d);
    LacksSecond(s.nodes[p], first);
    var s1 := SendAndDeliver(k, peersOf, s, 5, p, first);
    var s2 := Rebuff(k, peersOf, s1, 5, AppendResponse(p, first, Some(5), AppendEntriesReply(5, false)));
    LastRequests(s2.nodes[d], p, d);
    TakesTwo(s2.nodes[p], second);
    s' := SendAndDeliver(k, peersOf, s2, 5, p, second);
  }

  /** b and e have taken d's entries. */
  lemma Deposed4(k: Discipline, a: NodeId, b: NodeId, c: NodeId, d: NodeId, e: NodeId) returns (s: State)
    requires Five(a, b, c, d, e) && !k.leading
    ensures Reachable(k, Quintet(a, b, c, d, e), s)
    ensures s.nodes.Keys == {a, b, c, d, e} && s.collected == map[a := [Y, W4], b := [], c := [], d := [], e := []]
    ensures s.nodes[a].currentTerm == 4 && s.nodes[a].log == [SENTINEL, Y, W4] && s.nodes[a].commitIndex == 2
    ensures Looks(s.nodes[d], d, [a, b, c, e], 5, Leader, [SENTINEL, Y, Z3, V5])
    ensures |s.calls| == 6 && s.calls[5] == Call(d, V5, 0, {}, false)
    ensures AppendResponse(b, AppendEntriesArgs(5, d, 1, 2, [Z3, V5], 0), Some(5), AppendEntriesReply(5, true)) in s.net
    ensures AppendResponse(e, AppendEntriesArgs(5, d, 1, 2, [Z3, V5], 0), Some(5), AppendEntriesReply(5, true)) in s.net
  {
    hide Reachable, Quintet;
    var peersOf := Quintet(a, b, c, d, e);
    var s1 := Deposed3(k, a, b, c, d, e);
    var s2 := TakeBoth(k, peersOf, s1, d, b);
    s := TakeBoth(k, peersOf, s2, d, e);
  }

  /** A node that no longer leads, and handles a heartbeat's late success, counts match
    * indices of its former terms for an entry of the present one: State Machine Safety
    * fails in a cluster of five, although heartbeats are guarded, commits checked and
    * leaders credit successes in their own term only. */
  lemma DeposedCommitBreaksSafety(a: NodeId, b: NodeId, c: NodeId, d: NodeId, e: NodeId) returns (s: State)
    requires Five(a, b, c, d, e)
    ensures Reachable(Discipline(true, true, true, false), Quintet(a, b, c, d, e), s)
    // d leads a later term without the entry that a has committed
    ensures a in s.nodes && s.nodes[a].commitIndex == 2 && s.nodes[a].log == [SENTINEL, Y, W4]
    ensures d in s.nodes && s.nodes[d].role == Leader && s.nodes[d].currentTerm > s.nodes[a].currentTerm
    ensures s.nodes[d].log == [SENTINEL, Y, Z3, V5]
    // and both have applied their entry at index 2
    ensures a in s.collected && s.collected[a] == [Y, W4] && d in s.collected && s.collected[d] == [Y, Z3, V5]
  {
    hide Reachable, Quintet;
    var k := Discipline(true, true, true, false);
    var peersOf := Quintet(a, b, c, d, e);
    var args := AppendEntriesArgs(5, d, 1, 2, [Z3, V5], 0);
    var s3 := Deposed4(k, a, b, c, d, e);
    var s4 := Acknowledge(k, peersOf, s3, 5, AppendResponse(b, args, Some(5), AppendEntriesReply(5, true)));
    var s5 := Acknowledge(k, peersOf, s4, 5, AppendResponse(e, args, Some(5), AppendEntriesReply(5, true)));
    assert s5.calls[5].acks == {b, e};
    var s6 := Finish(k, peersOf, s5, 5);
    s := GatherAll(k, peersOf, s6, d);
    assert [SENTINEL, Y, Z3, V5][1..] == [Y, Z3, V5];
  }
}
