/** The mutable node of raft/raft.go, with the loops of raft/election.go and
  * raft/replication.go. Each method is a critical section under the node's lock
  * and does to the fields what the function of the same name does to the value. */
module RaftNodeImpl {
  import opened Options
  import opened RaftLog
  import opened RaftNode
  import opened RaftLogStore

  /** What one turn of the select in loopCandidate delivers. */
  datatype VoteEvent = Stopped | SteppedDown(higher: nat) | TimedOut | VoteResult(granted: bool, term: nat)

  /** One turn of the select in loopCandidate of `term`, with `votes` votes counted so
    * far: the node, the votes and whether the loop ends. At most one critical section
    * runs in a turn, on the node as it is by then. */
  function Turn(n: NodeState, term: nat, votes: nat, event: VoteEvent): (NodeState, nat, bool)
    requires |n.log| > 0
  {
    match event
    case Stopped => (n, votes, true)
    case TimedOut => (n, votes, true)
    case SteppedDown(higher) => (BecomeFollower(n, higher), votes, true)
    case VoteResult(granted, t) =>
      if t > term then (BecomeFollower(n, t), votes, true)
      else if !granted then (n, votes, false)
      else if votes + 1 >= Majority(n.peers) then (BecomeLeader(n, term), votes + 1, true)
      else (n, votes + 1, false)
  }

  /** The node after loopCandidate of `term` has counted `votes` votes and sees
    * `events`, with no other critical section in between. */
  function CountVotes(n: NodeState, term: nat, votes: nat, events: seq<VoteEvent>): NodeState
    requires |n.log| > 0
    decreases |events|
  {
    if events == [] then n
    else
      var (n', votes', done) := Turn(n, term, votes, events[0]);
      if done then n' else CountVotes(n, term, votes', events[1..])
  }

  function Granted(events: seq<VoteEvent>): nat {
    if events == [] then 0
    else (if events[0].VoteResult? && events[0].granted then 1 else 0) + Granted(events[1..])
  }

  /** An answer that does not end the loop by its term. */
  predicate IsAnswer(event: VoteEvent, term: nat) {
    event.VoteResult? && event.term <= term
  }

  predicate OnlyAnswers(events: seq<VoteEvent>, term: nat) {
    forall i | 0 <= i < |events| :: IsAnswer(events[i], term)
  }

  /** Up to and including event k there were only answers, and with event k their grants
    * first make up the majority. */
  predicate WonAt(peers: seq<NodeId>, term: nat, votes: nat, events: seq<VoteEvent>, k: nat) {
    && k < |events| && OnlyAnswers(events[..k + 1], term)
    && votes + Granted(events[..k]) < Majority(peers) <= votes + Granted(events[..k + 1])
  }

  /** Up to event k there were only answers, without a majority, and event k ends the
    * loop. */
  predicate LostAt(peers: seq<NodeId>, term: nat, votes: nat, events: seq<VoteEvent>, k: nat) {
    && k < |events| && OnlyAnswers(events[..k], term) && !IsAnswer(events[k], term)
    && votes + Granted(events[..k]) < Majority(peers)
  }

  lemma GrantedStep(events: seq<VoteEvent>, k: nat)
    requires 1 <= k <= |events|
    ensures Granted(events[..k]) == Granted([events[0]]) + Granted(events[1..][..k - 1])
  {
    assert events[..k][1..] == events[1..][..k - 1];
    assert [events[0]][1..] == [];
  }

  lemma OnlyAnswersStep(events: seq<VoteEvent>, term: nat, k: nat)
    requires 1 <= k <= |events|
    ensures OnlyAnswers(events[..k], term) <==> IsAnswer(events[0], term) && OnlyAnswers(events[1..][..k - 1], term)
  {
    assert events[..k] == [events[0]] + events[1..][..k - 1];
    OnlyAnswersJoin(events[0], events[1..][..k - 1], term);
  }

  lemma OnlyAnswersJoin(event: VoteEvent, rest: seq<VoteEvent>, term: nat)
    ensures OnlyAnswers([event] + rest, term) <==> IsAnswer(event, term) && OnlyAnswers(rest, term)
  {
    var all := [event] + rest;
    assert all[0] == event && forall i | 0 <= i < |rest| :: rest[i] == all[i + 1];
  }

  /** With a majority at event k, the node becomes leader, if it is still a candidate of
    * the term, whatever comes later. */
  lemma {:induction false} MajorityWins(n: NodeState, term: nat, votes: nat, events: seq<VoteEvent>, k: nat)
    requires |n.log| > 0 && WonAt(n.peers, term, votes, events, k)
    ensures CountVotes(n, term, votes, events) == BecomeLeader(n, term)
    decreases |events|
  {
    GrantedStep(events, k + 1);
    OnlyAnswersStep(events, term, k + 1);
    if k > 0 {
      GrantedStep(events, k);
      MajorityWins(n, term, votes + Granted([events[0]]), events[1..], k - 1);
      GrantedRises(events, 1, k);
    }
  }

  lemma {:induction false} GrantedRises(events: seq<VoteEvent>, i: nat, j: nat)
    requires i <= j <= |events|
    ensures Granted(events[..i]) <= Granted(events[..j])
    decreases i
  {
    if i > 0 {
      GrantedStep(events, i);
      GrantedStep(events, j);
      GrantedRises(events[1..], i - 1, j - 1);
    }
  }

  /** An event that ends the loop before there is a majority: stopping and the election
    * timer leave the node exactly as it was, and a higher term makes it a follower of
    * that term. Whatever comes later is not read. */
  lemma {:induction false} LoopEnds(n: NodeState, term: nat, votes: nat, events: seq<VoteEvent>, k: nat)
    requires |n.log| > 0 && LostAt(n.peers, term, votes, events, k)
    ensures CountVotes(n, term, votes, events) ==
            match events[k]
            case Stopped => n
            case TimedOut => n
            case SteppedDown(higher) => BecomeFollower(n, higher)
            case VoteResult(_, t) => BecomeFollower(n, t)
    decreases |events|
  {
    if k > 0 {
      OnlyAnswersStep(events, term, k);
      GrantedStep(events, k);
      GrantedRises(events, 1, k);
      LoopEnds(n, term, votes + Granted([events[0]]), events[1..], k - 1);
    }
  }

  /** Answers alone, without a majority, change nothing. */
  lemma {:induction false} NoMajority(n: NodeState, term: nat, votes: nat, events: seq<VoteEvent>)
    requires |n.log| > 0 && OnlyAnswers(events, term) && votes + Granted(events) < Majority(n.peers)
    ensures CountVotes(n, term, votes, events) == n
    decreases |events|
  {
    if events != [] {
      assert events[..|events|] == events && events[1..][..|events| - 1] == events[1..];
      OnlyAnswersStep(events, term, |events|);
      GrantedStep(events, |events|);
      NoMajority(n, term, votes + Granted([events[0]]), events[1..]);
    }
  }

  /** The three ways a loop can go. */
  lemma {:induction false} LoopGoes(peers: seq<NodeId>, term: nat, votes: nat, events: seq<VoteEvent>)
    requires votes < Majority(peers)
    ensures || (OnlyAnswers(events, term) && votes + Granted(events) < Majority(peers))
            || (exists k: nat :: WonAt(peers, term, votes, events, k))
            || (exists k: nat :: LostAt(peers, term, votes, events, k))
  {
    LoopGoesFrom(peers, term, votes, events, 0);
  }

  lemma {:induction false} LoopGoesFrom(peers: seq<NodeId>, term: nat, votes: nat, events: seq<VoteEvent>, i: nat)
    requires i <= |events| && OnlyAnswers(events[..i], term) && votes + Granted(events[..i]) < Majority(peers)
    ensures || (OnlyAnswers(events, term) && votes + Granted(events) < Majority(peers))
            || (exists k: nat :: WonAt(peers, term, votes, events, k))
            || (exists k: nat :: LostAt(peers, term, votes, events, k))
    decreases |events| - i
  {
    if i == |events| {
      assert events[..i] == events;
    } else if !IsAnswer(events[i], term) {
      assert LostAt(peers, term, votes, events, i);
    } else {
      assert events[..i + 1] == events[..i] + [events[i]];
      if votes + Granted(events[..i + 1]) >= Majority(peers) {
        assert WonAt(peers, term, votes, events, i);
      } else {
        LoopGoesFrom(peers, term, votes, events, i + 1);
      }
    }
  }

  /** loopCandidate makes a leader if and only if the node is still a candidate of the
    * term and the grants, its own vote included, reach a majority before anything else
    * ends the loop. */
  lemma LeaderIff(n: NodeState, term: nat, votes: nat, events: seq<VoteEvent>)
    requires |n.log| > 0 && n.role != Leader && votes < Majority(n.peers)
    ensures CountVotes(n, term, votes, events).role == Leader <==>
            n.role == Candidate && n.currentTerm == term && exists k: nat :: WonAt(n.peers, term, votes, events, k)
  {
    hide CountVotes, WonAt, LostAt;
    LoopGoes(n.peers, term, votes, events);
    if k: nat :| WonAt(n.peers, term, votes, events, k) {
      MajorityWins(n, term, votes, events, k);
    } else if k: nat :| LostAt(n.peers, term, votes, events, k) {
      LoopEnds(n, term, votes, events, k);
    } else {
      NoMajority(n, term, votes, events);
    }
  }

  /** The loop makes a leader only of a candidate still in its term that a majority, itself
    * included, voted for. */
  lemma {:induction false} WinsOnlyWithMajority(n: NodeState, term: nat, votes: nat, events: seq<VoteEvent>)
    requires |n.log| > 0 && n.role != Leader
    requires CountVotes(n, term, votes, events).role == Leader
    ensures votes + Granted(events) >= Majority(n.peers)
    ensures n.role == Candidate && n.currentTerm == term
    ensures CountVotes(n, term, votes, events) == BecomeLeader(n, term)
    decreases |events|
  {
    var e := events[0];
    if !(e.granted && votes + 1 >= Majority(n.peers)) {
      WinsOnlyWithMajority(n, term, if e.granted then votes + 1 else votes, events[1..]);
    }
  }

  lemma SetAllStep(m: map<NodeId, nat>, keys: seq<NodeId>, i: nat, value: nat)
    requires i < |keys|
    ensures SetAll(m, keys[..i + 1], value) == SetAll(m, keys[..i], value)[keys[i] := value]
  {
    assert keys[..i + 1] == keys[..i] + [keys[i]];
  }

  lemma SetAllEnds(m: map<NodeId, nat>, keys: seq<NodeId>, value: nat)
    ensures SetAll(m, keys[..0], value) == m
    ensures SetAll(m, keys[..|keys|], value) == SetAll(m, keys, value)
  {
    assert keys[..|keys|] == keys;
  }

  /** One lookup of a range of lookups. */
  lemma BetweenStep(before: seq<LogEntry>, log: Log, lo: nat, hi: nat)
    requires lo <= hi
    ensures before + EntriesBetween(log, lo, hi) ==
            before + (if RaftLog.EntryAt(log, lo).Some? then [RaftLog.EntryAt(log, lo).value] else [])
            + EntriesBetween(log, lo + 1, hi)
  {
    hide RaftLog.EntryAt;
  }

  lemma BetweenNothing(log: Log, lo: nat, hi: nat)
    requires lo > hi
    ensures EntriesBetween(log, lo, hi) == []
  {
  }

  class Node {
    const id: NodeId
    const peers: seq<NodeId>
    var currentTerm: nat
    var votedFor: NodeId
    var role: Role
    const log: LogStore
    var commitIndex: nat
    var lastApplied: nat
    var nextIndex: map<NodeId, nat>
    var matchIndex: map<NodeId, nat>
    var stepDowns: seq<nat>

    ghost function View(): NodeState
      reads this, log
    {
      NodeState(id, peers, currentTerm, votedFor, role, log.entries, commitIndex, lastApplied,
                nextIndex, matchIndex, stepDowns)
    }

    constructor (id: NodeId, peers: seq<NodeId>)
      ensures View() == NewNode(id, peers) && fresh(log)
    {
      this.id, this.peers := id, peers;
      currentTerm, votedFor, role := 0, "", Follower;
      commitIndex, lastApplied := 0, 0;
      nextIndex, matchIndex, stepDowns := map[], map[], [];
      log := new LogStore();
    }

    method BecomeFollower(term: nat)
      modifies this
      ensures View() == RaftNode.BecomeFollower(old(View()), term)
    {
      if term > currentTerm {
        currentTerm := term;
        votedFor := "";
      }
      role := Follower;
    }

    method SignalStepDown(term: nat)
      modifies this
      ensures View() == RaftNode.SignalStepDown(old(View()), term)
    {
      if |stepDowns| < STEP_DOWN_CAPACITY {
        stepDowns := stepDowns + [term];
      }
    }

    // ---- raft/election.go ----

    method StartElection() returns (args: RequestVoteArgs)
      requires |log.entries| > 0
      modifies this
      ensures View() == RaftNode.StartElection(old(View())) && args == VoteArgs(View())
    {
      currentTerm := currentTerm + 1;
      votedFor := id;
      var lastIdx, lastTerm := log.LastIndexAndTerm();
      args := RequestVoteArgs(currentTerm, id, lastIdx, lastTerm);
    }

    method BecomeLeader(term: nat)
      requires |log.entries| > 0
      modifies this
      ensures View() == RaftNode.BecomeLeader(old(View()), term)
    {
      hide SetAll;
      if currentTerm != term || role != Candidate {
        return;
      }
      role := Leader;
      var lastIdx, _ := log.LastIndexAndTerm();
      SetAllEnds(nextIndex, peers, lastIdx + 1);
      SetAllEnds(matchIndex, peers, 0);
      for i := 0 to |peers|
        invariant View() == old(View()).(role := Leader, nextIndex := nextIndex, matchIndex := matchIndex)
        invariant nextIndex == SetAll(old(nextIndex), peers[..i], lastIdx + 1)
        invariant matchIndex == SetAll(old(matchIndex), peers[..i], 0)
      {
        SetAllStep(old(nextIndex), peers, i, lastIdx + 1);
        SetAllStep(old(matchIndex), peers, i, 0);
        nextIndex := nextIndex[peers[i] := lastIdx + 1];
        matchIndex := matchIndex[peers[i] := 0];
      }
    }

    method ElectionTurn(term: nat, votes: nat, event: VoteEvent) returns (votes': nat, done: bool)
      requires |log.entries| > 0
      modifies this
      ensures (View(), votes', done) == Turn(old(View()), term, votes, event)
    {
      var majority := (|peers| + 1) / 2 + 1;
      votes' := votes;
      match event {
        case Stopped => return votes, true;
        case TimedOut => return votes, true;
        case SteppedDown(higher) =>
          BecomeFollower(higher);
          return votes, true;
        case VoteResult(granted, t) =>
          if t > term {
            BecomeFollower(t);
            return votes, true;
          }
          if granted {
            votes' := votes + 1;
            if votes' >= majority {
              BecomeLeader(term);
              return votes', true;
            }
          }
          return votes', false;
      }
    }

    /** The vote-counting loop of loopCandidate, started with its own vote; it takes at
      * most one turn per peer. */
    method RunElection(term: nat, events: seq<VoteEvent>)
      requires |log.entries| > 0 && |events| <= |peers|
      modifies this
      ensures View() == CountVotes(old(View()), term, 1, events)
    {
      var votes, done := 1, false;
      for i := 0 to |events|
        invariant View() == old(View())
        invariant CountVotes(old(View()), term, 1, events) == CountVotes(old(View()), term, votes, events[i..])
      {
        assert events[i..][1..] == events[i + 1..];
        votes, done := ElectionTurn(term, votes, events[i]);
        if done {
          return;
        }
      }
    }

    method HandleRequestVote(args: RequestVoteArgs) returns (reply: RequestVoteReply)
      requires |log.entries| > 0
      modifies this
      ensures (View(), reply) == RaftNode.HandleRequestVote(old(View()), args)
    {
      reply := RequestVoteReply(currentTerm, false);
      if args.term < currentTerm {
        return;
      }
      if args.term > currentTerm {
        BecomeFollower(args.term);
        reply := reply.(term := currentTerm);
      }
      var alreadyVoted := votedFor != "" && votedFor != args.candidateId;
      var myLastIdx, myLastTerm := log.LastIndexAndTerm();
      var logOK := args.lastLogTerm > myLastTerm
                   || (args.lastLogTerm == myLastTerm && args.lastLogIndex >= myLastIdx);
      if alreadyVoted || !logOK {
        return;
      }
      votedFor := args.candidateId;
      reply := reply.(voteGranted := true);
    }

    method HandleAppendEntries(args: AppendEntriesArgs) returns (reply: AppendEntriesReply)
      requires |log.entries| > 0
      modifies this, log
      ensures (View(), reply) == RaftNode.HandleAppendEntries(old(View()), args)
    {
      reply := AppendEntriesReply(currentTerm, false);
      if args.term < currentTerm {
        return;
      }
      if args.term > currentTerm {
        BecomeFollower(args.term);
        reply := reply.(term := currentTerm);
      }
      if role == Candidate {
        role := Follower;
      }
      ghost var n1 := EnterTerm(old(View()), args.term);
      assert View() == n1;
      if args.prevLogIndex > 0 {
        var prev := log.EntryAt(args.prevLogIndex);
        if prev.None? || prev.value.term != args.prevLogTerm {
          return;
        }
      }
      AppendWindow(args.entries);
      MergeNonEmpty(n1.log, args.entries);
      if args.leaderCommit > commitIndex {
        var last, _ := log.LastIndexAndTerm();
        commitIndex := Min(args.leaderCommit, last);
      }
      reply := reply.(success := true);
    }

    /** The conflict loop of HandleAppendEntries. */
    method AppendWindow(entries: seq<LogEntry>)
      modifies log
      ensures log.entries == Merge(old(log.entries), entries)
    {
      assert entries[0..] == entries;
      for i := 0 to |entries|
        invariant Merge(old(log.entries), entries) == Merge(log.entries, entries[i..])
      {
        assert entries[i..][1..] == entries[i + 1..];
        var existing := log.EntryAt(entries[i].index);
        if existing.Some? {
          if existing.value.term != entries[i].term {
            log.TruncateAfter(Dec64(entries[i].index));
            log.AppendEntry(entries[i]);
          }
        } else {
          log.AppendEntry(entries[i]);
        }
      }
    }

    // ---- raft/replication.go ----

    /** The first critical section of Replicate; None means not the leader. */
    method AppendCommand(command: Command) returns (entry: Option<LogEntry>)
      requires |log.entries| > 0
      modifies this, log
      ensures old(role) != Leader ==> entry == None && View() == old(View())
      ensures old(role) == Leader ==>
                entry == Some(NewEntry(old(View()), command)) && View() == RaftNode.AppendCommand(old(View()), command)
    {
      if role != Leader {
        return None;
      }
      var lastIdx, _ := log.LastIndexAndTerm();
      var e := LogEntry(currentTerm, lastIdx + 1, command);
      log.AppendEntry(e);
      matchIndex := matchIndex[id := e.index];
      return Some(e);
    }

    method TermBefore(prev: nat) returns (term: nat)
      ensures term == TermAt(log.entries, prev)
    {
      term := 0;
      if prev > 0 {
        var e := log.EntryAt(prev);
        if e.Some? { term := e.value.term; }
      }
    }

    /** The request of one round of replicateToPeer. */
    method BuildReplicate(peer: NodeId, entry: LogEntry, term: nat, leaderCommit: nat) returns (args: AppendEntriesArgs)
      ensures args == RaftNode.BuildReplicate(View(), peer, entry, term, leaderCommit)
    {
      var nextIdx := Lookup(nextIndex, peer);
      var entries := LookUpRange(nextIdx, entry.index);
      var prev := Dec64(nextIdx);
      var prevTerm := TermBefore(prev);
      args := AppendEntriesArgs(term, id, prev, prevTerm, entries, leaderCommit);
    }

    method LookUpRange(lo: nat, hi: nat) returns (entries: seq<LogEntry>)
      ensures entries == EntriesBetween(log.entries, lo, hi)
    {
      hide EntriesBetween, RaftLog.EntryAt;
      entries := [];
      var idx := lo;
      while idx <= hi
        invariant lo <= idx && (idx <= hi + 1 || idx == lo)
        invariant EntriesBetween(log.entries, lo, hi) == entries + EntriesBetween(log.entries, idx, hi)
      {
        BetweenStep(entries, log.entries, idx, hi);
        var e := log.EntryAt(idx);
        if e.Some? {
          entries := entries + [e.value];
        }
        idx := idx + 1;
      }
      BetweenNothing(log.entries, idx, hi);
    }

    method BuildHeartbeat(peer: NodeId) returns (args: AppendEntriesArgs)
      requires |log.entries| > 0
      ensures args == RaftNode.BuildHeartbeat(View(), peer)
    {
      var nextIdx := Lookup(nextIndex, peer);
      var lastIdx, _ := log.LastIndexAndTerm();
      var entries, prev, prevTerm := [], 0, 0;
      if nextIdx <= lastIdx {
        entries := log.EntriesFrom(nextIdx);
        prev := Dec64(nextIdx);
        prevTerm := TermBefore(prev);
      }
      args := AppendEntriesArgs(currentTerm, id, prev, prevTerm, entries, commitIndex);
    }

    method BackOff(peer: NodeId)
      modifies this
      ensures View() == RaftNode.BackOff(old(View()), peer)
    {
      if Lookup(nextIndex, peer) > 1 {
        nextIndex := nextIndex[peer := nextIndex[peer] - 1];
      }
    }

    method HandleReplicateReply(peer: NodeId, index: nat, term: nat, reply: AppendEntriesReply)
      modifies this
      ensures View() == RaftNode.HandleReplicateReply(old(View()), peer, index, term, reply)
    {
      if reply.term > term {
        SignalStepDown(reply.term);
      } else if reply.success {
        if index > Lookup(matchIndex, peer) {
          matchIndex := matchIndex[peer := index];
        }
        nextIndex := nextIndex[peer := index + 1];
      } else {
        BackOff(peer);
      }
    }

    method HandleHeartbeatReply(peer: NodeId, args: AppendEntriesArgs, reply: AppendEntriesReply)
      requires |log.entries| > 0
      modifies this
      ensures View() == RaftNode.HandleHeartbeatReply(old(View()), peer, args, reply)
    {
      if reply.term > args.term {
        SignalStepDown(reply.term);
        return;
      }
      if |args.entries| == 0 {
        return;
      }
      if reply.success {
        var newMatch := args.prevLogIndex + |args.entries|;
        if newMatch > Lookup(matchIndex, peer) {
          matchIndex := matchIndex[peer := newMatch];
          nextIndex := nextIndex[peer := newMatch + 1];
        }
        AdvanceCommitIndex();
      } else {
        BackOff(peer);
      }
    }

    method CountMatching(index: nat) returns (count: nat)
      ensures count == CountAtLeast(peers, matchIndex, index)
    {
      count := 0;
      assert peers[0..] == peers;
      for i := 0 to |peers|
        invariant CountAtLeast(peers, matchIndex, index) == count + CountAtLeast(peers[i..], matchIndex, index)
      {
        assert peers[i..][1..] == peers[i + 1..];
        if Lookup(matchIndex, peers[i]) >= index {
          count := count + 1;
        }
      }
    }

    method AdvanceCommitIndex()
      requires |log.entries| > 0
      modifies this
      ensures View() == AdvanceCommit(old(View()))
    {
      ghost var n := View();
      var lastIdx, _ := log.LastIndexAndTerm();
      var majority := (|peers| + 1) / 2 + 1;
      var idx := commitIndex + 1;
      while idx <= lastIdx
        invariant View() == n.(commitIndex := commitIndex)
        invariant AdvanceFrom(n, n.commitIndex + 1, lastIdx, n.commitIndex) == AdvanceFrom(n, idx, lastIdx, commitIndex)
      {
        var entry := log.EntryAt(idx);
        if entry.Some? && entry.value.term == currentTerm {
          var count := CountMatching(idx);
          if 1 + count >= majority {
            commitIndex := idx;
          }
        }
        idx := idx + 1;
      }
    }

    /** The critical section of applyCommitted. */
    method ApplyCommitted() returns (toApply: seq<LogEntry>)
      modifies this
      ensures View() == Collect(old(View())) && toApply == Batch(old(View()))
    {
      hide EntriesBetween, RaftLog.EntryAt;
      ghost var n := View();
      toApply := [];
      while lastApplied < commitIndex
        invariant View() == n.(lastApplied := lastApplied)
        invariant n.lastApplied <= lastApplied <= Max(n.lastApplied, n.commitIndex)
        invariant Batch(n) == toApply + EntriesBetween(n.log, lastApplied + 1, n.commitIndex)
      {
        BetweenStep(toApply, n.log, lastApplied + 1, n.commitIndex);
        lastApplied := lastApplied + 1;
        var e := log.EntryAt(lastApplied);
        if e.Some? {
          toApply := toApply + [e.value];
        }
      }
      BetweenNothing(n.log, lastApplied + 1, n.commitIndex);
    }

    /** The critical section of Replicate once a majority has confirmed. */
    method CommitEntry(index: nat)
      modifies this
      ensures View() == RaftNode.CommitEntry(old(View()), index)
    {
      if index > commitIndex {
        commitIndex := index;
      }
    }
  }
}
