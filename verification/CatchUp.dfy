/** The retry loop of replicateToPeer, and the rounds of the leader's heartbeat loop,
  * against one reachable follower: they back off until the follower's log matches, and
  * then the two logs agree. */
module CatchUp {
  import opened RaftLog
  import opened RaftNode
  import opened RaftNodeImpl
  import opened Cluster
  import opened Elections
  import opened Handlers
  import opened Replication

  /** The follower has the leader's entry before `next`, so a request from `next` passes
    * its check. */
  predicate HasPrevious(leader: Log, follower: Log, next: nat) {
    next == 1 || (1 < next <= |leader| && next <= |follower| && follower[next - 1].term == leader[next - 1].term)
  }

  /** One round: the leader's request, handled by the follower. */
  function Round(leader: NodeState, follower: NodeState, peer: NodeId, entry: LogEntry, commit: nat): (NodeState, AppendEntriesReply)
    requires |follower.log| > 0
  {
    HandleAppendEntries(follower, BuildReplicate(leader, peer, entry, leader.currentTerm, commit))
  }

  /** A rejected round leaves the follower's log alone and leaves room to back off;
    * an accepted one makes the logs agree through the entry. */
  lemma RoundOutcome(leader: NodeState, follower: NodeState, peer: NodeId, entry: LogEntry, commit: nat)
    requires GapFree(leader) && GapFree(follower) && LogsMatch(follower.log, leader.log)
    requires peer in leader.nextIndex && 1 <= entry.index < |leader.log|
    requires follower.currentTerm <= leader.currentTerm
    ensures var (f, reply) := Round(leader, follower, peer, entry, commit);
            && reply.term == leader.currentTerm == f.currentTerm && GapFree(f)
            && (reply.success <==> HasPrevious(leader.log, follower.log, leader.nextIndex[peer]))
            && (reply.success ==> Agree(f.log, leader.log, entry.index))
            && (!reply.success ==> f.log == follower.log && leader.nextIndex[peer] > 1)
  {
    var t := leader.currentTerm;
    var args := BuildReplicate(leader, peer, entry, t, commit);
    var h := History(map[], map[], map[t := leader.log], map[]);
    ReplicateWindow(h, leader, peer, entry, commit);
    ReplicateIsGood(leader, peer, entry, t, commit);
    HandleKeepsGapFree(follower, args);
    ReplyTerm(follower, args);
    assert leader.nextIndex[peer] == 1 ==> args.prevLogIndex == 0;
    ReplicateAnswered(leader, follower, peer, entry, commit);
    hide BuildReplicate, HandleAppendEntries, GapFree, GoodArgs, EntryAt, Merge, WellFormed;
    HandleEffect(follower, args);
    if Round(leader, follower, peer, entry, commit).1.success {
      AcceptedAgrees(leader, follower, args);
    }
  }

  lemma ReplicateAnswered(leader: NodeState, follower: NodeState, peer: NodeId, entry: LogEntry, commit: nat)
    requires GapFree(leader) && GapFree(follower) && |follower.log| > 0
    requires peer in leader.nextIndex && follower.currentTerm <= leader.currentTerm
    ensures Round(leader, follower, peer, entry, commit).1.success <==>
            HasPrevious(leader.log, follower.log, leader.nextIndex[peer])
  {
    NextIndexPositive(leader, peer);
    LogNonEmpty(leader);
    ReplicateShape(leader, peer, entry, leader.currentTerm, commit);
    AppendEntriesAnswer(follower, BuildReplicate(leader, peer, entry, leader.currentTerm, commit));
    if leader.nextIndex[peer] <= |follower.log| {
      TermsAbove(follower, leader.nextIndex[peer] - 1);
    }
    hide BuildReplicate, HandleAppendEntries, GapFree, WellFormed;
  }

  lemma ReplyTerm(n: NodeState, args: AppendEntriesArgs)
    requires |n.log| > 0 && n.currentTerm <= args.term
    ensures var (f, reply) := HandleAppendEntries(n, args);
            && reply.term == args.term == f.currentTerm
            && (args.prevLogIndex == 0 ==> reply.success)
  {
    hide Merge, EntryAt;
  }

  lemma AcceptedAgrees(leader: NodeState, follower: NodeState, args: AppendEntriesArgs)
    requires GapFree(leader) && GapFree(follower) && LogsMatch(follower.log, leader.log)
    requires IsDud(args) || (IsWindow(leader.log, args.prevLogIndex, args.entries)
                             && args.prevLogTerm == leader.log[args.prevLogIndex].term)
    requires PrevMatches(follower.log, args)
    ensures !IsDud(args) && Agree(Merge(follower.log, args.entries), leader.log, LastSent(args))
  {
    hide EntryAt, Merge;
    ScanIsIndexing(follower.log, args.prevLogIndex);
    assert Agree(follower.log, leader.log, args.prevLogIndex);
    MergeWindow(follower.log, leader.log, args.prevLogIndex, args.entries);
  }

  /** replicateToPeer with a reachable follower and no other writer of nextIndex: it
    * succeeds exactly when the node leads `term` and the follower is not ahead of it,
    * with the first request whose predecessor the follower has, and then both logs agree
    * through the entry. A node that does not lead sends nothing; one behind the follower
    * only queues the follower's term. */
  method ReplicateToPeer(leader: Node, follower: Node, entry: LogEntry, term: nat, commit: nat)
    returns (ok: bool, rejections: nat)
    requires leader != follower && leader.log != follower.log
    requires GapFree(leader.View()) && GapFree(follower.View())
    requires LogsMatch(follower.log.entries, leader.log.entries)
    requires follower.id in leader.nextIndex && 1 <= entry.index < |leader.log.entries|
    modifies leader, follower, follower.log
    ensures leader.log.entries == old(leader.log.entries)
    ensures ok <==> old(leader.role) == Leader && old(leader.currentTerm) == term && old(follower.currentTerm) <= term
    ensures rejections < old(leader.nextIndex[follower.id])
    ensures ok ==>
              && var first := old(leader.nextIndex[follower.id]) - rejections;
              && HasPrevious(leader.log.entries, old(follower.log.entries), first)
              && forall i: nat | first < i <= old(leader.nextIndex[follower.id]) ::
                   !HasPrevious(leader.log.entries, old(follower.log.entries), i)
    ensures !ok ==>
              && rejections == 0 && follower.View() == old(follower.View())
              && if old(leader.role) == Leader && old(leader.currentTerm) == term
                 then Queues(old(leader.View()), leader.View(), follower.currentTerm)
                 else leader.View() == old(leader.View())
    ensures ok ==>
              && Agree(follower.log.entries, leader.log.entries, entry.index)
              && follower.currentTerm == term
              && leader.View() == old(leader.View()).(
                   matchIndex := leader.matchIndex,
                   nextIndex := old(leader.nextIndex)[follower.id := entry.index + 1])
              && Lookup(leader.matchIndex, follower.id) == Max(old(Lookup(leader.matchIndex, follower.id)), entry.index)
  {
    hide GapFree, RaftNode.HandleAppendEntries, RaftNode.BuildReplicate, RaftNode.HandleReplicateReply, LogsMatch,
      Agree, HasPrevious;
    var peer := follower.id;
    NextIndexPositive(leader.View(), peer);
    rejections := 0;
    ok := false;
    while true
      invariant leader.View() == old(leader.View()).(nextIndex := leader.nextIndex)
      invariant peer in leader.nextIndex && 1 <= leader.nextIndex[peer]
      invariant leader.nextIndex == old(leader.nextIndex)[peer := leader.nextIndex[peer]]
      invariant rejections + leader.nextIndex[peer] == old(leader.nextIndex[peer])
      invariant forall i: nat | leader.nextIndex[peer] < i <= old(leader.nextIndex[peer]) ::
                  !HasPrevious(leader.log.entries, old(follower.log.entries), i)
      invariant GapFree(leader.View()) && GapFree(follower.View())
      invariant follower.log.entries == old(follower.log.entries)
      invariant rejections == 0 ==> follower.View() == old(follower.View())
      invariant rejections > 0 ==> leader.role == Leader && leader.currentTerm == term && follower.currentTerm <= term
      invariant old(follower.currentTerm) <= term <==> follower.currentTerm <= term
      invariant !ok
      decreases leader.nextIndex[peer]
    {
      if leader.currentTerm != term || leader.role != Leader {
        return;
      }
      LogNonEmpty(follower.View());
      ghost var l, f := leader.View(), follower.View();
      var args := leader.BuildReplicate(peer, entry, term, commit);
      if f.currentTerm <= term {
        RoundOutcome(l, f, peer, entry, commit);
      } else {
        StaleRequest(f, args) by { RequestTerm(l, peer, entry, term, commit); }
      }
      var reply := follower.HandleAppendEntries(args);
      var atStart := leader.nextIndex[peer] <= 1;
      leader.HandleReplicateReply(peer, entry.index, term, reply);
      ReplicateReplyLaw(l, peer, entry.index, term, reply);
      if reply.term > term {
        return;
      }
      if reply.success {
        ok := true;
        return;
      }
      if atStart {
        return;
      }
      BackOffGapFree(l, peer);
      rejections := rejections + 1;
    }
  }

  lemma NextIndexPositive(n: NodeState, peer: NodeId)
    requires GapFree(n) && peer in n.nextIndex
    ensures 1 <= n.nextIndex[peer]
  {
  }

  lemma LogNonEmpty(n: NodeState)
    requires GapFree(n)
    ensures |n.log| > 0
  {
  }

  lemma RequestTerm(n: NodeState, peer: NodeId, entry: LogEntry, term: nat, commit: nat)
    ensures BuildReplicate(n, peer, entry, term, commit).term == term
  {
  }

  lemma StaleRequest(n: NodeState, args: AppendEntriesArgs)
    requires |n.log| > 0 && args.term < n.currentTerm
    ensures HandleAppendEntries(n, args) == (n, AppendEntriesReply(n.currentTerm, false))
  {
  }

  lemma BackOffGapFree(n: NodeState, peer: NodeId)
    requires GapFree(n)
    ensures GapFree(BackOff(n, peer))
  {
  }

  // ---- Heartbeat rounds ----

  /** The leader `l` after an accepted round: what it sent is credited, if that is news. */
  ghost predicate Credited(leader: NodeState, l: NodeState, peer: NodeId) {
    var last := |leader.log| - 1;
    && l == leader.(matchIndex := l.matchIndex, nextIndex := l.nextIndex, commitIndex := l.commitIndex)
    && (last > Lookup(leader.matchIndex, peer) ==>
          l.matchIndex == leader.matchIndex[peer := last] && l.nextIndex == leader.nextIndex[peer := last + 1])
    && (last <= Lookup(leader.matchIndex, peer) ==>
          l.matchIndex == leader.matchIndex && l.nextIndex == leader.nextIndex)
  }

  /** What one heartbeat round does while entries are outstanding: an accepted one makes
    * the logs agree through the leader's last index and credits that index; a rejected one
    * leaves the follower's log alone and lowers the next index by exactly one. */
  lemma HeartbeatRound(leader: NodeState, follower: NodeState, peer: NodeId)
    requires GapFree(leader) && GapFree(follower) && LogsMatch(follower.log, leader.log)
    requires peer in leader.nextIndex && leader.nextIndex[peer] < |leader.log|
    requires follower.currentTerm <= leader.currentTerm
    ensures |leader.log| > 0 && |follower.log| > 0
    ensures var args := BuildHeartbeat(leader, peer);
            var (f, reply) := HandleAppendEntries(follower, args);
            var l := HandleHeartbeatReply(leader, peer, args, reply);
            && f.currentTerm == leader.currentTerm && GapFree(l) && GapFree(f)
            && (reply.success <==> HasPrevious(leader.log, follower.log, leader.nextIndex[peer]))
            && (reply.success ==> Agree(f.log, leader.log, |leader.log| - 1) && Credited(leader, l, peer))
            && (!reply.success ==>
                  && f.log == follower.log && 1 < leader.nextIndex[peer]
                  && l == leader.(nextIndex := leader.nextIndex[peer := leader.nextIndex[peer] - 1]))
  {
    LogNonEmpty(leader);
    LogNonEmpty(follower);
    NextIndexPositive(leader, peer);
    HeartbeatAnswered(leader, follower, peer);
    var args := BuildHeartbeat(leader, peer);
    var reply := HandleAppendEntries(follower, args).1;
    HeartbeatShape(leader, peer);
    hide BuildHeartbeat, HandleAppendEntries, GapFree, LogsMatch, Agree, HandleHeartbeatReply, Credited, WellFormed;
    HeartbeatReplyKeepsGapFree(leader, peer, args, reply);
    AnswerHandled(leader, peer, args, reply);
  }

  lemma HeartbeatAnswered(leader: NodeState, follower: NodeState, peer: NodeId)
    requires GapFree(leader) && GapFree(follower) && LogsMatch(follower.log, leader.log)
    requires peer in leader.nextIndex && 1 <= leader.nextIndex[peer] < |leader.log| && |follower.log| > 0
    requires follower.currentTerm <= leader.currentTerm
    ensures var (f, reply) := HandleAppendEntries(follower, BuildHeartbeat(leader, peer));
            && f.currentTerm == reply.term == leader.currentTerm && GapFree(f)
            && (reply.success <==> HasPrevious(leader.log, follower.log, leader.nextIndex[peer]))
            && (reply.success ==> Agree(f.log, leader.log, |leader.log| - 1))
            && (!reply.success ==> f.log == follower.log)
  {
    var args := BuildHeartbeat(leader, peer);
    HeartbeatCarriesRest(leader, peer);
    HeartbeatIsGood(leader, peer);
    AppendEntriesAnswer(follower, args);
    HandleKeepsGapFree(follower, args);
    hide BuildHeartbeat, HandleAppendEntries, GapFree, GoodArgs, PrevMatches, Merge, WellFormed, LogsMatch, Agree, IsWindow, IsDud;
    HandleEffect(follower, args);
    if HandleAppendEntries(follower, args).1.success {
      AcceptedAgrees(leader, follower, args);
    }
  }

  lemma HeartbeatCarriesRest(n: NodeState, p: NodeId)
    requires GapFree(n) && p in n.nextIndex && 1 <= n.nextIndex[p] < |n.log|
    ensures var args := BuildHeartbeat(n, p);
            && args.term == n.currentTerm && args.prevLogIndex == n.nextIndex[p] - 1
            && args.prevLogTerm == n.log[args.prevLogIndex].term
            && !IsDud(args) && IsWindow(n.log, args.prevLogIndex, args.entries) && LastSent(args) == |n.log| - 1
  {
    HeartbeatShape(n, p);
    TermsAbove(n, n.nextIndex[p] - 1);
    hide BuildHeartbeat, GapFree;
  }

  lemma TermsAbove(n: NodeState, i: nat)
    requires GapFree(n) && i < |n.log|
    ensures i > 0 ==> n.log[i].term > 0
  {
  }

  lemma AnswerHandled(leader: NodeState, peer: NodeId, args: AppendEntriesArgs, reply: AppendEntriesReply)
    requires peer in leader.nextIndex && 1 <= leader.nextIndex[peer] < |leader.log|
    requires args.prevLogIndex == leader.nextIndex[peer] - 1 && args.entries == leader.log[leader.nextIndex[peer]..]
    requires reply.term <= args.term
    ensures var l := HandleHeartbeatReply(leader, peer, args, reply);
            && (reply.success ==> Credited(leader, l, peer))
            && (!reply.success ==>
                  l == if leader.nextIndex[peer] > 1
                       then leader.(nextIndex := leader.nextIndex[peer := leader.nextIndex[peer] - 1])
                       else leader)
  {
    hide AdvanceFrom;
  }

  /** The rounds of loopLeader's ticker with one reachable follower that is not ahead of
    * the leader and lacks something, up to the first that is accepted, with no other
    * writer of nextIndex. Each rejection lowers the next index by one; the round that is
    * accepted is the first whose predecessor the follower has. */
  method HeartbeatUntilAccepted(leader: Node, follower: Node) returns (rejections: nat)
    requires leader != follower && leader.log != follower.log
    requires GapFree(leader.View()) && GapFree(follower.View())
    requires LogsMatch(follower.log.entries, leader.log.entries)
    requires leader.role == Leader && follower.currentTerm <= leader.currentTerm
    requires follower.id in leader.nextIndex && leader.nextIndex[follower.id] < |leader.log.entries|
    modifies leader, follower, follower.log
    ensures leader.log.entries == old(leader.log.entries)
    ensures rejections < old(leader.nextIndex[follower.id])
    ensures var first := old(leader.nextIndex[follower.id]) - rejections;
            && HasPrevious(leader.log.entries, old(follower.log.entries), first)
            && forall i: nat | first < i <= old(leader.nextIndex[follower.id]) ::
                 !HasPrevious(leader.log.entries, old(follower.log.entries), i)
    ensures |leader.log.entries| > 0
    ensures Agree(follower.log.entries, leader.log.entries, |leader.log.entries| - 1)
    ensures follower.currentTerm == leader.currentTerm
    ensures var last, before := |leader.log.entries| - 1, old(Lookup(leader.matchIndex, follower.id));
            && Lookup(leader.matchIndex, follower.id) == Max(before, last)
            && leader.nextIndex == old(leader.nextIndex)[
                 follower.id := if last > before then last + 1 else old(leader.nextIndex[follower.id]) - rejections]
            && leader.View() == old(leader.View()).(
                 matchIndex := leader.matchIndex, nextIndex := leader.nextIndex, commitIndex := leader.commitIndex)
  {
    hide GapFree, RaftNode.HandleAppendEntries, RaftNode.BuildHeartbeat, RaftNode.HandleHeartbeatReply, LogsMatch, Agree,
      HasPrevious;
    var peer := follower.id;
    NextIndexPositive(leader.View(), peer);
    rejections := 0;
    while true
      invariant leader.View() == old(leader.View()).(nextIndex := leader.nextIndex)
      invariant peer in leader.nextIndex && 1 <= leader.nextIndex[peer]
      invariant leader.nextIndex == old(leader.nextIndex)[peer := leader.nextIndex[peer]]
      invariant rejections + leader.nextIndex[peer] == old(leader.nextIndex[peer])
      invariant forall i: nat | leader.nextIndex[peer] < i <= old(leader.nextIndex[peer]) ::
                  !HasPrevious(leader.log.entries, old(follower.log.entries), i)
      invariant GapFree(leader.View()) && GapFree(follower.View())
      invariant follower.log.entries == old(follower.log.entries)
      invariant follower.currentTerm <= leader.currentTerm
      decreases leader.nextIndex[peer]
    {
      HeartbeatRound(leader.View(), follower.View(), peer);
      var args := leader.BuildHeartbeat(peer);
      var reply := follower.HandleAppendEntries(args);
      leader.HandleHeartbeatReply(peer, args, reply);
      if reply.success {
        return;
      }
      rejections := rejections + 1;
    }
  }

  /** With nothing outstanding, a heartbeat leaves the leader and the follower's log as
    * they are, and lets the follower's commit index rise to the leader's, but not beyond
    * its log. */
  lemma QuietRound(leader: NodeState, follower: NodeState, peer: NodeId)
    requires GapFree(leader) && GapFree(follower)
    requires peer in leader.nextIndex && |leader.log| <= leader.nextIndex[peer]
    requires follower.currentTerm <= leader.currentTerm
    ensures |leader.log| > 0 && |follower.log| > 0
    ensures var args := BuildHeartbeat(leader, peer);
            var (f, reply) := HandleAppendEntries(follower, args);
            && reply.success && HandleHeartbeatReply(leader, peer, args, reply) == leader
            && f.log == follower.log && f.currentTerm == leader.currentTerm
            && f.commitIndex == if leader.commitIndex > follower.commitIndex
                                then Min(leader.commitIndex, LastIndex(follower.log)) else follower.commitIndex
  {
    LogNonEmpty(leader);
    LogNonEmpty(follower);
    HeartbeatShape(leader, peer);
    hide BuildHeartbeat, EntryAt;
  }
}
