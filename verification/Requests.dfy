/** What AppendEntries requests carry, from the moment one is built to the moment it
  * is handled, in runs of the code. */
module Requests {
  import opened RaftLog
  import opened RaftNode
  import opened Cluster
  import opened Elections
  import opened ElectionSafety
  import opened Replication
  import opened ReplicationSafety

  /** A request is a window of its sender's log just after prevLogIndex, and carries
    * the term found there, or zero if the log does not reach so far. */
  ghost predicate CarriesWindow(n: NodeState, args: AppendEntriesArgs) {
    && (forall k | 0 <= k < |args.entries| ::
          args.prevLogIndex + 1 + k < |n.log| && args.entries[k] == n.log[args.prevLogIndex + 1 + k])
    && args.prevLogTerm == (if args.prevLogIndex < |n.log| then n.log[args.prevLogIndex].term else 0)
  }

  lemma SenderGapFree(d: Discipline, peersOf: map<NodeId, seq<NodeId>>, r: Run, i: nat, n: NodeId)
    requires IsRun(d, peersOf, r) && i < |r.states| && n in r.states[i].nodes
    ensures GapFree(r.states[i].nodes[n])
  {
    hide IsRun, ElectionInv;
    RunElectionInv(d, peersOf, r, i);
  }

  lemma EventEnabled(d: Discipline, peersOf: map<NodeId, seq<NodeId>>, r: Run, i: nat)
    requires IsRun(d, peersOf, r) && i < |r.events|
    ensures i < |r.states| && Enabled(r.states[i], r.events[i])
  {
    hide Enabled, Step, Allowed;
    assert IsStep(d, r.states[i], r.events[i], r.states[i + 1]);
  }

  /** Every heartbeat of every run is such a window, that starts at the next index and
    * runs to the end of the log, or is empty because there is nothing to send. */
  lemma HeartbeatsAreWindows(d: Discipline, peersOf: map<NodeId, seq<NodeId>>, r: Run, i: nat, n: NodeId, p: NodeId)
    requires IsRun(d, peersOf, r) && i < |r.events| && r.events[i] == SendHeartbeat(n, p)
    ensures n in r.states[i].nodes && p in r.states[i].nodes[n].nextIndex && |r.states[i].nodes[n].log| > 0
    ensures var node := r.states[i].nodes[n];
            var args, next := BuildHeartbeat(node, p), node.nextIndex[p];
            && 1 <= next && CarriesWindow(node, args)
            && args.prevLogIndex == (if next < |node.log| then next - 1 else 0)
            && |args.entries| == if next < |node.log| then |node.log| - next else 0
  {
    hide IsRun, BuildHeartbeat, CarriesWindow;
    EventEnabled(d, peersOf, r, i);
    SenderGapFree(d, peersOf, r, i, n);
    HeartbeatCarries(r.states[i].nodes[n], p);
  }

  lemma HeartbeatCarries(n: NodeState, p: NodeId)
    requires GapFree(n) && p in n.nextIndex
    ensures |n.log| > 0 && 1 <= n.nextIndex[p]
    ensures var args, next := BuildHeartbeat(n, p), n.nextIndex[p];
            && CarriesWindow(n, args)
            && args.prevLogIndex == (if next < |n.log| then next - 1 else 0)
            && |args.entries| == if next < |n.log| then |n.log| - next else 0
  {
    hide BuildHeartbeat;
    HeartbeatShape(n, p);
    assert 1 <= n.nextIndex[p] && |n.log| > 0;
    hide GapFree, WellFormed;
  }

  /** Every request of Replicate in every run is such a window too, that starts at the
    * next index and stops at the call's entry. */
  lemma ReplicatesAreWindows(d: Discipline, peersOf: map<NodeId, seq<NodeId>>, r: Run, i: nat, c: nat, p: NodeId)
    requires IsRun(d, peersOf, r) && i < |r.events| && r.events[i] == SendReplicate(c, p)
    ensures c < |r.states[i].calls| && r.states[i].calls[c].leader in r.states[i].nodes
    ensures var call := r.states[i].calls[c];
            var node := r.states[i].nodes[call.leader];
            && p in node.nextIndex && 1 <= node.nextIndex[p]
            && var args := BuildReplicate(node, p, call.entry, call.entry.term, call.commit);
               && CarriesWindow(node, args)
               && args.prevLogIndex == node.nextIndex[p] - 1
               && (call.entry.index < |node.log| ==> |args.entries| == Max(call.entry.index, args.prevLogIndex) - args.prevLogIndex)
  {
    hide IsRun, BuildReplicate, CarriesWindow, WellFormed;
    EventEnabled(d, peersOf, r, i);
    var call := r.states[i].calls[c];
    SenderGapFree(d, peersOf, r, i, call.leader);
    ReplicateCarries(r.states[i].nodes[call.leader], p, call.entry, call.entry.term, call.commit);
  }

  lemma ReplicateCarries(n: NodeState, p: NodeId, entry: LogEntry, term: nat, commit: nat)
    requires GapFree(n) && p in n.nextIndex
    ensures var args := BuildReplicate(n, p, entry, term, commit);
            && CarriesWindow(n, args)
            && args.prevLogIndex == n.nextIndex[p] - 1
            && (entry.index < |n.log| ==> |args.entries| == Max(entry.index, args.prevLogIndex) - args.prevLogIndex)
  {
    hide BuildReplicate;
    ReplicateShape(n, p, entry, term, commit);
    assert 1 <= n.nextIndex[p];
    hide GapFree, WellFormed;
  }

  /** A follower that accepts a window of the leader's log reaching the leader's commit
    * index moves its own, if at all, to exactly that index, and then holds what the
    * leader holds up to there. */
  lemma CommitLands(f: NodeState, leader: Log, args: AppendEntriesArgs)
    requires WellFormed(f.log) && WellFormed(leader) && LogsMatch(f.log, leader)
    requires IsWindow(leader, args.prevLogIndex, args.entries) && args.prevLogTerm == leader[args.prevLogIndex].term
    requires args.leaderCommit <= LastSent(args)
    ensures var f' := HandleAppendEntries(f, args).0;
            f'.commitIndex != f.commitIndex ==>
              f.commitIndex < f'.commitIndex == args.leaderCommit && Agree(f'.log, leader, args.leaderCommit)
  {
    hide Merge, PrevMatches, LogsMatch, WellFormed;
    LastEntry(f.log);
    if PrevMatches(f.log, args) {
      PrevAgrees(f.log, leader, args);
      MergeWindow(f.log, leader, args.prevLogIndex, args.entries);
      MergedLength(f.log, leader, args);
    }
  }

  lemma MergedLength(log: Log, leader: Log, args: AppendEntriesArgs)
    requires WellFormed(log) && WellFormed(leader)
    requires Agree(Merge(log, args.entries), leader, LastSent(args))
    requires Merge(log, args.entries) == log || Merge(log, args.entries) == leader[..LastSent(args) + 1]
    ensures LastIndex(Merge(log, args.entries)) >= LastSent(args)
  {
    hide Merge;
  }

  lemma RunLogsMatch(d: Discipline, peersOf: map<NodeId, seq<NodeId>>, r: Run, i: nat, j: nat, a: NodeId, b: NodeId)
    requires IsRun(d, peersOf, r) && i < |r.states| && j < |r.states| && d.guarded
    requires a in r.states[i].nodes && b in r.states[j].nodes
    ensures WellFormed(r.states[i].nodes[a].log) && WellFormed(r.states[j].nodes[b].log)
    ensures LogsMatch(r.states[j].nodes[b].log, r.states[i].nodes[a].log)
  {
    hide IsRun;
    GapFreeLogs(d, peersOf, r, i, a);
    GapFreeLogs(d, peersOf, r, j, b);
    var la, lb := r.states[i].nodes[a].log, r.states[j].nodes[b].log;
    forall k: nat | k < |lb| && k < |la| && lb[k].term == la[k].term ensures Agree(lb, la, k) {
      if j <= i { LogMatching(d, peersOf, r, j, i, b, a, k); } else { LogMatching(d, peersOf, r, i, j, a, b, k); }
    }
  }

  /** Checked commits land in agreed entries, for heartbeats: however late a heartbeat
    * with entries is handled, if its sender's commit index lay inside its log and the
    * follower's commit index moves, it moves to exactly that index, and the follower
    * then holds what the sender held up to there. */
  lemma HeartbeatCommitsLand(d: Discipline, peersOf: map<NodeId, seq<NodeId>>, r: Run, i: nat, n: NodeId, p: NodeId, j: nat)
    requires IsRun(d, peersOf, r) && d.guarded && i < |r.events| && r.events[i] == SendHeartbeat(n, p)
    requires n in r.states[i].nodes && r.states[i].nodes[n].commitIndex < |r.states[i].nodes[n].log|
    requires IsChecked(BuildHeartbeat(r.states[i].nodes[n], p))
    requires j < |r.states| && p in r.states[j].nodes && |r.states[j].nodes[p].log| > 0
    ensures var leader, f := r.states[i].nodes[n], r.states[j].nodes[p];
            var f' := HandleAppendEntries(f, BuildHeartbeat(leader, p)).0;
            f'.commitIndex != f.commitIndex ==>
              f'.commitIndex == leader.commitIndex && Agree(f'.log, leader.log, leader.commitIndex)
  {
    HeartbeatsAreWindows(d, peersOf, r, i, n, p);
    RunLogsMatch(d, peersOf, r, i, j, n, p);
    hide IsRun, HandleAppendEntries, LogsMatch, WellFormed;
    CommitLands(r.states[j].nodes[p], r.states[i].nodes[n].log, BuildHeartbeat(r.states[i].nodes[n], p));
  }

  /** The same for the requests of Replicate, which are always checked. */
  lemma ReplicateCommitsLand(d: Discipline, peersOf: map<NodeId, seq<NodeId>>, r: Run, i: nat, c: nat, p: NodeId, j: nat)
    requires IsRun(d, peersOf, r) && d.guarded && i < |r.events| && r.events[i] == SendReplicate(c, p)
    requires c < |r.states[i].calls| && r.states[i].calls[c].commit < r.states[i].calls[c].entry.index
    requires r.states[i].calls[c].leader in r.states[i].nodes
    requires j < |r.states| && p in r.states[j].nodes && |r.states[j].nodes[p].log| > 0
    ensures var call, f := r.states[i].calls[c], r.states[j].nodes[p];
            var leader := r.states[i].nodes[call.leader];
            var args := BuildReplicate(leader, p, call.entry, call.entry.term, call.commit);
            var f' := HandleAppendEntries(f, args).0;
            IsChecked(args) &&
            (f'.commitIndex != f.commitIndex ==>
               f'.commitIndex == call.commit && Agree(f'.log, leader.log, call.commit))
  {
    var call := r.states[i].calls[c];
    var leader, f := r.states[i].nodes[call.leader], r.states[j].nodes[p];
    var args := BuildReplicate(leader, p, call.entry, call.entry.term, call.commit);
    hide IsRun, HandleAppendEntries, LogsMatch, WellFormed, BuildReplicate;
    ReplicatesAreWindows(d, peersOf, r, i, c, p);
    OwnEntryInLog(d, peersOf, r, i, c, p);
    RunLogsMatch(d, peersOf, r, i, j, call.leader, p);
    if args.prevLogIndex < |leader.log| {
      CommitLands(f, leader.log, args);
    } else {
      DudRejected(f, args);
    }
  }

  lemma OwnEntryInLog(d: Discipline, peersOf: map<NodeId, seq<NodeId>>, r: Run, i: nat, c: nat, p: NodeId)
    requires IsRun(d, peersOf, r) && d.guarded && i < |r.events| && r.events[i] == SendReplicate(c, p)
    requires c < |r.states[i].calls| && r.states[i].calls[c].leader in r.states[i].nodes
    ensures 1 <= r.states[i].calls[c].entry.index < |r.states[i].nodes[r.states[i].calls[c].leader].log|
  {
    hide IsRun, ReplicationInv;
    EventEnabled(d, peersOf, r, i);
    RunReplicationInv(d, peersOf, r, i);
    CallParts(r.states[i], c);
    NodeLogParts(d, peersOf, r, i, r.states[i].calls[c].leader);
  }

  lemma DudRejected(f: NodeState, args: AppendEntriesArgs)
    requires WellFormed(f.log) && IsDud(args)
    ensures HandleAppendEntries(f, args).0.commitIndex == f.commitIndex
  {
    ScanIsIndexing(f.log, args.prevLogIndex);
    hide EntryAt, Merge;
  }
}
