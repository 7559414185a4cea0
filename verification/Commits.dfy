/** Commit indices, in runs that keep all four disciplines: every commit index lies
  * on entries that the leader of every later term holds. */
module Commits {
  import opened RaftLog
  import opened RaftNode
  import opened Quorums
  import opened Cluster
  import opened Actors
  import opened Elections
  import opened Ledger
  import opened Replication
  import opened ReplicationSafety
  import opened CommitRule
  import opened Credits
  import opened Requests

  /** Entry k of term t is committed, and `log` agrees with its leader through i <= k. */
  ghost predicate SafeBy(members: set<NodeId>, h: History, log: Log, i: nat, upTo: nat, t: nat, k: nat) {
    t <= upTo && Committed(members, h, t, k) && i <= k && Agree(log, h.ledger[t], i)
  }

  /** The first i entries of `log` are committed, by terms no later than upTo. */
  ghost predicate Safe(members: set<NodeId>, h: History, log: Log, i: nat, upTo: nat) {
    i > 0 ==> exists t, k :: SafeBy(members, h, log, i, upTo, t, k)
  }

  /** What was collected are the log's first entries, none beyond the commit index. */
  ghost predicate CollectedOk(n: NodeState, collected: seq<LogEntry>) {
    && n.commitIndex < |n.log|
    && |collected| == n.lastApplied <= n.commitIndex
    && forall i | 0 <= i < |collected| :: collected[i] == n.log[i + 1]
  }

  ghost predicate NodeCommitOk(s: State, v: NodeId)
    requires v in s.nodes
  {
    && Safe(s.nodes.Keys, s.h, s.nodes[v].log, s.nodes[v].commitIndex, s.nodes[v].currentTerm)
    && v in s.collected
    && CollectedOk(s.nodes[v], s.collected[v])
  }

  /** Some entry at or beyond i is committed, by a term no later than upTo. */
  ghost predicate Backed(members: set<NodeId>, h: History, i: nat, upTo: nat) {
    i > 0 ==> exists t: nat, k: nat :: t <= upTo && i <= k && Committed(members, h, t, k)
  }

  /** The commit index a request carries is backed, and a checked request reaches it. */
  ghost predicate RequestCommitOk(members: set<NodeId>, h: History, args: AppendEntriesArgs) {
    && Backed(members, h, args.leaderCommit, args.term)
    && (IsChecked(args) && !IsDud(args) ==> args.leaderCommit <= LastSent(args))
  }

  ghost predicate CallCommitOk(members: set<NodeId>, h: History, call: Call) {
    && Backed(members, h, call.commit, call.entry.term)
    && call.commit < call.entry.index
  }

  ghost predicate CommitInv(s: State) {
    && (forall v | v in s.nodes :: NodeCommitOk(s, v))
    && (forall m | m in s.net && m.AppendRequest? :: RequestCommitOk(s.nodes.Keys, s.h, m.args))
    && (forall c: nat | c < |s.calls| :: CallCommitOk(s.nodes.Keys, s.h, s.calls[c]))
  }

  // ---- What later states keep ----

  lemma SafeGrows(members: set<NodeId>, h: History, h': History, log: Log, log': Log, i: nat, upTo: nat, upTo': nat)
    requires Safe(members, h, log, i, upTo) && HistoryGrows(h, h') && upTo <= upTo'
    requires i > 0 ==> Agree(log, log', i)
    ensures Safe(members, h', log', i, upTo')
  {
    hide HistoryGrows, Committed;
    if i > 0 {
      var t, k :| SafeBy(members, h, log, i, upTo, t, k);
      CommittedGrows(members, h, h', t, k);
      assert SafeBy(members, h', log', i, upTo', t, k);
    }
  }

  lemma CollectedInLog(n: NodeState, collected: seq<LogEntry>)
    requires CollectedOk(n, collected)
    ensures n.commitIndex < |n.log|
  {
  }

  lemma SafeIsBacked(members: set<NodeId>, h: History, log: Log, i: nat, upTo: nat)
    requires Safe(members, h, log, i, upTo)
    ensures Backed(members, h, i, upTo)
  {
    hide Committed;
    if i > 0 {
      var t, k :| SafeBy(members, h, log, i, upTo, t, k);
    }
  }

  lemma BackedGrows(members: set<NodeId>, h: History, h': History, i: nat, upTo: nat)
    requires Backed(members, h, i, upTo) && HistoryGrows(h, h')
    ensures Backed(members, h', i, upTo)
  {
    hide HistoryGrows, Committed;
    if i > 0 {
      var t: nat, k: nat :| t <= upTo && i <= k && Committed(members, h, t, k);
      CommittedGrows(members, h, h', t, k);
    }
  }

  /** What is backed up to a term, that term's leader holds. */
  lemma BackedInLedger(s: State, i: nat, u: nat)
    requires Backed(s.nodes.Keys, s.h, i, u) && u in s.h.ledger
    requires ElectionInv(s) && ReplicationInv(s)
    ensures Safe(s.nodes.Keys, s.h, s.h.ledger[u], i, u)
  {
    hide ElectionInv, ReplicationInv, Committed;
    if i > 0 {
      var t: nat, k: nat :| t <= u && i <= k && Committed(s.nodes.Keys, s.h, t, k);
      LaterLedgerHolds(s, t, k, u);
      assert SafeBy(s.nodes.Keys, s.h, s.h.ledger[u], i, u, t, k);
    }
  }

  ghost predicate Untouched(s: State, s': State, v: NodeId)
    requires v in s.nodes && v in s'.nodes
  {
    && KeepsCommit(s.nodes[v], s'.nodes[v])
    && (v in s.collected ==> v in s'.collected && s'.collected[v] == s.collected[v])
  }

  lemma UntouchedNode(s: State, s': State, v: NodeId)
    requires v in s.nodes && NodeCommitOk(s, v) && HistoryGrows(s.h, s'.h) && s'.nodes.Keys == s.nodes.Keys
    requires Untouched(s, s', v)
    ensures NodeCommitOk(s', v)
  {
    hide HistoryGrows, Safe;
    var n := s.nodes[v];
    SafeGrows(s.nodes.Keys, s.h, s'.h, n.log, n.log, n.commitIndex, n.currentTerm, s'.nodes[v].currentTerm);
  }

  /** What a step has to show: about the nodes it touches, the requests it sends and the
    * calls it starts. */
  lemma CommitFrame(s: State, s': State)
    requires s'.nodes.Keys == s.nodes.Keys && HistoryGrows(s.h, s'.h) && CallsExtended(s, s')
    requires forall v | v in s.nodes :: NodeCommitOk(s', v) || Untouched(s, s', v)
    requires forall m | m in s'.net && m !in s.net && m.AppendRequest? :: RequestCommitOk(s'.nodes.Keys, s'.h, m.args)
    requires forall c: nat | |s.calls| <= c < |s'.calls| :: CallCommitOk(s'.nodes.Keys, s'.h, s'.calls[c])
    requires CommitInv(s)
    ensures CommitInv(s')
  {
    hide HistoryGrows, NodeCommitOk, Untouched, Backed, IsChecked, IsDud;
    forall v | v in s'.nodes ensures NodeCommitOk(s', v) {
      if !NodeCommitOk(s', v) { UntouchedNode(s, s', v); }
    }
    forall m | m in s'.net && m.AppendRequest? ensures RequestCommitOk(s'.nodes.Keys, s'.h, m.args) {
      if m in s.net {
        assert RequestCommitOk(s.nodes.Keys, s.h, m.args);
        BackedGrows(s.nodes.Keys, s.h, s'.h, m.args.leaderCommit, m.args.term);
      }
    }
    forall c: nat | c < |s'.calls| ensures CallCommitOk(s'.nodes.Keys, s'.h, s'.calls[c]) {
      if c < |s.calls| {
        assert CallCommitOk(s.nodes.Keys, s.h, s.calls[c]);
        BackedGrows(s.nodes.Keys, s.h, s'.h, s.calls[c].commit, s.calls[c].entry.term);
      }
    }
  }

  // ---- Steps that move no commit index ----

  ghost predicate Quiet(s: State, s': State) {
    && s'.nodes.Keys == s.nodes.Keys && CallsExtended(s, s') && |s'.calls| == |s.calls|
    && forall v | v in s.nodes :: Untouched(s, s', v)
  }

  lemma QuietCommit(s: State, s': State)
    requires Quiet(s, s') && HistoryGrows(s.h, s'.h)
    requires forall m | m in s'.net && m !in s.net && m.AppendRequest? :: RequestCommitOk(s'.nodes.Keys, s'.h, m.args)
    requires CommitInv(s)
    ensures CommitInv(s')
  {
    hide HistoryGrows, CommitInv, Untouched, CallsExtended, RequestCommitOk;
    CommitFrame(s, s');
  }

  lemma QuietEvent(s: State, e: Event)
    requires LogsNonEmpty(s) && Enabled(s, e) && IsQuiet(e)
    ensures Quiet(s, Step(s, e))
  {
    hide LogsNonEmpty, Enabled, Step, CallsExtended;
    QuietRest(s, e);
    StepKeys(s, e);
    forall v | v in s.nodes ensures Untouched(s, Step(s, e), v) {
      StepEffects(s, e, v);
    }
  }

  lemma NodeCommitParts(s: State, n: NodeId)
    requires CommitInv(s) && n in s.nodes
    ensures NodeCommitOk(s, n)
  {
    hide NodeCommitOk, RequestCommitOk, CallCommitOk;
  }

  // ---- Requests carry safe commit indices ----

  lemma HeartbeatCommitOk(members: set<NodeId>, h: History, n: NodeState, p: NodeId)
    requires GapFree(n) && p in n.nextIndex
    requires Safe(members, h, n.log, n.commitIndex, n.currentTerm) && n.commitIndex < |n.log|
    ensures RequestCommitOk(members, h, BuildHeartbeat(n, p))
  {
    hide Safe, Backed, BuildHeartbeat;
    SafeIsBacked(members, h, n.log, n.commitIndex, n.currentTerm);
    HeartbeatShape(n, p);
  }

  lemma SendHeartbeatCommit(s: State, s': State, n: NodeId, p: NodeId)
    requires LogsNonEmpty(s) && Enabled(s, SendHeartbeat(n, p)) && s' == DoSendHeartbeat(s, n, p)
    requires LogInv(s) && CommitInv(s)
    ensures CommitInv(s')
  {
    hide LogInv, CommitInv, HistoryGrows, GapFree, Safe, BuildHeartbeat, RequestCommitOk;
    GrowsReflexive(s.h);
    LogParts(s, n);
    NodeCommitParts(s, n);
    HeartbeatCommitOk(s.nodes.Keys, s.h, s.nodes[n], p);
    QuietCommit(s, s');
  }

  lemma ReplicateCommitOk(s: State, c: nat, p: NodeId)
    requires c < |s.calls| && s.calls[c].leader in s.nodes
    requires AppendMessageOk(s, ReplicateRequest(s, c, p)) && CallCommitOk(s.nodes.Keys, s.h, s.calls[c])
    ensures RequestCommitOk(s.nodes.Keys, s.h, ReplicateRequest(s, c, p).args)
  {
    hide EntriesBetween, TermAt, IsChecked, RequestOk, Backed, IsDud;
  }

  lemma SendReplicateCommit(s: State, s': State, c: nat, p: NodeId)
    requires Enabled(s, SendReplicate(c, p)) && s' == DoSendReplicate(s, c, p)
    requires ElectionInv(s) && LogInv(s) && ReplicationInv(s) && CommitInv(s)
    ensures CommitInv(s')
  {
    hide ElectionInv, LogInv, ReplicationInv, CommitInv, HistoryGrows, RequestCommitOk, CallCommitOk, AppendMessageOk,
         ReplicateRequest;
    GrowsReflexive(s.h);
    CallCommitParts(s, c);
    ReplicateMessageOk(s, c, p);
    ReplicateCommitOk(s, c, p);
    QuietCommit(s, s');
  }

  lemma CallCommitParts(s: State, c: nat)
    requires CommitInv(s) && c < |s.calls|
    ensures CallCommitOk(s.nodes.Keys, s.h, s.calls[c])
  {
    hide NodeCommitOk, RequestCommitOk, CallCommitOk;
  }

  // ---- The leader's append ----

  lemma AppendedCommitOk(s: State, s': State, n: NodeId, command: Command)
    requires LogsNonEmpty(s) && n in s.nodes && s' == DoClientAppend(s, n, command) && HistoryGrows(s.h, s'.h)
    requires NodeCommitOk(s, n)
    ensures NodeCommitOk(s', n)
  {
    hide HistoryGrows, Safe, RecordAck, NewEntry;
    var node, node' := s.nodes[n], s'.nodes[n];
    assert s'.nodes.Keys == s.nodes.Keys;
    SafeGrows(s.nodes.Keys, s.h, s'.h, node.log, node'.log, node.commitIndex, node.currentTerm, node.currentTerm);
  }

  lemma NewCallCommitOk(s: State, s': State, n: NodeId, command: Command)
    requires LogsNonEmpty(s) && n in s.nodes && s' == DoClientAppend(s, n, command) && HistoryGrows(s.h, s'.h)
    requires NodeCommitOk(s, n) && |s.nodes[n].log| == NewEntry(s.nodes[n], command).index
    ensures CallCommitOk(s'.nodes.Keys, s'.h, s'.calls[|s.calls|])
  {
    hide HistoryGrows, Safe, Backed;
    var node := s.nodes[n];
    assert s'.nodes.Keys == s.nodes.Keys;
    SafeIsBacked(s.nodes.Keys, s.h, node.log, node.commitIndex, node.currentTerm);
    BackedGrows(s.nodes.Keys, s.h, s'.h, node.commitIndex, node.currentTerm);
  }

  lemma ClientAppendCommit(s: State, s': State, n: NodeId, command: Command)
    requires LogsNonEmpty(s) && Enabled(s, ClientAppend(n, command)) && s' == DoClientAppend(s, n, command)
    requires ElectionInv(s) && LogInv(s) && ReplicationInv(s) && CommitInv(s)
    ensures CommitInv(s')
  {
    hide ElectionInv, LogInv, ReplicationInv, CommitInv, HistoryGrows, GapFree, NodeCommitOk, CallCommitOk, RecordAck,
         RequestCommitOk;
    ClientAppendGrows(s, n, command);
    NodeCommitParts(s, n);
    AppendedCommitOk(s, s', n, command);
    AppendIndex(s, n, command);
    NewCallCommitOk(s, s', n, command);
    CommitFrame(s, s');
  }

  lemma AppendIndex(s: State, n: NodeId, command: Command)
    requires LogInv(s) && LogsNonEmpty(s) && n in s.nodes
    ensures |s.nodes[n].log| == NewEntry(s.nodes[n], command).index
  {
    assert GapFree(s.nodes[n]);
  }

  // ---- Taking committed entries ----

  lemma BatchOk(n: NodeState, collected: seq<LogEntry>)
    requires WellFormed(n.log) && CollectedOk(n, collected)
    ensures CollectedOk(Collect(n), collected + Batch(n))
    ensures Collect(n).lastApplied == n.commitIndex
  {
    hide EntriesBetween;
    EntriesBetweenIsSlice(n.log, n.lastApplied + 1, n.commitIndex);
  }

  lemma CollectCommit(s: State, s': State, n: NodeId)
    requires Enabled(s, CollectCommitted(n)) && s' == DoCollect(s, n)
    requires LogInv(s) && CommitInv(s)
    ensures CommitInv(s')
  {
    hide LogInv, CommitInv, HistoryGrows, Safe, Batch, CollectedOk, WellFormed;
    GrowsReflexive(s.h);
    NodeCommitParts(s, n);
    assert s'.nodes.Keys == s.nodes.Keys;
    LogParts(s, n);
    BatchOk(s.nodes[n], s.collected[n]);
    CommitFrame(s, s');
  }

  // ---- Commit indices that move ----

  /** A safe prefix of the node's log agrees with the ledger of any later term. */
  lemma SafeInLedger(s: State, log: Log, i: nat, upTo: nat, u: nat)
    requires ElectionInv(s) && ReplicationInv(s)
    requires Safe(s.nodes.Keys, s.h, log, i, upTo) && upTo <= u && u in s.h.ledger && i > 0
    ensures Agree(log, s.h.ledger[u], i)
  {
    hide ElectionInv, ReplicationInv, Committed;
    var t, k :| SafeBy(s.nodes.Keys, s.h, log, i, upTo, t, k);
    LaterLedgerHolds(s, t, k, u);
  }

  /** Accepting a window of the ledger keeps what the node had agreed on with it. */
  lemma AcceptKeepsPrefix(log: Log, log': Log, ledger: Log, last: nat, i: nat)
    requires Agree(log, ledger, i) && last < |ledger|
    requires log' == if Agree(log, ledger, last) then log else ledger[..last + 1]
    ensures Agree(log, log', i)
  {
  }

  lemma HandleKeeps(n: NodeState, args: AppendEntriesArgs)
    requires |n.log| > 0
    ensures var (node, reply) := HandleAppendEntries(n, args);
            && node.lastApplied == n.lastApplied && node.matchIndex == n.matchIndex && node.peers == n.peers
            && (!reply.success ==> node.commitIndex == n.commitIndex)
            && (reply.success ==>
                  && |node.log| > 0
                  && node.commitIndex == if args.leaderCommit > n.commitIndex
                                         then Min(args.leaderCommit, LastIndex(node.log)) else n.commitIndex)
  {
    hide Merge, EntryAt;
    MergeNonEmpty(n.log, args.entries);
  }

  /** The commit index of a node moves, if at all, forward to an index no higher than
    * LeaderCommit, up to which the node agrees with the leader. */
  ghost predicate MovesWithLeader(n: NodeState, node: NodeState, args: AppendEntriesArgs, ledger: Log) {
    && n.commitIndex <= node.commitIndex
    && (node.commitIndex != n.commitIndex ==>
          node.commitIndex <= args.leaderCommit && Agree(node.log, ledger, node.commitIndex))
  }

  /** A checked request moves the commit index with its leader. */
  lemma CheckedCommit(h: History, n: NodeState, args: AppendEntriesArgs)
    requires IsChecked(args) && RequestOk(h, args) && args.term in h.ledger && LedgerOk(h, args.term)
    requires WellFormed(n.log) && Rooted(h.ledger, n.log) && PrevMatches(n.log, args)
    requires !IsDud(args) ==> args.leaderCommit <= LastSent(args)
    ensures MovesWithLeader(n, HandleAppendEntries(n, args).0, args, h.ledger[args.term])
  {
    var leader := h.ledger[args.term];
    assert WellFormed(leader) && Rooted(h.ledger, leader);
    NoDudAccepted(n.log, args);
    RootedMatch(h.ledger, n.log, leader);
    hide HandleAppendEntries, LogsMatch, LedgerOk, WellFormed, Rooted, PrevMatches;
    CommitLands(n, leader, args);
  }

  /** An empty request that moves the commit index of a node whose last entry is of its
    * term: the term has a leader, whose log the node's is a prefix of. */
  lemma UncheckedCommit(h: History, n: NodeState, node: NodeState, args: AppendEntriesArgs)
    requires |n.log| > 0 && HandleAppendEntries(n, args).0 == node && HandleAppendEntries(n, args).1.success
    requires !IsChecked(args) && LastTerm(n.log) == args.term && n.commitIndex < |n.log|
    requires WellFormed(n.log) && Rooted(h.ledger, n.log) && node.commitIndex != n.commitIndex
    ensures args.term in h.ledger && MovesWithLeader(n, node, args, h.ledger[args.term])
  {
    assert node.log == n.log by { assert Merge(n.log, []) == n.log; }
    hide HandleAppendEntries, Rooted;
    HandleKeeps(n, args);
    OwnTermPrefix(h.ledger, n.log);
  }

  lemma SafeShorter(members: set<NodeId>, h: History, log: Log, i: nat, k: nat, upTo: nat)
    requires Safe(members, h, log, i, upTo) && k <= i
    ensures Safe(members, h, log, k, upTo)
  {
    hide Committed;
    if k > 0 {
      var t, j :| SafeBy(members, h, log, i, upTo, t, j);
      assert SafeBy(members, h, log, k, upTo, t, j);
    }
  }

  /** The accepting node's commit index is safe again, and what it has collected is
    * untouched. */
  lemma AcceptedNodeOk(members: set<NodeId>, h: History, n: NodeState, node: NodeState, args: AppendEntriesArgs, collected: seq<LogEntry>)
    requires args.term in h.ledger && node.currentTerm == args.term && n.currentTerm <= args.term
    requires n.commitIndex > 0 ==> Agree(n.log, node.log, n.commitIndex)
    requires |node.log| > 0 && node.lastApplied == n.lastApplied
    requires MovesWithLeader(n, node, args, h.ledger[args.term])
    requires Safe(members, h, n.log, n.commitIndex, n.currentTerm)
    requires Safe(members, h, h.ledger[args.term], args.leaderCommit, args.term)
    requires CollectedOk(n, collected)
    ensures Safe(members, h, node.log, node.commitIndex, node.currentTerm)
    ensures CollectedOk(node, collected)
  {
    hide Safe;
    GrowsReflexive(h);
    hide HistoryGrows;
    if node.commitIndex != n.commitIndex {
      SafeShorter(members, h, h.ledger[args.term], args.leaderCommit, node.commitIndex, args.term);
      SafeGrows(members, h, h, h.ledger[args.term], node.log, node.commitIndex, args.term, args.term);
    } else {
      SafeGrows(members, h, h, n.log, node.log, n.commitIndex, n.currentTerm, args.term);
    }
  }

  lemma HandleAppendCommit(s: State, s': State, m: Message)
    requires LogsNonEmpty(s) && Enabled(s, HandleAppend(m)) && s' == DoHandleAppend(s, m)
    requires LearnsChecked(s, HandleAppend(m))
    requires ElectionInv(s) && LogInv(s) && ReplicationInv(s) && CommitInv(s)
    ensures CommitInv(s')
  {
    hide ElectionInv, LogInv, ReplicationInv, CommitInv, HistoryGrows, HandleAppendEntries, Safe, CollectedOk,
         RequestCommitOk, LearnsChecked, RecordAck;
    var n := m.peer;
    var (node, reply) := HandleAppendEntries(s.nodes[n], m.args);
    HandleKeeps(s.nodes[n], m.args);
    HandleEffect(s.nodes[n], m.args);
    NodeCommitParts(s, n);
    AckRecorded(s.h, n, m.args.term, LastSent(m.args));
    GrowsReflexive(s.h);
    if reply.success && (IsChecked(m.args) || node.commitIndex != s.nodes[n].commitIndex) {
      AcceptedState(s, s', m);
      hide NodeCommitOk;
      CommitFrame(s, s');
    } else {
      QuietCommit(s, s');
    }
  }

  /** A request that moves the commit index or the log moves it with its leader. */
  lemma AcceptedMoves(s: State, m: Message)
    requires LogsNonEmpty(s) && Enabled(s, HandleAppend(m)) && LearnsChecked(s, HandleAppend(m))
    requires HandleAppendEntries(s.nodes[m.peer], m.args).1.success
    requires IsChecked(m.args) || HandleAppendEntries(s.nodes[m.peer], m.args).0.commitIndex != s.nodes[m.peer].commitIndex
    requires s.nodes[m.peer].commitIndex < |s.nodes[m.peer].log|
    requires ElectionInv(s) && LogInv(s) && ReplicationInv(s) && CommitInv(s)
    ensures m.args.term in s.h.ledger
    ensures MovesWithLeader(s.nodes[m.peer], HandleAppendEntries(s.nodes[m.peer], m.args).0, m.args, s.h.ledger[m.args.term])
  {
    hide ElectionInv, LogInv, ReplicationInv, CommitInv, HandleAppendEntries, Backed, LedgerInv, VotesInv, WellFormed, Rooted,
         LedgerOk, PrevMatches, Merge;
    var n := s.nodes[m.peer];
    var node := HandleAppendEntries(n, m.args).0;
    HandleKeeps(n, m.args);
    HandleEffect(n, m.args);
    HandleParts(s, m);
    RequestCommitParts(s, m);
    LedgerParts(s.nodes, s.h, m.peer, m.args.term);
    if IsChecked(m.args) {
      CheckedCommit(s.h, n, m.args);
    } else {
      UncheckedCommit(s.h, n, node, m.args);
    }
  }

  /** What the node had committed is still in its log. */
  lemma AcceptedKeepsCommitted(s: State, m: Message)
    requires LogsNonEmpty(s) && Enabled(s, HandleAppend(m)) && HandleAppendEntries(s.nodes[m.peer], m.args).1.success
    requires NodeCommitOk(s, m.peer) && s.nodes[m.peer].commitIndex > 0
    requires ElectionInv(s) && LogInv(s) && ReplicationInv(s)
    ensures Agree(s.nodes[m.peer].log, HandleAppendEntries(s.nodes[m.peer], m.args).0.log, s.nodes[m.peer].commitIndex)
  {
    hide ElectionInv, LogInv, ReplicationInv, HandleAppendEntries, Safe, LedgerInv, VotesInv, WellFormed, Rooted,
         LedgerOk, PrevMatches, Merge;
    var n := s.nodes[m.peer];
    HandleEffect(n, m.args);
    HandleParts(s, m);
    LedgerParts(s.nodes, s.h, m.peer, m.args.term);
    if IsChecked(m.args) {
      AcceptedLog(s.h, n, m.args);
      SafeInLedger(s, n.log, n.commitIndex, n.currentTerm, m.args.term);
      AcceptKeepsPrefix(n.log, HandleAppendEntries(n, m.args).0.log, s.h.ledger[m.args.term], LastSent(m.args), n.commitIndex);
    }
  }

  lemma AcceptedState(s: State, s': State, m: Message)
    requires LogsNonEmpty(s) && Enabled(s, HandleAppend(m)) && s' == DoHandleAppend(s, m)
    requires HandleAppendEntries(s.nodes[m.peer], m.args).1.success && LearnsChecked(s, HandleAppend(m))
    requires IsChecked(m.args) || HandleAppendEntries(s.nodes[m.peer], m.args).0.commitIndex != s.nodes[m.peer].commitIndex
    requires HistoryGrows(s.h, s'.h) && NodeCommitOk(s, m.peer)
    requires ElectionInv(s) && LogInv(s) && ReplicationInv(s) && CommitInv(s)
    ensures NodeCommitOk(s', m.peer)
  {
    hide ElectionInv, LogInv, ReplicationInv, CommitInv, HistoryGrows, HandleAppendEntries, Safe, CollectedOk,
         RecordAck, LedgerInv, VotesInv, WellFormed, Rooted, LedgerOk, PrevMatches, Merge, MovesWithLeader, Backed, LearnsChecked;
    var n := m.peer;
    var node := s'.nodes[n];
    var old' := s.nodes[n];
    HandleKeeps(old', m.args);
    HandleEffect(old', m.args);
    RequestCommitParts(s, m);
    CollectedInLog(old', s.collected[n]);
    AcceptedMoves(s, m);
    BackedInLedger(s, m.args.leaderCommit, m.args.term);
    if old'.commitIndex > 0 {
      AcceptedKeepsCommitted(s, m);
    }
    AcceptedNodeOk(s.nodes.Keys, s.h, old', node, m.args, s.collected[n]);
    CollectedInLog(node, s.collected[n]);
    assert s'.nodes.Keys == s.nodes.Keys;
    SafeGrows(s.nodes.Keys, s.h, s'.h, node.log, node.log, node.commitIndex, node.currentTerm, node.currentTerm);
  }

  lemma RequestCommitParts(s: State, m: Message)
    requires m in s.net && m.AppendRequest? && CommitInv(s)
    ensures RequestCommitOk(s.nodes.Keys, s.h, m.args)
  {
    hide NodeCommitOk, RequestCommitOk, CallCommitOk;
  }

  lemma NotLeadingStays(s: State, m: Message)
    requires LogsNonEmpty(s) && Enabled(s, HeartbeatReply(m)) && CommitsLeading(s, HeartbeatReply(m))
    requires s.nodes[m.args.leaderId].role != Leader
    requires ElectionInv(s) && LogInv(s)
    ensures HandleHeartbeatReply(s.nodes[m.args.leaderId], m.peer, m.args, m.reply).commitIndex
            == s.nodes[m.args.leaderId].commitIndex
  {
    hide ElectionInv, LogInv, NothingToCommit, WellFormed, AdvanceCommit;
    var n := s.nodes[m.args.leaderId];
    LogParts(s, m.args.leaderId);
    HasPeers(s, m.args.leaderId);
    if m.args.entries != [] && m.reply.success {
      CommitStaysIff(RecordHeartbeat(n, m.peer, m.args.prevLogIndex + |m.args.entries|));
    }
  }

  lemma HasPeers(s: State, n: NodeId)
    requires ElectionInv(s) && n in s.nodes
    ensures s.nodes[n].peers != []
  {
    DistinctSize(s.nodes[n].peers);
    assert s.nodes.Keys == SeqSet(s.nodes[n].peers) + {n};
    assert |s.nodes| == |s.nodes.Keys|;
  }

  lemma HeartbeatReplyCommit(s: State, s': State, m: Message)
    requires LogsNonEmpty(s) && Enabled(s, HeartbeatReply(m)) && s' == DoHeartbeatReply(s, m)
    requires CreditsOwnTerm(s, HeartbeatReply(m)) && CommitsLeading(s, HeartbeatReply(m))
    requires ElectionInv(s) && LogInv(s) && ReplicationInv(s) && MatchInv(s) && CommitInv(s)
    ensures CommitInv(s')
  {
    hide ElectionInv, LogInv, ReplicationInv, MatchInv, CommitInv, HistoryGrows, Safe, CreditsOwnTerm, CommitsLeading,
         HandleHeartbeatReply, Committed;
    var n := m.args.leaderId;
    var node, x := s.nodes[n], s'.nodes[n].commitIndex;
    GrowsReflexive(s.h);
    HeartbeatReplyKeeps(node, m.peer, m.args, m.reply);
    NodeCommitParts(s, n);
    assert s'.nodes.Keys == s.nodes.Keys;
    if x == node.commitIndex {
      QuietCommit(s, s');
    } else {
      if node.role != Leader { NotLeadingStays(s, m); }
      HeartbeatReplyCommits(s, m);
      CommittedIsSafe(s.nodes.Keys, s.h, node.log, x, node.currentTerm);
      CommitFrame(s, s');
    }
  }

  lemma HeartbeatReplyKeeps(n: NodeState, peer: NodeId, args: AppendEntriesArgs, reply: AppendEntriesReply)
    requires |n.log| > 0
    ensures var n' := HandleHeartbeatReply(n, peer, args, reply);
            n'.log == n.log && n'.currentTerm == n.currentTerm && n'.lastApplied == n.lastApplied
  {
    hide AdvanceFrom;
  }

  lemma CommittedIsSafe(members: set<NodeId>, h: History, log: Log, i: nat, t: nat)
    requires Committed(members, h, t, i) && h.ledger[t] == log
    ensures Safe(members, h, log, i, t)
  {
    assert SafeBy(members, h, log, i, t, t, i);
  }

  /** The caller of a Replicate that a majority confirmed still holds the entry, even
    * if it has been deposed in the meantime. */
  lemma CallerHolds(s: State, n: NodeId, t: nat, i: nat)
    requires n in s.nodes && Acked(s.h, n, t, i) && Committed(s.nodes.Keys, s.h, t, i)
    requires ElectionInv(s) && ReplicationInv(s)
    ensures Agree(s.nodes[n].log, s.h.ledger[t], i) && t <= s.nodes[n].currentTerm
  {
    hide ElectionInv, ReplicationInv, VotesInv, LedgerInv, Committed, Rooted, LedgerOk;
    VotingParts(s, n);
    LedgerParts(s.nodes, s.h, n, t);
    assert StillHolds(s.h, s.nodes[n].log, t, i, s.nodes[n].currentTerm);
    forall u | t < u && u in s.h.elections ensures !Lacks(s.h, t, i, u) {
      LeaderCompleteness(s.nodes, s.h, t, i, u);
    }
  }

  lemma ReturnCommit(s: State, s': State, c: nat)
    requires Enabled(s, Return(c)) && s' == DoReturn(s, c)
    requires ElectionInv(s) && LogInv(s) && ReplicationInv(s) && CommitInv(s)
    ensures CommitInv(s')
  {
    hide ElectionInv, LogInv, ReplicationInv, CommitInv, HistoryGrows, Safe, CollectedOk, Committed;
    var call := s.calls[c];
    var n := call.leader;
    GrowsReflexive(s.h);
    NodeCommitParts(s, n);
    CallParts(s, c);
    ReturnCallOk(s, s', c);
    ReturnedIsCommitted(s', c);
    assert s'.nodes.Keys == s.nodes.Keys;
    CallerHolds(s, n, call.entry.term, call.entry.index);
    ReturnedNodeOk(s, n, call.entry.term, call.entry.index, s.collected[n]);
    CommitFrame(s, s');
  }

  lemma ReturnedNodeOk(s: State, n: NodeId, t: nat, i: nat, collected: seq<LogEntry>)
    requires n in s.nodes && Committed(s.nodes.Keys, s.h, t, i) && t <= s.nodes[n].currentTerm
    requires Agree(s.nodes[n].log, s.h.ledger[t], i)
    requires Safe(s.nodes.Keys, s.h, s.nodes[n].log, s.nodes[n].commitIndex, s.nodes[n].currentTerm)
    requires CollectedOk(s.nodes[n], collected)
    ensures var node := CommitEntry(s.nodes[n], i);
            && Safe(s.nodes.Keys, s.h, node.log, node.commitIndex, node.currentTerm)
            && CollectedOk(node, collected)
  {
    hide Committed;
    assert SafeBy(s.nodes.Keys, s.h, s.nodes[n].log, i, s.nodes[n].currentTerm, t, i);
  }

  // ---- All events ----

  lemma BusyCommitInvStep(s: State, s': State, e: Event)
    requires LogsNonEmpty(s) && Enabled(s, e) && s' == Step(s, e) && Allowed(FULL, s, e)
    requires !IsQuiet(e) || e.SendReplicate? || e.SendHeartbeat?
    requires ElectionInv(s) && LogInv(s) && ReplicationInv(s) && MatchInv(s) && CommitInv(s)
    ensures CommitInv(s')
  {
    hide ElectionInv, LogInv, ReplicationInv, MatchInv, CommitInv, LogsNonEmpty, GuardsHeartbeat, LearnsChecked, CreditsOwnTerm,
         CommitsLeading, Enabled, DoClientAppend, DoSendReplicate, DoSendHeartbeat, DoHandleAppend, DoHeartbeatReply, DoReturn,
         DoCollect;
    match e
    case ClientAppend(n, command) => ClientAppendCommit(s, s', n, command);
    case SendReplicate(c, p) => SendReplicateCommit(s, s', c, p);
    case SendHeartbeat(n, p) => SendHeartbeatCommit(s, s', n, p);
    case HandleAppend(m) => HandleAppendCommit(s, s', m);
    case HeartbeatReply(m) => HeartbeatReplyCommit(s, s', m);
    case Return(c) => ReturnCommit(s, s', c);
    case CollectCommitted(n) => CollectCommit(s, s', n);
  }

  lemma CommitInvStep(s: State, s': State, e: Event)
    requires LogsNonEmpty(s) && Enabled(s, e) && s' == Step(s, e) && Allowed(FULL, s, e)
    requires ElectionInv(s) && LogInv(s) && ReplicationInv(s) && MatchInv(s) && CommitInv(s)
    ensures CommitInv(s')
  {
    hide ElectionInv, LogInv, ReplicationInv, MatchInv, CommitInv, LogsNonEmpty, Allowed, Enabled, Step, HistoryGrows, Quiet;
    if !IsQuiet(e) || e.SendReplicate? || e.SendHeartbeat? {
      BusyCommitInvStep(s, s', e);
    } else {
      StepHistoryGrows(s, e);
      QuietRest(s, e);
      QuietEvent(s, e);
      QuietCommit(s, s');
    }
  }
}
