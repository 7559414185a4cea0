/** The cluster as a step system. Every critical section under a node's lock is
  * one event. The network is the set of messages ever sent, so messages may be
  * lost, delayed, duplicated and reordered; timers may fire at any moment. */
module Cluster {
  import opened Options
  import opened RaftLog
  import opened RaftNode
  import opened Quorums
  import opened CommitRule

  // ---- History, recorded for the proofs and never read by a node ----

  /** A vote: for whom, and the voter's log when it was cast. */
  datatype Ballot = Ballot(candidate: NodeId, log: Log)

  datatype Election = Election(leader: NodeId, voters: set<NodeId>)

  /** Per (node, term) the vote, per term the election and its leader's log, and
    * per (node, term) the highest index acknowledged to that term's leader. */
  datatype History = History(
    ballots: map<(NodeId, nat), Ballot>,
    elections: map<nat, Election>,
    ledger: map<nat, Log>,
    acks: map<(NodeId, nat), nat>)

  function AckIndex(h: History, v: NodeId, t: nat): nat {
    if (v, t) in h.acks then h.acks[(v, t)] else 0
  }

  function CastVote(h: History, v: NodeId, t: nat, b: Ballot): History {
    if (v, t) in h.ballots then h else h.(ballots := h.ballots[(v, t) := b])
  }

  function RecordAck(h: History, v: NodeId, t: nat, index: nat): History {
    h.(acks := h.acks[(v, t) := Max(AckIndex(h, v, t), index)])
  }

  // ---- State ----

  /** A running loopCandidate: its term and the members that voted for it. */
  datatype Campaign = Campaign(term: nat, voters: set<NodeId>)

  /** A running or finished call of Replicate: its entry, the commit index it
    * captured, the peers that confirmed, and whether it returned nil. */
  datatype Call = Call(leader: NodeId, entry: LogEntry, commit: nat, acks: set<NodeId>, returned: bool)

  /** A response carries the request it answers; `call` tells a request of
    * Replicate from a heartbeat. */
  datatype Message =
    | VoteRequest(vargs: RequestVoteArgs)
    | VoteResponse(voter: NodeId, vargs: RequestVoteArgs, vreply: RequestVoteReply)
    | AppendRequest(peer: NodeId, args: AppendEntriesArgs, call: Option<nat>)
    | AppendResponse(peer: NodeId, args: AppendEntriesArgs, call: Option<nat>, reply: AppendEntriesReply)

  datatype State = State(
    nodes: map<NodeId, NodeState>,
    campaigns: map<NodeId, Campaign>,
    calls: seq<Call>,
    net: set<Message>,
    collected: map<NodeId, seq<LogEntry>>,
    h: History)

  /** Every node knows the same membership, without itself and without
    * repetition, and there are at least two nodes. */
  ghost predicate ValidMembership(peersOf: map<NodeId, seq<NodeId>>) {
    && |peersOf| >= 2
    && "" !in peersOf
    && forall v | v in peersOf :: Distinct(peersOf[v]) && SeqSet(peersOf[v]) == peersOf.Keys - {v}
  }

  function Init(peersOf: map<NodeId, seq<NodeId>>): State {
    State(map v | v in peersOf :: NewNode(v, peersOf[v]), map[], [], {},
          map v | v in peersOf :: [], History(map[], map[], map[], map[]))
  }

  // ---- Events ----

  datatype Event =
    | Timeout(n: NodeId)
    | Campaigning(n: NodeId)
    | AnswerVote(n: NodeId, m: Message)
    | CountVote(m: Message)
    | Win(n: NodeId)
    | StepDown(n: NodeId)
    | ClientAppend(n: NodeId, command: Command)
    | SendReplicate(c: nat, p: NodeId)
    | SendHeartbeat(n: NodeId, p: NodeId)
    | HandleAppend(m: Message)
    | ReplicateReply(m: Message)
    | HeartbeatReply(m: Message)
    | Return(c: nat)
    | CollectCommitted(n: NodeId)

  predicate Enabled(s: State, e: Event) {
    match e
    case Timeout(n) => n in s.nodes && s.nodes[n].role == Follower
    case Campaigning(n) => n in s.nodes && s.nodes[n].role != Leader
    case AnswerVote(n, m) =>
      m in s.net && m.VoteRequest? && n in s.nodes && n != m.vargs.candidateId
    case CountVote(m) =>
      && m in s.net && m.VoteResponse? && m.vargs.candidateId in s.nodes
      && m.vargs.candidateId in s.campaigns && s.campaigns[m.vargs.candidateId].term == m.vargs.term
    case Win(n) =>
      n in s.nodes && n in s.campaigns && |s.campaigns[n].voters| >= Majority(s.nodes[n].peers)
    case StepDown(n) => n in s.nodes && s.nodes[n].stepDowns != []
    case ClientAppend(n, _) => n in s.nodes && s.nodes[n].role == Leader
    case SendReplicate(c, p) =>
      && c < |s.calls| && s.calls[c].leader in s.nodes
      && var n := s.nodes[s.calls[c].leader];
         n.currentTerm == s.calls[c].entry.term && n.role == Leader && p in n.peers
    case SendHeartbeat(n, p) =>
      // loopLeader reads the role without the lock, so it may be stale here
      n in s.nodes && p in s.nodes[n].peers && p in s.nodes[n].nextIndex
    case HandleAppend(m) => m in s.net && m.AppendRequest? && m.peer in s.nodes
    case ReplicateReply(m) =>
      && m in s.net && m.AppendResponse? && m.call.Some? && m.call.value < |s.calls|
      && s.calls[m.call.value].leader in s.nodes
    case HeartbeatReply(m) =>
      m in s.net && m.AppendResponse? && m.call.None? && m.args.leaderId in s.nodes
    case Return(c) =>
      && c < |s.calls| && !s.calls[c].returned && s.calls[c].leader in s.nodes
      && |s.calls[c].acks| + 1 >= Majority(s.nodes[s.calls[c].leader].peers)
    case CollectCommitted(n) => n in s.nodes && n in s.collected
  }

  function SetNode(s: State, n: NodeId, node: NodeState): State {
    s.(nodes := s.nodes[n := node])
  }

  function EndCampaign(s: State, n: NodeId): State {
    s.(campaigns := s.campaigns - {n})
  }

  function Send(s: State, m: Message): State {
    s.(net := s.net + {m})
  }

  /** No node's log is ever empty, so its last entry can be read. */
  ghost predicate LogsNonEmpty(s: State) {
    forall v | v in s.nodes :: |s.nodes[v].log| > 0
  }

  ghost function Step(s: State, e: Event): State
    requires LogsNonEmpty(s) && Enabled(s, e)
  {
    match e
    case Timeout(n) => DoTimeout(s, n)
    case Campaigning(n) => DoCampaign(s, n)
    case AnswerVote(n, m) => DoAnswerVote(s, n, m)
    case CountVote(m) => DoCountVote(s, m)
    case Win(n) => DoWin(s, n)
    case StepDown(n) => DoStepDown(s, n)
    case ClientAppend(n, command) => DoClientAppend(s, n, command)
    case SendReplicate(c, p) => DoSendReplicate(s, c, p)
    case SendHeartbeat(n, p) => DoSendHeartbeat(s, n, p)
    case HandleAppend(m) => DoHandleAppend(s, m)
    case ReplicateReply(m) => DoReplicateReply(s, m)
    case HeartbeatReply(m) => DoHeartbeatReply(s, m)
    case Return(c) => DoReturn(s, c)
    case CollectCommitted(n) => DoCollect(s, n)
  }

  ghost function DoTimeout(s: State, n: NodeId): State
    requires n in s.nodes
  {
    EndCampaign(SetNode(s, n, s.nodes[n].(role := Candidate)), n)
  }

  ghost function DoStepDown(s: State, n: NodeId): State
    requires n in s.nodes && s.nodes[n].stepDowns != []
  {
    EndCampaign(SetNode(s, n, TakeStepDown(s.nodes[n])), n)
  }

  ghost function DoCampaign(s: State, n: NodeId): State
    requires LogsNonEmpty(s) && n in s.nodes
  {
    var node := StartElection(s.nodes[n]);
    var s1 := Send(SetNode(s, n, node), VoteRequest(VoteArgs(node)));
    s1.(campaigns := s.campaigns[n := Campaign(node.currentTerm, {n})],
        h := CastVote(s.h, n, node.currentTerm, Ballot(n, node.log)))
  }

  ghost function DoAnswerVote(s: State, n: NodeId, m: Message): State
    requires LogsNonEmpty(s) && n in s.nodes && m.VoteRequest?
  {
    var (node, reply) := HandleRequestVote(s.nodes[n], m.vargs);
    var s1 := Send(SetNode(s, n, node), VoteResponse(n, m.vargs, reply));
    if reply.voteGranted then
      s1.(h := CastVote(s.h, n, m.vargs.term, Ballot(m.vargs.candidateId, node.log)))
    else s1
  }

  ghost function DoCountVote(s: State, m: Message): State
    requires m.VoteResponse? && m.vargs.candidateId in s.nodes && m.vargs.candidateId in s.campaigns
  {
    var n := m.vargs.candidateId;
    var c := s.campaigns[n];
    if m.vreply.term > c.term then EndCampaign(SetNode(s, n, BecomeFollower(s.nodes[n], m.vreply.term)), n)
    else if m.vreply.voteGranted then s.(campaigns := s.campaigns[n := c.(voters := c.voters + {m.voter})])
    else s
  }

  ghost function DoWin(s: State, n: NodeId): State
    requires LogsNonEmpty(s) && n in s.nodes && n in s.campaigns
  {
    var c := s.campaigns[n];
    var node := BecomeLeader(s.nodes[n], c.term);
    var s1 := EndCampaign(SetNode(s, n, node), n);
    if s.nodes[n].currentTerm == c.term && s.nodes[n].role == Candidate then
      s1.(h := RecordAck(
            s.h.(elections := s.h.elections[c.term := Election(n, c.voters)],
                 ledger := s.h.ledger[c.term := node.log]),
            n, c.term, |node.log| - 1))
    else s1
  }

  ghost function DoClientAppend(s: State, n: NodeId, command: Command): State
    requires LogsNonEmpty(s) && n in s.nodes
  {
    var node := AppendCommand(s.nodes[n], command);
    SetNode(s, n, node).(
      calls := s.calls + [Call(n, NewEntry(s.nodes[n], command), s.nodes[n].commitIndex, {}, false)],
      h := RecordAck(s.h.(ledger := s.h.ledger[node.currentTerm := node.log]), n, node.currentTerm, |node.log| - 1))
  }

  ghost function ReplicateRequest(s: State, c: nat, p: NodeId): Message
    requires c < |s.calls| && s.calls[c].leader in s.nodes
  {
    var call := s.calls[c];
    AppendRequest(p, BuildReplicate(s.nodes[call.leader], p, call.entry, call.entry.term, call.commit), Some(c))
  }

  ghost function DoSendReplicate(s: State, c: nat, p: NodeId): State
    requires c < |s.calls| && s.calls[c].leader in s.nodes
  {
    Send(s, ReplicateRequest(s, c, p))
  }

  ghost function DoSendHeartbeat(s: State, n: NodeId, p: NodeId): State
    requires LogsNonEmpty(s) && n in s.nodes
  {
    Send(s, AppendRequest(p, BuildHeartbeat(s.nodes[n], p), None))
  }

  ghost function DoHandleAppend(s: State, m: Message): State
    requires LogsNonEmpty(s) && m.AppendRequest? && m.peer in s.nodes
  {
    var (node, reply) := HandleAppendEntries(s.nodes[m.peer], m.args);
    var s1 := Send(SetNode(s, m.peer, node), AppendResponse(m.peer, m.args, m.call, reply));
    if reply.success && IsChecked(m.args) then
      s1.(h := RecordAck(s.h, m.peer, m.args.term, m.args.prevLogIndex + |m.args.entries|))
    else s1
  }

  ghost function DoReplicateReply(s: State, m: Message): State
    requires m.AppendResponse? && m.call.Some? && m.call.value < |s.calls|
    requires s.calls[m.call.value].leader in s.nodes
  {
    var c := m.call.value;
    var call := s.calls[c];
    var s1 := SetNode(s, call.leader,
                      HandleReplicateReply(s.nodes[call.leader], m.peer, call.entry.index, m.args.term, m.reply));
    if m.reply.term <= m.args.term && m.reply.success then
      s1.(calls := s.calls[c := call.(acks := call.acks + {m.peer})])
    else s1
  }

  ghost function DoHeartbeatReply(s: State, m: Message): State
    requires LogsNonEmpty(s) && m.AppendResponse? && m.args.leaderId in s.nodes
  {
    SetNode(s, m.args.leaderId, HandleHeartbeatReply(s.nodes[m.args.leaderId], m.peer, m.args, m.reply))
  }

  ghost function DoReturn(s: State, c: nat): State
    requires c < |s.calls| && s.calls[c].leader in s.nodes
  {
    var call := s.calls[c];
    SetNode(s, call.leader, CommitEntry(s.nodes[call.leader], call.entry.index)).(
      calls := s.calls[c := call.(returned := true)])
  }

  ghost function DoCollect(s: State, n: NodeId): State
    requires n in s.nodes && n in s.collected
  {
    SetNode(s, n, Collect(s.nodes[n])).(collected := s.collected[n := s.collected[n] + Batch(s.nodes[n])])
  }

  // ---- Runs ----

  /** Which of the four disciplines a run keeps: heartbeats with entries are built only
    * while leading or with a last entry of the own term, commits are learnt only from
    * checked requests or with a last entry of the request's term, leaders credit
    * successes only in the term of their request, and a heartbeat's success moves the
    * commit index only while leading. The code enforces none of them. */
  datatype Discipline = Discipline(guarded: bool, checked: bool, ownTerm: bool, leading: bool)

  const FULL := Discipline(true, true, true, true)

  /** The request names a predecessor or carries entries, so that the follower
    * compares its log before it moves its commit index. */
  predicate IsChecked(args: AppendEntriesArgs) {
    args.prevLogIndex > 0 || args.entries != []
  }

  /** A heartbeat with entries is built only by a leader, or by a node whose last entry
    * is of its own term. */
  predicate GuardsHeartbeat(s: State, e: Event) {
    e.SendHeartbeat? && e.n in s.nodes && |s.nodes[e.n].log| > 0 ==>
      var n := s.nodes[e.n];
      n.role == Leader || LastTerm(n.log) == n.currentTerm || Lookup(n.nextIndex, e.p) > LastIndex(n.log)
  }

  /** An unchecked request moves the commit index only of a node whose last entry is
    * of the request's term. It cannot move one that has reached the log's end. */
  predicate LearnsChecked(s: State, e: Event) {
    e.HandleAppend? && e.m.AppendRequest? && e.m.peer in s.nodes && !IsChecked(e.m.args) ==>
      || e.m.args.term < s.nodes[e.m.peer].currentTerm
      || e.m.args.leaderCommit <= s.nodes[e.m.peer].commitIndex
      || (&& |s.nodes[e.m.peer].log| > 0
          && (|| LastTerm(s.nodes[e.m.peer].log) == e.m.args.term
              || LastIndex(s.nodes[e.m.peer].log) == s.nodes[e.m.peer].commitIndex))
  }

  /** A success for entries up to `index` may be credited to a leader: it answers a
    * request of the leader's term, or is no news. */
  predicate MayCredit(n: NodeState, peer: NodeId, term: nat, index: nat) {
    n.currentTerm == term || index <= Lookup(n.matchIndex, peer)
  }

  /** The event handles the success of a heartbeat with entries. */
  predicate CreditsHeartbeat(s: State, e: Event) {
    && e.HeartbeatReply? && e.m.AppendResponse? && e.m.reply.success && e.m.args.entries != []
    && e.m.args.leaderId in s.nodes
  }

  /** A leader credits a success only in the term of its request. */
  predicate CreditsOwnTerm(s: State, e: Event) {
    && (CreditsHeartbeat(s, e) ==>
          var n := s.nodes[e.m.args.leaderId];
          n.role == Leader ==> MayCredit(n, e.m.peer, e.m.args.term, e.m.args.prevLogIndex + |e.m.args.entries|))
    && (e.ReplicateReply? && e.m.AppendResponse? && e.m.reply.success
        && e.m.call.Some? && e.m.call.value < |s.calls| && s.calls[e.m.call.value].leader in s.nodes ==>
          var n := s.nodes[s.calls[e.m.call.value].leader];
          n.role == Leader ==> MayCredit(n, e.m.peer, e.m.args.term, s.calls[e.m.call.value].entry.index))
  }

  /** A node that does not lead handles the success of a heartbeat only if that leaves
    * nothing to commit. */
  predicate CommitsLeading(s: State, e: Event) {
    CreditsHeartbeat(s, e) ==>
      var n := s.nodes[e.m.args.leaderId];
      n.role != Leader && |n.log| > 0 && n.peers != [] ==>
        NothingToCommit(RecordHeartbeat(n, e.m.peer, e.m.args.prevLogIndex + |e.m.args.entries|))
  }

  predicate Allowed(d: Discipline, s: State, e: Event) {
    && (d.guarded ==> GuardsHeartbeat(s, e))
    && (d.checked ==> LearnsChecked(s, e))
    && (d.ownTerm ==> CreditsOwnTerm(s, e))
    && (d.leading ==> CommitsLeading(s, e))
  }

  datatype Run = Run(states: seq<State>, events: seq<Event>)

  ghost predicate IsStep(d: Discipline, s: State, e: Event, s': State) {
    LogsNonEmpty(s) && Enabled(s, e) && Allowed(d, s, e) && s' == Step(s, e)
  }

  ghost predicate IsRun(d: Discipline, peersOf: map<NodeId, seq<NodeId>>, r: Run) {
    && ValidMembership(peersOf)
    && |r.states| == |r.events| + 1
    && r.states[0] == Init(peersOf)
    && forall i | 0 <= i < |r.events| :: IsStep(d, r.states[i], r.events[i], r.states[i + 1])
  }
}
