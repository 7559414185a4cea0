/** From the Raft log to the tables: what the stores of the nodes hold. */
module Replicas {
  import opened Options
  import opened RaftLog
  import opened Cluster
  import opened Elections
  import opened ElectionSafety
  import opened Ledger
  import opened Replication
  import opened ReplicationSafety
  import opened StateMachineSafety
  import KvLog
  import Recovery

  /** The commands a node has collected, as its apply loop decodes them. */
  ghost function Commands(decode: Command -> Option<KvLog.Entry>, collected: seq<LogEntry>): seq<Option<KvLog.Entry>> {
    seq(|collected|, i requires 0 <= i < |collected| => decode(collected[i].command))
  }

  /** Two nodes that have collected n entries each, at whatever moments of the run,
    * have collected the same ones. */
  lemma SameCollected(peersOf: map<NodeId, seq<NodeId>>, r: Run, i: nat, j: nat, a: NodeId, b: NodeId, n: nat)
    requires IsRun(FULL, peersOf, r) && i < |r.states| && j < |r.states|
    requires a in r.states[i].nodes && a in r.states[i].collected && n <= |r.states[i].collected[a]|
    requires b in r.states[j].nodes && b in r.states[j].collected && n <= |r.states[j].collected[b]|
    ensures r.states[i].collected[a][..n] == r.states[j].collected[b][..n]
  {
    hide IsRun;
    forall x | 0 <= x < n ensures r.states[i].collected[a][x] == r.states[j].collected[b][x] {
      StateMachineSafety.StateMachineSafety(peersOf, r, i, j, a, b, x);
    }
  }

  /** Replicas agree: two stores that applied the first n collected commands, with
    * appends that succeed, hold the same table, whatever their configurations and
    * snapshot saves. */
  lemma ReplicasAgree(
    peersOf: map<NodeId, seq<NodeId>>, r: Run, i: nat, j: nat, a: NodeId, b: NodeId, n: nat,
    decode: Command -> Option<KvLog.Entry>,
    cfgA: Recovery.Config, iosA: seq<Recovery.Io>, cfgB: Recovery.Config, iosB: seq<Recovery.Io>)
    requires IsRun(FULL, peersOf, r) && i < |r.states| && j < |r.states|
    requires a in r.states[i].nodes && a in r.states[i].collected && n <= |r.states[i].collected[a]|
    requires b in r.states[j].nodes && b in r.states[j].collected && n <= |r.states[j].collected[b]|
    requires |iosA| == |iosB| == n && forall io | io in iosA || io in iosB :: io.append == Recovery.Written
    ensures Recovery.ApplyAll(cfgA, Recovery.EMPTY, Commands(decode, r.states[i].collected[a][..n]), iosA).data ==
            Recovery.ApplyAll(cfgB, Recovery.EMPTY, Commands(decode, r.states[j].collected[b][..n]), iosB).data
  {
    hide IsRun;
    SameCollected(peersOf, r, i, j, a, b, n);
    var cmds := Commands(decode, r.states[i].collected[a][..n]);
    Recovery.ApplyLoopReplays(cfgA, Recovery.EMPTY, cmds, iosA);
    Recovery.ApplyLoopReplays(cfgB, Recovery.EMPTY, cmds, iosB);
    Recovery.AllWritten(cfgA, cmds, iosA);
    Recovery.AllWritten(cfgB, cmds, iosB);
  }

  /** An acknowledged write is what every node applies at its index: once Replicate has
    * returned nil for an entry, no node ever collects another one there. */
  lemma AcknowledgedWritesApplied(peersOf: map<NodeId, seq<NodeId>>, r: Run, i: nat, c: nat, j: nat, v: NodeId)
    requires IsRun(FULL, peersOf, r) && i < |r.states| && j < |r.states|
    requires c < |r.states[i].calls| && r.states[i].calls[c].returned
    requires v in r.states[j].nodes && v in r.states[j].collected
    requires r.states[i].calls[c].entry.index <= |r.states[j].collected[v]|
    ensures var entry := r.states[i].calls[c].entry;
            1 <= entry.index && r.states[j].collected[v][entry.index - 1] == entry
  {
    hide ElectionInv, LogInv, ReplicationInv, IsRun, Committed;
    var k := if i <= j then j else i;
    var entry := r.states[i].calls[c].entry;
    CommittedLater(FULL, peersOf, r, i, c, k);
    assert 1 <= entry.index by { EntryIndexPositive(r.states[k], entry); }
    var t, p := CollectedIsCommitted(peersOf, r, j, k, v, entry.index - 1);
    RunReplicationInv(FULL, peersOf, r, k);
    RunElectionInv(FULL, peersOf, r, k);
    CommittedComparable(r.states[k], t, p, entry.term, entry.index, entry.index);
  }

  lemma EntryIndexPositive(s: State, entry: LogEntry)
    requires Committed(s.nodes.Keys, s.h, entry.term, entry.index)
    ensures 1 <= entry.index
  {
  }
}
