/** What applyCommitted hands to the apply loop, in every run of the code as
  * written. */
module Collection {
  import opened RaftLog
  import opened RaftNode
  import opened Cluster
  import opened Actors
  import opened Elections
  import opened ElectionSafety

  /** The collected entries are those of indices 1..lastApplied, once each, in order. */
  ghost predicate InOrder(n: NodeState, collected: seq<LogEntry>) {
    |collected| == n.lastApplied && forall i | 0 <= i < |collected| :: collected[i].index == i + 1
  }

  /** A batch is complete if and only if the commit index lies within the log, or
    * there is nothing new to apply; otherwise indices are skipped for good. */
  lemma BatchCompleteIff(n: NodeState)
    requires WellFormed(n.log)
    ensures |Batch(n)| == Collect(n).lastApplied - n.lastApplied <==>
            n.commitIndex <= LastIndex(n.log) || n.commitIndex <= n.lastApplied
    ensures forall i | 0 <= i < |Batch(n)| :: Batch(n)[i].index == n.lastApplied + 1 + i
  {
    hide EntriesBetween;
    EntriesBetweenIsSlice(n.log, n.lastApplied + 1, n.commitIndex);
  }

  ghost predicate CollectsInLog(s: State, e: Event) {
    e.CollectCommitted? && e.n in s.nodes && |s.nodes[e.n].log| > 0 ==>
      s.nodes[e.n].commitIndex <= LastIndex(s.nodes[e.n].log) || s.nodes[e.n].commitIndex <= s.nodes[e.n].lastApplied
  }

  ghost predicate AppliedKept(s: State, s': State) {
    && s'.collected == s.collected
    && s'.nodes.Keys == s.nodes.Keys
    && forall v | v in s.nodes :: s'.nodes[v].lastApplied == s.nodes[v].lastApplied
  }

  lemma StepKeepsApplied(s: State, e: Event)
    requires LogsNonEmpty(s) && Enabled(s, e) && !e.CollectCommitted?
    ensures AppliedKept(s, Step(s, e))
  {
    hide LogsNonEmpty, Enabled, Step;
    CollectedKept(s, e);
    StepKeys(s, e);
    forall v | v in s.nodes ensures Step(s, e).nodes[v].lastApplied == s.nodes[v].lastApplied {
      StepEffects(s, e, v);
    }
  }

  ghost predicate AllInOrder(s: State) {
    forall v | v in s.nodes :: v in s.collected && InOrder(s.nodes[v], s.collected[v])
  }

  lemma CollectKeepsOrder(s: State, n: NodeId)
    requires Enabled(s, CollectCommitted(n)) && WellFormed(s.nodes[n].log) && CollectsInLog(s, CollectCommitted(n))
    requires AllInOrder(s)
    ensures AllInOrder(DoCollect(s, n))
  {
    BatchCompleteIff(s.nodes[n]);
    hide Batch, WellFormed;
    assert InOrder(s.nodes[n], s.collected[n]);
  }

  /** Exactly-once collection for the code as written: as long as no batch is taken
    * with the commit index beyond the log, every node collects the entries of
    * indices 1..lastApplied, once each, in order. */
  lemma {:induction false} CollectedInOrder(d: Discipline, peersOf: map<NodeId, seq<NodeId>>, r: Run, i: nat)
    requires IsRun(d, peersOf, r) && i < |r.states|
    requires forall k | 0 <= k < i :: CollectsInLog(r.states[k], r.events[k])
    ensures AllInOrder(r.states[i])
  {
    hide ElectionInv, LogInv, Step, Enabled, Allowed, CollectsInLog;
    if i == 0 {
      assert r.states[0] == Init(peersOf);
    } else {
      var s, e := r.states[i - 1], r.events[i - 1];
      hide ValidMembership;
      CollectedInOrder(d, peersOf, r, i - 1);
      RunElectionInv(d, peersOf, r, i - 1);
      assert IsStep(d, s, e, r.states[i]);
      hide IsRun, InOrder;
      OrderStep(s, e);
    }
  }

  lemma OrderStep(s: State, e: Event)
    requires LogsNonEmpty(s) && Enabled(s, e) && CollectsInLog(s, e) && LogInv(s)
    requires AllInOrder(s)
    ensures AllInOrder(Step(s, e))
  {
    hide LogInv, Enabled, CollectsInLog;
    if e.CollectCommitted? {
      assert e.n in s.nodes by { CollectEnabled(s, e); }
      LogParts(s, e.n);
      hide AllInOrder, LogsNonEmpty;
      CollectKeepsOrder(s, e.n);
    } else {
      StepKeepsApplied(s, e);
      hide Step;
    }
  }

  lemma CollectEnabled(s: State, e: Event)
    requires e.CollectCommitted? && Enabled(s, e)
    ensures e.n in s.nodes && e.n in s.collected
  {
  }
}
