/** The in-memory Raft log of raft/log.go.
  * Entries carry their own index, and every lookup scans for it. Position 0
  * holds a sentinel of index 0 and term 0. */
module RaftLog {
  import opened Options

  type NodeId = string
  type Command = string

  datatype LogEntry = LogEntry(term: nat, index: nat, command: Command)

  type Log = seq<LogEntry>

  const SENTINEL := LogEntry(0, 0, "")
  const MAX_UINT64 := 0xFFFF_FFFF_FFFF_FFFF

  /** `i - 1` on unsigned 64-bit integers: it wraps at zero. */
  function Dec64(i: nat): nat {
    if i == 0 then MAX_UINT64 else i - 1
  }

  /** Index i sits at position i, and terms are positive and never fall. */
  ghost predicate WellFormed(log: Log) {
    && |log| > 0
    && log[0] == SENTINEL
    && (forall i | 0 <= i < |log| :: log[i].index == i)
    && (forall i | 0 < i < |log| :: 1 <= log[i].term)
    && (forall i, j | 0 <= i <= j < |log| :: log[i].term <= log[j].term)
  }

  /** Both logs reach index i and are identical up to and including it. */
  ghost predicate Agree(a: Log, b: Log, i: nat) {
    && i < |a|
    && i < |b|
    && forall k | 0 <= k <= i :: a[k] == b[k]
  }

  ghost predicate IsPrefix(a: Log, b: Log) {
    |a| <= |b| && forall k | 0 <= k < |a| :: a[k] == b[k]
  }

  function LastIndex(log: Log): nat
    requires |log| > 0
  {
    log[|log| - 1].index
  }

  function LastTerm(log: Log): nat
    requires |log| > 0
  {
    log[|log| - 1].term
  }

  /** The first entry carrying `index`. */
  function EntryAt(log: Log, index: nat): Option<LogEntry> {
    if log == [] then None
    else if log[0].index == index then Some(log[0])
    else EntryAt(log[1..], index)
  }

  /** The entries before the first one whose index exceeds `index`. */
  function TruncateAfter(log: Log, index: nat): Log {
    if log == [] || log[0].index > index then []
    else [log[0]] + TruncateAfter(log[1..], index)
  }

  /** The entries from the first one whose index reaches `index`. */
  function EntriesFrom(log: Log, index: nat): Log {
    if log == [] || log[0].index >= index then log
    else EntriesFrom(log[1..], index)
  }

  /** What the append loop of HandleAppendEntries does with one entry. */
  function MergeOne(log: Log, e: LogEntry): Log {
    match EntryAt(log, e.index)
    case Some(existing) =>
      if existing.term != e.term then TruncateAfter(log, Dec64(e.index)) + [e] else log
    case None => log + [e]
  }

  function Merge(log: Log, entries: seq<LogEntry>): Log
    decreases |entries|
  {
    if entries == [] then log else Merge(MergeOne(log, entries[0]), entries[1..])
  }

  lemma {:induction false} MergeNonEmpty(log: Log, entries: seq<LogEntry>)
    requires log != []
    ensures Merge(log, entries) != []
    decreases |entries|
  {
    if entries != [] {
      MergeNonEmpty(MergeOne(log, entries[0]), entries[1..]);
    }
  }

  // ---- Scanning a gap-free stretch is indexing ----

  ghost predicate Contiguous(entries: seq<LogEntry>, first: nat) {
    forall i | 0 <= i < |entries| :: entries[i].index == first + i
  }

  lemma {:induction false} LookupContiguous(log: Log, first: nat, index: nat)
    requires Contiguous(log, first)
    ensures EntryAt(log, index) ==
            if first <= index < first + |log| then Some(log[index - first]) else None
    decreases |log|
  {
    if log != [] {
      LookupContiguous(log[1..], first + 1, index);
    }
  }

  lemma {:induction false} TruncateContiguous(log: Log, first: nat, index: nat)
    requires Contiguous(log, first) && first <= index + 1 <= first + |log|
    ensures TruncateAfter(log, index) == log[..index + 1 - first]
    decreases |log|
  {
    if first <= index {
      var rest, k := log[1..], index - first;
      TruncateContiguous(rest, first + 1, index);
      assert TruncateAfter(log, index) == [log[0]] + rest[..k];
      hide TruncateAfter;
      assert [log[0]] + rest[..k] == log[..k + 1];
    }
  }

  lemma {:induction false} TruncateNothing(log: Log, first: nat, index: nat)
    requires Contiguous(log, first) && first + |log| <= index + 1
    ensures TruncateAfter(log, index) == log
    decreases |log|
  {
    if log != [] {
      TruncateNothing(log[1..], first + 1, index);
    }
  }

  lemma {:induction false} SuffixContiguous(log: Log, first: nat, index: nat)
    requires Contiguous(log, first)
    ensures first <= index <= first + |log| ==> EntriesFrom(log, index) == log[index - first..]
    ensures first + |log| <= index ==> EntriesFrom(log, index) == []
    decreases |log|
  {
    if log != [] && first < index {
      var rest := log[1..];
      SuffixContiguous(rest, first + 1, index);
      assert EntriesFrom(log, index) == EntriesFrom(rest, index);
      hide EntriesFrom;
      if index <= first + |log| {
        assert rest[index - first - 1..] == log[index - first..];
      }
    }
  }

  lemma ScanContiguous(log: Log, first: nat, index: nat)
    requires Contiguous(log, first)
    ensures EntryAt(log, index) ==
            if first <= index < first + |log| then Some(log[index - first]) else None
    ensures first <= index + 1 <= first + |log| ==> TruncateAfter(log, index) == log[..index + 1 - first]
    ensures first + |log| <= index + 1 ==> TruncateAfter(log, index) == log
    ensures first <= index <= first + |log| ==> EntriesFrom(log, index) == log[index - first..]
    ensures first + |log| <= index ==> EntriesFrom(log, index) == []
  {
    hide EntryAt, TruncateAfter, EntriesFrom;
    LookupContiguous(log, first, index);
    if first <= index + 1 <= first + |log| { TruncateContiguous(log, first, index); }
    if first + |log| <= index + 1 { TruncateNothing(log, first, index); }
    SuffixContiguous(log, first, index);
  }

  /** On a well-formed log the scanning lookups are direct indexing. */
  lemma ScanIsIndexing(log: Log, index: nat)
    requires WellFormed(log)
    ensures EntryAt(log, index) == if index < |log| then Some(log[index]) else None
    ensures index < |log| ==> TruncateAfter(log, index) == log[..index + 1]
    ensures |log| <= index ==> TruncateAfter(log, index) == log
    ensures index <= |log| ==> EntriesFrom(log, index) == log[index..]
    ensures |log| <= index ==> EntriesFrom(log, index) == []
    ensures LastIndex(log) == |log| - 1
  {
    ScanContiguous(log, 0, index);
  }

  lemma PrefixWellFormed(log: Log, k: nat)
    requires WellFormed(log) && 0 < k <= |log|
    ensures WellFormed(log[..k])
  {
  }

  // ---- The append loop as a declarative merge ----

  /** How many leading entries of the window are already in the log by term. */
  function Matched(log: Log, prev: nat, entries: seq<LogEntry>): (j: nat)
    requires prev < |log|
    ensures j <= |entries|
    ensures prev + j < |log|
    ensures forall k | 0 <= k < j :: log[prev + 1 + k].term == entries[k].term
    ensures j < |entries| && prev + 1 + j < |log| ==> log[prev + 1 + j].term != entries[j].term
    decreases |entries|
  {
    if entries == [] || prev + 1 >= |log| || log[prev + 1].term != entries[0].term then 0
    else 1 + Matched(log, prev + 1, entries[1..])
  }

  /** Keep the log when the window is already there, otherwise cut at the
    * first conflict and add the rest of the window. */
  function CutAndAdd(log: Log, prev: nat, entries: seq<LogEntry>): Log
    requires prev < |log|
  {
    var j := Matched(log, prev, entries);
    if j == |entries| then log else log[..prev + 1 + j] + entries[j..]
  }

  lemma MergeOneStep(log: Log, e: LogEntry)
    requires Contiguous(log, 0)
    requires 1 <= e.index <= |log|
    ensures MergeOne(log, e) ==
            if e.index < |log| && log[e.index].term == e.term then log else log[..e.index] + [e]
    ensures Contiguous(MergeOne(log, e), 0)
  {
    LookupContiguous(log, 0, e.index);
    hide EntryAt, TruncateAfter;
    if e.index < |log| {
      TruncateContiguous(log, 0, e.index - 1);
    } else {
      assert log[..e.index] == log;
    }
  }

  lemma {:induction false} MergeAppends(log: Log, entries: seq<LogEntry>)
    requires 0 < |log| && Contiguous(log, 0)
    requires Contiguous(entries, |log|)
    ensures Merge(log, entries) == log + entries
    decreases |entries|
  {
    hide MergeOne, EntryAt, TruncateAfter;
    if entries != [] {
      MergeOneStep(log, entries[0]);
      assert log[..|log|] == log;
      MergeAppends(log + [entries[0]], entries[1..]);
    }
  }

  lemma CutAndAddSkip(log: Log, prev: nat, entries: seq<LogEntry>)
    requires prev + 1 < |log| && entries != []
    requires log[prev + 1].term == entries[0].term
    ensures CutAndAdd(log, prev, entries) == CutAndAdd(log, prev + 1, entries[1..])
  {
    var j := Matched(log, prev + 1, entries[1..]);
    assert Matched(log, prev, entries) == 1 + j;
    hide Matched;
    if j < |entries| - 1 {
      assert entries[1..][j..] == entries[1 + j..];
      assert CutAndAdd(log, prev, entries) == log[..prev + 2 + j] + entries[1 + j..];
    }
  }

  lemma CutAndAddHere(log: Log, prev: nat, entries: seq<LogEntry>)
    requires prev < |log| && entries != []
    requires prev + 1 < |log| ==> log[prev + 1].term != entries[0].term
    ensures CutAndAdd(log, prev, entries) == log[..prev + 1] + [entries[0]] + entries[1..]
  {
    assert Matched(log, prev, entries) == 0;
    assert [entries[0]] + entries[1..] == entries[0..];
  }

  lemma TailContiguous(entries: seq<LogEntry>, first: nat)
    requires Contiguous(entries, first) && entries != []
    ensures entries[0].index == first && Contiguous(entries[1..], first + 1)
  {
  }

  lemma MergeNothing(log: Log, prev: nat)
    requires prev < |log|
    ensures Merge(log, []) == CutAndAdd(log, prev, []) == log
  {
    hide Matched;
  }

  lemma MergeSkip(log: Log, entries: seq<LogEntry>)
    requires Contiguous(log, 0) && entries != [] && 1 <= entries[0].index < |log|
    requires log[entries[0].index].term == entries[0].term
    ensures Merge(log, entries) == Merge(log, entries[1..])
  {
    hide MergeOne, Contiguous;
    MergeOneStep(log, entries[0]);
  }

  lemma MergeConflict(log: Log, prev: nat, entries: seq<LogEntry>)
    requires Contiguous(log, 0) && prev < |log| && Contiguous(entries, prev + 1) && entries != []
    requires prev + 1 < |log| ==> log[prev + 1].term != entries[0].term
    ensures Merge(log, entries) == log[..prev + 1] + [entries[0]] + entries[1..]
  {
    hide MergeOne, Contiguous;
    TailContiguous(entries, prev + 1);
    MergeOneStep(log, entries[0]);
    assert Merge(log, entries) == Merge(log[..prev + 1] + [entries[0]], entries[1..]);
    hide Merge;
    MergeAppends(log[..prev + 1] + [entries[0]], entries[1..]);
  }

  /** The entry-by-entry loop computes the declarative merge. */
  lemma {:induction false} MergeIsCutAndAdd(log: Log, prev: nat, entries: seq<LogEntry>)
    requires Contiguous(log, 0)
    requires prev < |log|
    requires Contiguous(entries, prev + 1)
    ensures Merge(log, entries) == CutAndAdd(log, prev, entries)
    decreases |entries|
  {
    hide Merge, CutAndAdd, Contiguous;
    if entries == [] {
      MergeNothing(log, prev);
    } else {
      TailContiguous(entries, prev + 1);
      if prev + 1 < |log| && log[prev + 1].term == entries[0].term {
        MergeSkip(log, entries);
        MergeIsCutAndAdd(log, prev + 1, entries[1..]);
        CutAndAddSkip(log, prev, entries);
      } else {
        MergeConflict(log, prev, entries);
        CutAndAddHere(log, prev, entries);
      }
    }
  }

  /** After the merge the whole window is in the log by term. */
  lemma CutAndAddHoldsWindow(log: Log, prev: nat, entries: seq<LogEntry>)
    requires Contiguous(log, 0) && prev < |log| && Contiguous(entries, prev + 1)
    ensures var merged := CutAndAdd(log, prev, entries);
            && Contiguous(merged, 0) && prev + |entries| < |merged|
            && forall k | 0 <= k < |entries| :: merged[prev + 1 + k].term == entries[k].term
  {
    var j := Matched(log, prev, entries);
    hide Matched;
    if j < |entries| {
      JoinHoldsWindow(log[..prev + 1 + j], prev, entries, j);
    }
  }

  lemma JoinHoldsWindow(kept: Log, prev: nat, entries: seq<LogEntry>, j: nat)
    requires Contiguous(kept, 0) && Contiguous(entries, prev + 1)
    requires j <= |entries| && |kept| == prev + 1 + j
    requires forall k | 0 <= k < j :: kept[prev + 1 + k].term == entries[k].term
    ensures Contiguous(kept + entries[j..], 0)
    ensures forall k | 0 <= k < |entries| :: (kept + entries[j..])[prev + 1 + k].term == entries[k].term
  {
    var merged := kept + entries[j..];
    forall k | 0 <= k < |entries| ensures merged[prev + 1 + k].term == entries[k].term {
      if k >= j {
        assert merged[prev + 1 + k] == entries[j..][k - j];
      }
    }
  }

  lemma MatchedWhole(log: Log, prev: nat, entries: seq<LogEntry>)
    requires prev + |entries| < |log|
    requires forall k | 0 <= k < |entries| :: log[prev + 1 + k].term == entries[k].term
    ensures CutAndAdd(log, prev, entries) == log
  {
    var j := Matched(log, prev, entries);
    hide Matched;
    assert forall k | 0 <= k < |entries| :: log[prev + 1 + k].term == entries[k].term && k != j;
  }

  /** Handling the same window twice changes nothing the second time. */
  lemma MergeIdempotent(log: Log, prev: nat, entries: seq<LogEntry>)
    requires Contiguous(log, 0)
    requires prev < |log|
    requires Contiguous(entries, prev + 1)
    ensures Merge(Merge(log, entries), entries) == Merge(log, entries)
  {
    hide Merge, CutAndAdd, Contiguous;
    MergeIsCutAndAdd(log, prev, entries);
    CutAndAddHoldsWindow(log, prev, entries);
    MergeIsCutAndAdd(CutAndAdd(log, prev, entries), prev, entries);
    MatchedWhole(CutAndAdd(log, prev, entries), prev, entries);
  }

  // ---- Windows of one leader's log ----

  /** `entries` is the stretch of `log` just after `prev`. */
  ghost predicate IsWindow(log: Log, prev: nat, entries: seq<LogEntry>) {
    && prev + |entries| < |log|
    && forall k | 0 <= k < |entries| :: entries[k] == log[prev + 1 + k]
  }

  /** Log Matching between two logs: one equal term at one index forces
    * agreement up to that index. */
  ghost predicate LogsMatch(a: Log, b: Log) {
    forall i: nat | i < |a| && i < |b| && a[i].term == b[i].term :: Agree(a, b, i)
  }

  /** The follower's log after accepting a window of the leader's log: it is
    * kept when it already agrees through the window's end, and is otherwise
    * the leader's log up to there. */
  lemma MergeWindow(log: Log, leader: Log, prev: nat, entries: seq<LogEntry>)
    requires WellFormed(log) && WellFormed(leader) && LogsMatch(log, leader)
    requires IsWindow(leader, prev, entries)
    requires Agree(log, leader, prev)
    ensures var last := prev + |entries|;
            && Agree(Merge(log, entries), leader, last)
            && Merge(log, entries) == if Agree(log, leader, last) then log else leader[..last + 1]
  {
    MergeIsCutAndAdd(log, prev, entries);
    CutAndAddWindow(log, leader, prev, entries);
  }

  lemma CutAndAddWindow(log: Log, leader: Log, prev: nat, entries: seq<LogEntry>)
    requires LogsMatch(log, leader)
    requires IsWindow(leader, prev, entries)
    requires Agree(log, leader, prev)
    ensures var last := prev + |entries|;
            && Agree(CutAndAdd(log, prev, entries), leader, last)
            && CutAndAdd(log, prev, entries) == if Agree(log, leader, last) then log else leader[..last + 1]
  {
    MatchedAgrees(log, leader, prev, entries);
    var j, last := Matched(log, prev, entries), prev + |entries|;
    assert last < |leader|;
    assert j == |entries| ==> CutAndAdd(log, prev, entries) == log;
    assert j < |entries| ==> CutAndAdd(log, prev, entries) == log[..prev + 1 + j] + entries[j..];
    hide Matched, LogsMatch, Agree, CutAndAdd;
    if j < |entries| {
      CutIsLeaderPrefix(log, leader, prev, entries, j);
      PrefixAgrees(leader, last);
    }
  }

  /** The log agrees with the leader's as far as the window matches it, and no further
    * within the window. */
  lemma MatchedAgrees(log: Log, leader: Log, prev: nat, entries: seq<LogEntry>)
    requires LogsMatch(log, leader)
    requires IsWindow(leader, prev, entries)
    requires Agree(log, leader, prev)
    ensures var j := Matched(log, prev, entries);
            Agree(log, leader, prev + j) && (j < |entries| ==> !Agree(log, leader, prev + |entries|))
  {
    var j := Matched(log, prev, entries);
    hide Matched;
    if j > 0 {
      assert log[prev + 1 + (j - 1)].term == entries[j - 1].term;
    }
    if j < |entries| {
      assert entries[j] == leader[prev + 1 + j];
    }
  }

  lemma PrefixAgrees(log: Log, k: nat)
    requires k < |log|
    ensures Agree(log[..k + 1], log, k)
  {
  }

  lemma CutIsLeaderPrefix(log: Log, leader: Log, prev: nat, entries: seq<LogEntry>, j: nat)
    requires IsWindow(leader, prev, entries)
    requires j <= |entries| && Agree(log, leader, prev + j)
    ensures log[..prev + 1 + j] + entries[j..] == leader[..prev + |entries| + 1]
  {
    var rest := entries[j..];
    assert forall k | 0 <= k < |rest| :: rest[k] == leader[prev + 1 + j + k];
  }

  datatype Window = Window(prev: nat, entries: seq<LogEntry>)

  /** The follower's log after handling windows one after another, rejecting
    * those whose predecessor it lacks. */
  function HandleWindows(log: Log, leader: Log, ws: seq<Window>): Log
    decreases |ws|
  {
    if ws == [] then log
    else
      var w := ws[0];
      var accepted := w.prev < |log| && w.prev < |leader| && log[w.prev].term == leader[w.prev].term;
      HandleWindows(if accepted then Merge(log, w.entries) else log, leader, ws[1..])
  }

  /** However often and in whatever order windows of one leader's log arrive,
    * what the follower agrees on with that leader never shrinks. */
  lemma {:induction false} WindowsNeverShrinkAgreement(log: Log, leader: Log, ws: seq<Window>, agreed: nat)
    requires WellFormed(log) && WellFormed(leader) && LogsMatch(log, leader)
    requires forall w | w in ws :: IsWindow(leader, w.prev, w.entries)
    requires Agree(log, leader, agreed)
    ensures Agree(HandleWindows(log, leader, ws), leader, agreed)
    ensures WellFormed(HandleWindows(log, leader, ws))
    decreases |ws|
  {
    if ws != [] {
      var w := ws[0];
      assert w in ws;
      assert forall v | v in ws[1..] :: v in ws;
      if w.prev < |log| && log[w.prev].term == leader[w.prev].term {
        assert Agree(log, leader, w.prev);
        MergeWindow(log, leader, w.prev, w.entries);
        WindowsNeverShrinkAgreement(Merge(log, w.entries), leader, ws[1..], agreed);
      } else {
        WindowsNeverShrinkAgreement(log, leader, ws[1..], agreed);
      }
    }
  }
}
