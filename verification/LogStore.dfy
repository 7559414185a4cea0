/** The mutable log store of raft/log.go, with its scanning loops. */
module RaftLogStore {
  import opened Options
  import opened RaftLog

  /** Position i holds the first entry that carries `index`. */
  ghost predicate IsFirst(entries: seq<LogEntry>, index: nat, i: nat)
    requires i < |entries|
  {
    entries[i].index == index && forall j | 0 <= j < i :: entries[j].index != index
  }

  class LogStore {
    var entries: seq<LogEntry>

    constructor ()
      ensures entries == [SENTINEL]
    {
      entries := [SENTINEL];
    }

    method LastIndexAndTerm() returns (index: nat, term: nat)
      requires |entries| > 0
      ensures index == LastIndex(entries) && term == LastTerm(entries)
    {
      var last := entries[|entries| - 1];
      return last.index, last.term;
    }

    method EntryAt(index: nat) returns (found: Option<LogEntry>)
      ensures found == RaftLog.EntryAt(entries, index)
      ensures found.None? ==> forall e | e in entries :: e.index != index
      ensures found.Some? ==>
                exists i | 0 <= i < |entries| :: found.value == entries[i] && IsFirst(entries, index, i)
    {
      assert entries[0..] == entries;
      for i := 0 to |entries|
        invariant RaftLog.EntryAt(entries, index) == RaftLog.EntryAt(entries[i..], index)
        invariant forall j | 0 <= j < i :: entries[j].index != index
      {
        assert entries[i..][1..] == entries[i + 1..];
        if entries[i].index == index {
          assert IsFirst(entries, index, i);
          return Some(entries[i]);
        }
      }
      return None;
    }

    method AppendEntry(entry: LogEntry)
      modifies this
      ensures entries == old(entries) + [entry]
    {
      entries := entries + [entry];
    }

    method TruncateAfter(index: nat)
      modifies this
      ensures entries == RaftLog.TruncateAfter(old(entries), index)
      ensures entries <= old(entries) && forall i | 0 <= i < |entries| :: entries[i].index <= index
      ensures |entries| < |old(entries)| ==> old(entries)[|entries|].index > index
    {
      assert entries[..0] + RaftLog.TruncateAfter(entries[0..], index) == RaftLog.TruncateAfter(entries, index) by {
        assert entries[0..] == entries;
      }
      for i := 0 to |entries|
        invariant entries == old(entries) && forall j | 0 <= j < i :: entries[j].index <= index
        invariant RaftLog.TruncateAfter(entries, index) == entries[..i] + RaftLog.TruncateAfter(entries[i..], index)
      {
        assert entries[i..][1..] == entries[i + 1..];
        if entries[i].index > index {
          entries := entries[..i];
          return;
        }
        assert entries[..i] + [entries[i]] == entries[..i + 1];
      }
      assert entries[..|entries|] == entries;
    }

    method EntriesFrom(index: nat) returns (result: seq<LogEntry>)
      ensures result == RaftLog.EntriesFrom(entries, index)
      ensures |result| <= |entries| && result == entries[|entries| - |result|..]
      ensures forall i | 0 <= i < |entries| - |result| :: entries[i].index < index
      ensures result != [] ==> result[0].index >= index
    {
      assert entries[0..] == entries;
      for i := 0 to |entries|
        invariant RaftLog.EntriesFrom(entries, index) == RaftLog.EntriesFrom(entries[i..], index)
        invariant forall j | 0 <= j < i :: entries[j].index < index
      {
        assert entries[i..][1..] == entries[i + 1..];
        if entries[i].index >= index {
          return entries[i..];
        }
      }
      return [];
    }
  }
}
