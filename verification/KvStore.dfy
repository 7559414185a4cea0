/** The store and its files as the code has them: fields updated in place, loops over
  * lines, keys and commands. Each operation is proved equal to its function in
  * Recovery; outcomes of the disk are parameters. */
module KvStore {
  import opened Options
  import opened KvLog
  import opened Recovery

  datatype Result<+T> = Ok(value: T) | Err(error: Error)

  const DEFAULT_SNAPSHOT_INTERVAL := 100

  /** A line of the log file that Load accepts. */
  predicate GoodLine(line: Option<Entry>) {
    line.Some? && KnownOp(line.value)
  }

  ghost predicate Clean(lines: seq<Option<Entry>>) {
    forall i | 0 <= i < |lines| :: GoodLine(lines[i])
  }

  ghost function Entries(lines: seq<Option<Entry>>): seq<Entry>
    requires Clean(lines)
  {
    seq(|lines|, i requires 0 <= i < |lines| => lines[i].value)
  }

  /** The append-only log file; None is a line that does not decode. */
  class FileWal {
    var lines: seq<Option<Entry>>

    constructor ()
      ensures lines == []
    {
      lines := [];
    }

    method Append(entry: Entry, io: AppendIo) returns (r: Outcome)
      modifies this
      ensures r == if !KnownOp(entry) then Failed(UnknownOperation) else if io != Written then Failed(AppendFailed) else Done
      ensures lines == if KnownOp(entry) && io != Unwritten then old(lines) + [Some(entry)] else old(lines)
    {
      if entry.op != OP_UPSERT && entry.op != OP_DELETE {
        return Failed(UnknownOperation);
      }
      if io == Unwritten {
        return Failed(AppendFailed);
      }
      lines := lines + [Some(entry)];
      return if io == Written then Done else Failed(AppendFailed);
    }

    /** All entries if every line is good, otherwise the error of the first bad one. */
    method Load() returns (r: Result<seq<Entry>>)
      ensures r.Ok? <==> Clean(lines)
      ensures r.Ok? ==> r.value == Entries(lines)
      ensures r.Err? ==> exists i | 0 <= i < |lines| ::
                && Clean(lines[..i]) && !GoodLine(lines[i])
                && r.error == if lines[i].None? then BadLine else UnknownOperation
    {
      var entries: seq<Entry> := [];
      for i := 0 to |lines|
        invariant |entries| == i
        invariant forall j | 0 <= j < i :: GoodLine(lines[j]) && lines[j].value == entries[j]
      {
        if lines[i].None? {
          assert Clean(lines[..i]) && !GoodLine(lines[i]);
          return Err(BadLine);
        }
        var entry := lines[i].value;
        if entry.op != OP_UPSERT && entry.op != OP_DELETE {
          assert Clean(lines[..i]) && !GoodLine(lines[i]);
          return Err(UnknownOperation);
        }
        entries := entries + [entry];
      }
      return Ok(entries);
    }
  }

  datatype SnapshotFile = Absent | Holding(table: Table) | Unreadable

  /** The snapshot file, replaced as a whole by every save. */
  class FileSnapshot {
    var file: SnapshotFile

    constructor ()
      ensures file == Absent
    {
      file := Absent;
    }

    method Save(state: Table, ok: bool) returns (r: Outcome)
      modifies this
      ensures r == if ok then Done else Failed(SaveFailed)
      ensures file == if ok then Holding(state) else old(file)
    {
      if !ok {
        return Failed(SaveFailed);
      }
      file := Holding(state);
      return Done;
    }

    method Load() returns (r: Result<Table>)
      ensures r.Ok? <==> !file.Unreadable?
      ensures r.Ok? ==> r.value == Stored(file)
    {
      match file
      case Absent => return Ok(map[]);
      case Holding(table) => return Ok(table);
      case Unreadable => return Err(BadLine);
    }
  }

  function Stored(file: SnapshotFile): Table {
    if file.Holding? then file.table else map[]
  }

  /** The copy that is made key by key for a snapshot. */
  method CopyTable(data: Table) returns (out: Table)
    ensures out == data
  {
    out := map[];
    var rest := data.Keys;
    while rest != {}
      invariant rest <= data.Keys
      invariant out.Keys == data.Keys - rest
      invariant forall key | key in out :: out[key] == data[key]
      decreases |rest|
    {
      var key :| key in rest;
      out := out[key := data[key]];
      rest := rest - {key};
    }
  }

  class Store {
    var data: Table
    const wal: FileWal?
    const snapshot: FileSnapshot?
    var writeCount: nat
    const snapshotInterval: nat

    ghost function Cfg(): Config {
      Config(wal != null, snapshot != null, snapshotInterval)
    }

    ghost predicate Valid()
      reads wal, snapshot
    {
      && (wal != null ==> Clean(wal.lines))
      && (snapshot != null ==> !snapshot.file.Unreadable?)
    }

    ghost function View(): Machine
      requires Valid()
      reads this, wal, snapshot
    {
      Machine(data, writeCount, OnDisk(wal, snapshot))
    }

    /** NewStore: an empty table, whatever the files hold. */
    constructor (wal: FileWal?, snapshot: FileSnapshot?)
      ensures this.wal == wal && this.snapshot == snapshot
      ensures data == map[] && writeCount == 0 && snapshotInterval == DEFAULT_SNAPSHOT_INTERVAL
    {
      this.data := map[];
      this.wal := wal;
      this.snapshot := snapshot;
      this.writeCount := 0;
      this.snapshotInterval := DEFAULT_SNAPSHOT_INTERVAL;
    }

    /** Loads the snapshot and replays the whole log on top of it; fails if and only if
      * a file cannot be read. */
    static method NewStoreFromDisk(wal: FileWal?, snapshot: FileSnapshot?) returns (r: Result<Store>)
      ensures r.Ok? <==> (wal != null ==> Clean(wal.lines)) && (snapshot != null ==> !snapshot.file.Unreadable?)
      ensures r.Ok? ==>
                && fresh(r.value) && r.value.wal == wal && r.value.snapshot == snapshot
                && r.value.snapshotInterval == DEFAULT_SNAPSHOT_INTERVAL
                && r.value.Valid()
                && r.value.View() == Machine(Recover(r.value.Cfg(), OnDisk(wal, snapshot)), 0, OnDisk(wal, snapshot))
    {
      var store := new Store(wal, snapshot);
      if snapshot != null {
        var state := snapshot.Load();
        if state.Err? {
          return Err(state.error);
        }
        store.data := state.value;
      }
      if wal != null {
        var entries := wal.Load();
        if entries.Err? {
          return Err(entries.error);
        }
        var start := store.data;
        for i := 0 to |entries.value|
          invariant store.data == Replay(start, entries.value[..i])
          invariant store.writeCount == 0
          modifies store
        {
          store.ApplyLocked(entries.value[i]);
          assert entries.value[..i + 1] == entries.value[..i] + [entries.value[i]];
          ReplayOne(start, entries.value[..i], entries.value[i]);
        }
        assert entries.value[..|entries.value|] == entries.value;
      }
      return Ok(store);
    }

    method ApplyLocked(entry: Entry)
      modifies `data
      ensures data == ApplyEntry(old(data), entry)
    {
      if entry.op == OP_DELETE {
        data := data - {entry.key};
      } else {
        data := data[entry.key := entry.value];
      }
    }

    /** Sets the key if it is not empty and the append is confirmed, and changes nothing
      * else in memory. */
    method Upsert(key: string, value: string, io: Io) returns (r: Outcome)
      requires Valid()
      modifies this, wal, snapshot
      ensures Valid()
      ensures (View(), r) == Recovery.Apply(Cfg(), old(View()), Entry(OP_UPSERT, key, value), io)
      ensures data == if key != "" && (wal == null || io.append == Written) then old(data)[key := value] else old(data)
      ensures r == Done <==>
                key != "" && (wal == null || io.append == Written) && (SaveDue(Cfg(), old(View())) ==> io.saved)
    {
      ApplyChanges(Cfg(), View(), Entry(OP_UPSERT, key, value), io);
      OutcomeIff(Cfg(), View(), Entry(OP_UPSERT, key, value), io);
      if key == "" {
        return Failed(EmptyKey);
      }
      r := PersistAndApply(Entry(OP_UPSERT, key, value), io);
    }

    /** Removes the key if it is not empty and the append is confirmed, and changes
      * nothing else in memory. */
    method Delete(key: string, io: Io) returns (r: Outcome)
      requires Valid()
      modifies this, wal, snapshot
      ensures Valid()
      ensures (View(), r) == Recovery.Apply(Cfg(), old(View()), Entry(OP_DELETE, key, ""), io)
      ensures data == if key != "" && (wal == null || io.append == Written) then old(data) - {key} else old(data)
      ensures r == Done <==>
                key != "" && (wal == null || io.append == Written) && (SaveDue(Cfg(), old(View())) ==> io.saved)
    {
      ApplyChanges(Cfg(), View(), Entry(OP_DELETE, key, ""), io);
      OutcomeIff(Cfg(), View(), Entry(OP_DELETE, key, ""), io);
      if key == "" {
        return Failed(EmptyKey);
      }
      r := PersistAndApply(Entry(OP_DELETE, key, ""), io);
    }

    method Get(key: string) returns (r: Result<Option<string>>)
      ensures r == if key == "" then Err(EmptyKey) else Ok(if key in data then Some(data[key]) else None)
    {
      if key == "" {
        return Err(EmptyKey);
      }
      return Ok(if key in data then Some(data[key]) else None);
    }

    method Snapshot() returns (out: Table)
      ensures out == data
    {
      out := CopyTable(data);
    }

    method PersistAndApply(entry: Entry, io: Io) returns (r: Outcome)
      requires Valid()
      modifies this, wal, snapshot
      ensures Valid()
      ensures (View(), r) == Recovery.PersistAndApply(Cfg(), old(View()), entry, io)
    {
      if wal != null {
        ghost var lines := wal.lines;
        r := wal.Append(entry, io.append);
        if KnownOp(entry) {
          OneMoreLine(lines, entry);
        }
        if r != Done {
          return r;
        }
      }
      ApplyLocked(entry);
      if snapshot == null || snapshotInterval == 0 {
        return Done;
      }
      writeCount := writeCount + 1;
      if writeCount % snapshotInterval != 0 {
        return Done;
      }
      var state := CopyTable(data);
      r := snapshot.Save(state, io.saved);
    }

    /** kv/apply.go's Apply: one command of the Raft log. */
    method Apply(entry: Entry, io: Io) returns (r: Outcome)
      requires Valid()
      modifies this, wal, snapshot
      ensures Valid()
      ensures (View(), r) == Recovery.Apply(Cfg(), old(View()), entry, io)
    {
      if entry.key == "" {
        return Failed(EmptyKey);
      }
      if entry.op == OP_DELETE {
        r := Delete(entry.key, io);
      } else if entry.op == OP_UPSERT {
        r := Upsert(entry.key, entry.value, io);
      } else {
        r := Failed(UnknownOperation);
      }
    }

    /** Drains the apply channel; None is a command that does not decode. Failed
      * commands are skipped. */
    method RunApplyLoop(cmds: seq<Option<Entry>>, ios: seq<Io>)
      requires Valid() && |cmds| == |ios|
      modifies this, wal, snapshot
      ensures Valid()
      ensures View() == ApplyAll(Cfg(), old(View()), cmds, ios)
    {
      for i := 0 to |cmds|
        invariant Valid()
        invariant View() == ApplyAll(Cfg(), old(View()), cmds[..i], ios[..i])
      {
        ghost var before := View();
        if cmds[i].Some? {
          var _ := Apply(cmds[i].value, ios[i]);
        }
        assert View() == ApplyCommand(Cfg(), before, cmds[i], ios[i]);
        assert cmds[..i + 1][..i] == cmds[..i] && ios[..i + 1][..i] == ios[..i];
      }
      assert cmds[..|cmds|] == cmds && ios[..|ios|] == ios;
    }
  }

  /** What the two files hold. */
  ghost function OnDisk(wal: FileWal?, snapshot: FileSnapshot?): Disk
    requires wal != null ==> Clean(wal.lines)
    reads wal, snapshot
  {
    Disk(if wal == null then [] else Entries(wal.lines),
         if snapshot == null then map[] else Stored(snapshot.file))
  }

  lemma OneMoreLine(lines: seq<Option<Entry>>, entry: Entry)
    requires Clean(lines) && KnownOp(entry)
    ensures Clean(lines + [Some(entry)]) && Entries(lines + [Some(entry)]) == Entries(lines) + [entry]
  {
  }
}
