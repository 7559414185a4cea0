/** The store of kv/store.go with its files, as a step system: writes whose appends
  * and snapshot saves may fail, crashes and restarts. A crash inside a write is a
  * write whose append or save failed, followed by a restart. */
module Recovery {
  import opened Options
  import opened KvLog

  datatype Error = EmptyKey | UnknownOperation | AppendFailed | SaveFailed | BadLine

  datatype Outcome = Done | Failed(error: Error)

  /** What the disk does with an append: it may fail before the line is written, or
    * after (when Sync fails). */
  datatype AppendIo = Written | Unwritten | Unsynced

  datatype Io = Io(append: AppendIo, saved: bool)

  /** Whether there is a log and a snapshot file, and the writes between snapshots;
    * a NoopWAL or NoopSnapshot is as good as none. */
  datatype Config = Config(logged: bool, snapshots: bool, interval: nat)

  datatype Disk = Disk(wal: seq<Entry>, snapshot: Table)

  datatype Machine = Machine(data: Table, writeCount: nat, disk: Disk)

  const EMPTY := Machine(map[], 0, Disk([], map[]))

  function Append(cfg: Config, disk: Disk, e: Entry, io: Io): (Disk, Outcome) {
    if !cfg.logged then (disk, Done)
    else if !KnownOp(e) then (disk, Failed(UnknownOperation))
    else
      match io.append
      case Written => (disk.(wal := disk.wal + [e]), Done)
      case Unwritten => (disk, Failed(AppendFailed))
      case Unsynced => (disk.(wal := disk.wal + [e]), Failed(AppendFailed))
  }

  /** The snapshot that is due after every `interval`-th write. */
  function Checkpoint(cfg: Config, m: Machine, io: Io): (Machine, Outcome) {
    if !cfg.snapshots || cfg.interval == 0 then (m, Done)
    else
      var m1 := m.(writeCount := m.writeCount + 1);
      if m1.writeCount % cfg.interval != 0 then (m1, Done)
      else if io.saved then (m1.(disk := m1.disk.(snapshot := m1.data)), Done)
      else (m1, Failed(SaveFailed))
  }

  function PersistAndApply(cfg: Config, m: Machine, e: Entry, io: Io): (Machine, Outcome) {
    var (disk, appended) := Append(cfg, m.disk, e, io);
    if appended != Done then (m.(disk := disk), appended)
    else Checkpoint(cfg, m.(disk := disk, data := ApplyEntry(m.data, e)), io)
  }

  /** Which entries Apply lets through, and the entry it writes for one. */
  predicate Accepted(e: Entry) {
    e.key != "" && KnownOp(e)
  }

  function Normal(e: Entry): Entry {
    if e.op == OP_DELETE then e.(value := "") else e
  }

  function Apply(cfg: Config, m: Machine, e: Entry, io: Io): (Machine, Outcome) {
    if e.key == "" then (m, Failed(EmptyKey))
    else if !KnownOp(e) then (m, Failed(UnknownOperation))
    else PersistAndApply(cfg, m, Normal(e), io)
  }

  /** The table NewStoreFromDisk builds. */
  function Recover(cfg: Config, disk: Disk): Table {
    Replay(if cfg.snapshots then disk.snapshot else map[], if cfg.logged then disk.wal else [])
  }

  /** A key is recovered from the last line that names it, and from the snapshot if no
    * line does. */
  lemma RecoveredKey(cfg: Config, disk: Disk, key: string)
    ensures cfg.logged && key in Touched(disk.wal) ==>
              exists i: nat :: IsLastWrite(disk.wal, key, i)
                && (key in Recover(cfg, disk) <==> disk.wal[i].op != "delete")
                && (key in Recover(cfg, disk) ==> Recover(cfg, disk)[key] == disk.wal[i].value)
    ensures !cfg.logged || key !in Touched(disk.wal) ==>
              && (key in Recover(cfg, disk) <==> cfg.snapshots && key in disk.snapshot)
              && (key in Recover(cfg, disk) ==> Recover(cfg, disk)[key] == disk.snapshot[key])
  {
    var start := if cfg.snapshots then disk.snapshot else map[];
    if cfg.logged && key in Touched(disk.wal) {
      var i := FindLastWrite(disk.wal, key);
      LastWriteWins(start, disk.wal, key, i);
    } else {
      UntouchedKeyKept(start, if cfg.logged then disk.wal else [], key);
    }
  }

  // ---- What one command does ----

  /** The command is applied: it is accepted, and its append is confirmed if there is a
    * log. */
  predicate Takes(cfg: Config, e: Entry, io: Io) {
    Accepted(e) && (!cfg.logged || io.append == Written)
  }

  predicate SaveDue(cfg: Config, m: Machine) {
    cfg.snapshots && cfg.interval > 0 && (m.writeCount + 1) % cfg.interval == 0
  }

  /** What a command changes: a delete removes its key, an upsert sets it, and nothing
    * else in memory changes; the log gains a line that records the command, confirmed or
    * not; the snapshot is replaced when it is due. */
  lemma ApplyChanges(cfg: Config, m: Machine, e: Entry, io: Io)
    ensures var m' := Apply(cfg, m, e, io).0;
            && (!Takes(cfg, e, io) ==> m'.data == m.data)
            && (Takes(cfg, e, io) && e.op == "delete" ==> m'.data == m.data - {e.key})
            && (Takes(cfg, e, io) && e.op == "upsert" ==> m'.data == m.data[e.key := e.value])
    ensures var wal, wal' := m.disk.wal, Apply(cfg, m, e, io).0.disk.wal;
            if cfg.logged && Accepted(e) && io.append != Unwritten
            then |wal'| == |wal| + 1 && wal'[..|wal|] == wal && Records(wal'[|wal|], e)
            else wal' == wal
    ensures var m' := Apply(cfg, m, e, io).0;
            && m'.writeCount == (if Takes(cfg, e, io) && cfg.snapshots && cfg.interval > 0 then m.writeCount + 1 else m.writeCount)
            && m'.disk.snapshot == (if Takes(cfg, e, io) && SaveDue(cfg, m) && io.saved then m'.data else m.disk.snapshot)
  {
  }

  /** When a command is reported as done, and otherwise the error. */
  lemma OutcomeIff(cfg: Config, m: Machine, e: Entry, io: Io)
    ensures var r := Apply(cfg, m, e, io).1;
            && (r == Done <==>
                  && e.key != "" && (e.op == "upsert" || e.op == "delete")
                  && (cfg.logged ==> io.append == Written)
                  && (SaveDue(cfg, m) ==> io.saved))
            && (r == Failed(EmptyKey) <==> e.key == "")
            && (r == Failed(UnknownOperation) <==> e.key != "" && e.op != "upsert" && e.op != "delete")
            && (r == Failed(AppendFailed) <==> Accepted(e) && cfg.logged && io.append != Written)
            && (r == Failed(SaveFailed) <==> Takes(cfg, e, io) && SaveDue(cfg, m) && !io.saved)
  {
  }

  /** The table shows the command at its key. */
  ghost predicate Shows(t: Table, e: Entry) {
    && (e.op == "delete" ==> e.key !in t)
    && (e.op == "upsert" ==> e.key in t && t[e.key] == e.value)
  }

  /** What an outcome means: a command reported as done is in memory, and a restart shows
    * it if there is a log; a failed append or a refusal leaves memory alone; a failed
    * save leaves the command in memory, and in the log if there is one. */
  lemma OutcomeMeans(cfg: Config, m: Machine, e: Entry, io: Io)
    ensures var (m', r) := Apply(cfg, m, e, io);
            && (r == Done || r == Failed(SaveFailed) ==>
                  Shows(m'.data, e) && (cfg.logged ==> Shows(Recover(cfg, m'.disk), e)))
            && (r == Failed(AppendFailed) || r == Failed(EmptyKey) || r == Failed(UnknownOperation) ==>
                  m'.data == m.data && m'.writeCount == m.writeCount && m'.disk.snapshot == m.disk.snapshot)
  {
    ApplyChanges(cfg, m, e, io);
    OutcomeIff(cfg, m, e, io);
    hide Apply;
    var (m', r) := Apply(cfg, m, e, io);
    if (r == Done || r == Failed(SaveFailed)) && cfg.logged {
      LastWriteWins(if cfg.snapshots then m'.disk.snapshot else map[], m'.disk.wal, e.key, |m.disk.wal|);
    }
  }

  // ---- Runs from empty files ----

  datatype Event = Write(e: Entry, io: Io) | Restart

  function Step(cfg: Config, m: Machine, ev: Event): Machine {
    match ev
    case Write(e, io) => Apply(cfg, m, e, io).0
    case Restart => Machine(Recover(cfg, m.disk), 0, m.disk)
  }

  function After(cfg: Config, evs: seq<Event>): Machine {
    if evs == [] then EMPTY else Step(cfg, After(cfg, evs[..|evs| - 1]), evs[|evs| - 1])
  }

  /** The writes that reached the log, whether or not they were confirmed. */
  function Reached(evs: seq<Event>): seq<Entry> {
    if evs == [] then []
    else
      var front, last := Reached(evs[..|evs| - 1]), evs[|evs| - 1];
      if last.Write? && Accepted(last.e) && last.io.append != Unwritten then front + [last.e] else front
  }

  /** Since the last restart no append failed after its line was written. */
  predicate Settled(evs: seq<Event>) {
    evs == [] || evs[|evs| - 1] == Restart
    || (Settled(evs[..|evs| - 1]) && (evs[|evs| - 1].io.append != Unsynced || !Accepted(evs[|evs| - 1].e)))
  }

  /** Every key in memory or in the snapshot is named in the log. */
  ghost predicate Covered(m: Machine) {
    m.data.Keys <= Touched(m.disk.wal) && m.disk.snapshot.Keys <= Touched(m.disk.wal)
  }

  lemma CoveredRecovers(cfg: Config, m: Machine)
    requires cfg.logged && Covered(m)
    ensures Recover(cfg, m.disk) == Replay(map[], m.disk.wal)
  {
    SnapshotAbsorbedIff(m.disk.snapshot, m.disk.wal);
  }

  lemma StepKeepsCovered(cfg: Config, m: Machine, ev: Event)
    requires cfg.logged && Covered(m)
    ensures Covered(Step(cfg, m, ev))
  {
    match ev
    case Write(e, io) =>
      ApplyChanges(cfg, m, e, io);
      hide Apply, Recover, Replay, Touched;
      var wal' := Apply(cfg, m, e, io).0.disk.wal;
      if |wal'| > |m.disk.wal| {
        assert wal' == m.disk.wal + [wal'[|m.disk.wal|]];
        TouchedOne(m.disk.wal, wal'[|m.disk.wal|]);
      }
    case Restart =>
      hide Apply;
      CoveredRecovers(cfg, m);
      ReplayedKeys(map[], m.disk.wal);
  }

  lemma {:induction false} RunsStayCovered(cfg: Config, evs: seq<Event>)
    requires cfg.logged
    ensures Covered(After(cfg, evs)) && RecordsAll(After(cfg, evs).disk.wal, Reached(evs))
  {
    hide Apply, Covered, Recover, Records;
    if evs == [] {
      assert Covered(EMPTY) by { EmptyCovered(); }
    } else {
      var front, last := evs[..|evs| - 1], evs[|evs| - 1];
      RunsStayCovered(cfg, front);
      StepKeepsCovered(cfg, After(cfg, front), last);
      if last.Write? {
        ApplyChanges(cfg, After(cfg, front), last.e, last.io);
        var wal, wal' := After(cfg, front).disk.wal, After(cfg, evs).disk.wal;
        assert forall i | 0 <= i < |wal| :: wal'[..|wal|][i] == wal'[i];
      }
    }
  }

  lemma EmptyCovered()
    ensures Covered(EMPTY)
  {
  }

  /** Recovery equals replay: after any run from empty files, of writes, failed appends
    * and saves, crashes and restarts, a restart rebuilds the replay, from nothing, of
    * all the writes that reached the log, whichever snapshot is on disk. */
  lemma RecoveryIsReplay(cfg: Config, evs: seq<Event>)
    requires cfg.logged
    ensures Recover(cfg, After(cfg, evs).disk) == Replay(map[], Reached(evs))
  {
    RunsStayCovered(cfg, evs);
    CoveredRecovers(cfg, After(cfg, evs));
    RecordsReplay(map[], After(cfg, evs).disk.wal, Reached(evs));
  }

  /** A write leaves memory equal to what a restart would rebuild if and only if its
    * append did not fail after its line was written, or memory shows it already. */
  lemma WriteStaysRecoverableIff(cfg: Config, m: Machine, e: Entry, io: Io)
    requires cfg.logged && Covered(m) && m.data == Recover(cfg, m.disk)
    ensures var m' := Apply(cfg, m, e, io).0;
            m'.data == Recover(cfg, m'.disk) <==> (!Accepted(e) || io.append != Unsynced || Shows(m.data, e))
  {
    var m' := Apply(cfg, m, e, io).0;
    ApplyChanges(cfg, m, e, io);
    CoveredRecovers(cfg, m);
    StepKeepsCovered(cfg, m, Write(e, io));
    hide Apply, Recover, Covered;
    CoveredRecovers(cfg, m');
    if |m'.disk.wal| > |m.disk.wal| {
      var line := m'.disk.wal[|m.disk.wal|];
      assert m'.disk.wal == m.disk.wal + [line];
      ReplayOne(map[], m.disk.wal, line);
      ShownAlready(m.data, line, e);
    }
  }

  lemma ShownAlready(t: Table, line: Entry, e: Entry)
    requires Records(line, e) && KnownOp(e)
    ensures ApplyEntry(t, line) == t <==> Shows(t, e)
    ensures ApplyEntry(t, line) == if e.op == "delete" then t - {e.key} else t[e.key := e.value]
  {
    if e.op == OP_UPSERT && ApplyEntry(t, line) == t {
      assert t[e.key := e.value][e.key] == e.value;
    }
  }

  /** The case that differs: a line that was written but not synced is reported as a
    * failure and not applied, yet a restart applies it. */
  lemma UnsyncedAppendDiverges(cfg: Config)
    requires cfg.logged
    ensures var m := After(cfg, [Write(Entry(OP_UPSERT, "k", "v"), Io(Unsynced, true))]);
            m.data == map[] && Recover(cfg, m.disk) == map["k" := "v"]
  {
    var e := Entry(OP_UPSERT, "k", "v");
    assert After(cfg, []) == EMPTY;
    assert [e][..0] == [];
    assert Replay(map[], [e]) == ApplyEntry(Replay(map[], []), e);
  }

  /** In a settled run, memory is what a restart would rebuild. */
  lemma {:induction false} LiveIsRecoverable(cfg: Config, evs: seq<Event>)
    requires cfg.logged && Settled(evs)
    ensures After(cfg, evs).data == Recover(cfg, After(cfg, evs).disk)
  {
    if evs != [] {
      var front, last := evs[..|evs| - 1], evs[|evs| - 1];
      if last.Write? {
        LiveIsRecoverable(cfg, front);
        RunsStayCovered(cfg, front);
        WriteStaysRecoverableIff(cfg, After(cfg, front), last.e, last.io);
      }
    }
  }

  /** What the store shows after any settled run: a key is there if and only if the last
    * accepted command naming it that reached the log is an upsert, with that command's
    * value. After any run at all, a restart shows the same. */
  lemma KeyAfterRun(cfg: Config, evs: seq<Event>, key: string)
    requires cfg.logged
    ensures key in Recover(cfg, After(cfg, evs).disk) <==>
            exists i: nat :: IsLastWrite(Reached(evs), key, i) && Reached(evs)[i].op == "upsert"
    ensures forall i: nat | IsLastWrite(Reached(evs), key, i) && Reached(evs)[i].op == "upsert" ::
              && key in Recover(cfg, After(cfg, evs).disk)
              && Recover(cfg, After(cfg, evs).disk)[key] == Reached(evs)[i].value
    ensures Settled(evs) ==> After(cfg, evs).data == Recover(cfg, After(cfg, evs).disk)
  {
    hide Recover, After, Settled, Reached, IsLastWrite;
    RecoveryIsReplay(cfg, evs);
    ReachedKnown(evs);
    if Settled(evs) { LiveIsRecoverable(cfg, evs); }
    ReplayedKeyIff(Reached(evs), key);
  }

  lemma {:induction false} ReachedKnown(evs: seq<Event>)
    ensures forall e | e in Reached(evs) :: Accepted(e)
  {
    if evs != [] { ReachedKnown(evs[..|evs| - 1]); }
  }

  // ---- The apply loop ----

  /** The accepted ones among the commands of the apply channel; None stands for a
    * command that does not decode. */
  function Effective(cmds: seq<Option<Entry>>): seq<Entry> {
    if cmds == [] then []
    else
      var front, last := Effective(cmds[..|cmds| - 1]), cmds[|cmds| - 1];
      if last.Some? && Accepted(last.value) then front + [last.value] else front
  }

  /** Those of them that are applied, and those that reach the log. */
  function Taken(cfg: Config, cmds: seq<Option<Entry>>, ios: seq<Io>): seq<Entry>
    requires |cmds| == |ios|
  {
    if cmds == [] then []
    else
      var front, last := Taken(cfg, cmds[..|cmds| - 1], ios[..|ios| - 1]), cmds[|cmds| - 1];
      if last.Some? && Takes(cfg, last.value, ios[|ios| - 1]) then front + [last.value] else front
  }

  function Logged(cmds: seq<Option<Entry>>, ios: seq<Io>): seq<Entry>
    requires |cmds| == |ios|
  {
    if cmds == [] then []
    else
      var front, last := Logged(cmds[..|cmds| - 1], ios[..|ios| - 1]), cmds[|cmds| - 1];
      if last.Some? && Accepted(last.value) && ios[|ios| - 1].append != Unwritten then front + [last.value] else front
  }

  lemma {:induction false} AllWritten(cfg: Config, cmds: seq<Option<Entry>>, ios: seq<Io>)
    requires |cmds| == |ios| && forall io | io in ios :: io.append == Written
    ensures Taken(cfg, cmds, ios) == Effective(cmds) == Logged(cmds, ios)
    decreases |cmds|
  {
    if cmds != [] {
      assert ios[|ios| - 1] in ios;
      assert forall io | io in ios[..|ios| - 1] :: io in ios;
      AllWritten(cfg, cmds[..|cmds| - 1], ios[..|ios| - 1]);
    }
  }

  function ApplyCommand(cfg: Config, m: Machine, cmd: Option<Entry>, io: Io): Machine {
    if cmd.None? then m else Apply(cfg, m, cmd.value, io).0
  }

  function ApplyAll(cfg: Config, m: Machine, cmds: seq<Option<Entry>>, ios: seq<Io>): Machine
    requires |cmds| == |ios|
  {
    if cmds == [] then m
    else
      ApplyCommand(cfg, ApplyAll(cfg, m, cmds[..|cmds| - 1], ios[..|ios| - 1]), cmds[|cmds| - 1], ios[|ios| - 1])
  }

  /** The apply loop replays into memory the commands it takes, skipping what does not
    * decode, is not accepted or cannot be appended, and the log gains lines that record
    * those that reached it. */
  lemma {:induction false} ApplyLoopReplays(cfg: Config, m: Machine, cmds: seq<Option<Entry>>, ios: seq<Io>)
    requires |cmds| == |ios|
    ensures var m' := ApplyAll(cfg, m, cmds, ios);
            && m'.data == Replay(m.data, Taken(cfg, cmds, ios))
            && m.disk.wal <= m'.disk.wal
            && RecordsAll(m'.disk.wal[|m.disk.wal|..], if cfg.logged then Logged(cmds, ios) else [])
    decreases |cmds|
  {
    if cmds == [] {
      assert Replay(m.data, []) == m.data;
    } else {
      var front, last := cmds[..|cmds| - 1], cmds[|cmds| - 1];
      var fronts, io := ios[..|ios| - 1], ios[|ios| - 1];
      hide Apply, ApplyEntry, Replay, Accepted, Records;
      ApplyLoopReplays(cfg, m, front, fronts);
      if last.Some? {
        var m1 := ApplyAll(cfg, m, front, fronts);
        ApplyChanges(cfg, m1, last.value, io);
        TakenOne(cfg, m1, last.value, io);
        ReplayOne(m.data, Taken(cfg, front, fronts), last.value);
        LoggedOne(m.disk.wal, m1.disk.wal, Apply(cfg, m1, last.value, io).0.disk.wal, last.value,
                  if cfg.logged then Logged(front, fronts) else []);
      }
    }
  }

  lemma TakenOne(cfg: Config, m: Machine, e: Entry, io: Io)
    ensures Apply(cfg, m, e, io).0.data == if Takes(cfg, e, io) then ApplyEntry(m.data, e) else m.data
  {
    ApplyChanges(cfg, m, e, io);
    hide Apply;
  }

  lemma LoggedOne(wal: seq<Entry>, wal1: seq<Entry>, wal2: seq<Entry>, e: Entry, es: seq<Entry>)
    requires wal <= wal1 && RecordsAll(wal1[|wal|..], es)
    requires wal2 == wal1 || (|wal2| == |wal1| + 1 && wal2[..|wal1|] == wal1 && Records(wal2[|wal1|], e))
    ensures wal <= wal2 && RecordsAll(wal2[|wal|..], if wal2 == wal1 then es else es + [e])
  {
    if wal2 != wal1 {
      assert wal2[|wal|..] == wal1[|wal|..] + [wal2[|wal1|]];
    }
  }

  lemma {:induction false} ApplyLoopCovered(cfg: Config, m: Machine, cmds: seq<Option<Entry>>, ios: seq<Io>)
    requires |cmds| == |ios| && cfg.logged && Covered(m)
    ensures Covered(ApplyAll(cfg, m, cmds, ios))
    decreases |cmds|
  {
    hide Apply, Covered, Recover;
    if cmds != [] {
      var front := ApplyAll(cfg, m, cmds[..|cmds| - 1], ios[..|ios| - 1]);
      ApplyLoopCovered(cfg, m, cmds[..|cmds| - 1], ios[..|ios| - 1]);
      if cmds[|cmds| - 1].Some? {
        StepKeepsCovered(cfg, front, Write(cmds[|cmds| - 1].value, ios[|ios| - 1]));
      }
    }
  }

  /** Redelivery is harmless in the end: a node that restarts after any run and is sent
    * the whole history again, of which its log holds a prefix, ends with the replay of
    * that history, in memory and on disk. */
  lemma RedeliveredHistory(cfg: Config, evs: seq<Event>, cmds: seq<Option<Entry>>, ios: seq<Io>)
    requires cfg.logged && |cmds| == |ios| && forall io | io in ios :: io.append == Written
    requires Reached(evs) <= Effective(cmds)
    ensures var m := ApplyAll(cfg, After(cfg, evs + [Restart]), cmds, ios);
            && m.data == Replay(map[], Effective(cmds))
            && Recover(cfg, m.disk) == Replay(map[], Effective(cmds))
  {
    hide Covered, Recover, After, ApplyAll, Taken, Logged, Effective, Reached, RecordsAll;
    var m0 := After(cfg, evs + [Restart]);
    var m := ApplyAll(cfg, m0, cmds, ios);
    RestartedStore(cfg, evs);
    ApplyLoopReplays(cfg, m0, cmds, ios);
    AllWritten(cfg, cmds, ios);
    ApplyLoopCovered(cfg, m0, cmds, ios);
    CoveredRecovers(cfg, m);
    LongerLogReplays(m0.disk.wal, m.disk.wal, Reached(evs), Effective(cmds));
    RedeliveryOfExtension(Reached(evs), Effective(cmds));
  }

  lemma RestartedStore(cfg: Config, evs: seq<Event>)
    requires cfg.logged
    ensures var m := After(cfg, evs + [Restart]);
            m.data == Replay(map[], Reached(evs)) && Covered(m) && RecordsAll(m.disk.wal, Reached(evs))
  {
    assert (evs + [Restart])[..|evs|] == evs;
    hide Covered, RecordsAll;
    RecoveryIsReplay(cfg, evs);
    RunsStayCovered(cfg, evs + [Restart]);
  }

  lemma LongerLogReplays(wal: seq<Entry>, wal': seq<Entry>, past: seq<Entry>, es: seq<Entry>)
    requires wal <= wal' && RecordsAll(wal, past) && RecordsAll(wal'[|wal|..], es)
    ensures Replay(map[], wal') == Replay(map[], past + es)
  {
    hide RecordsAll;
    RecordsReplay(map[], wal, past);
    RecordsReplay(Replay(map[], past), wal'[|wal|..], es);
    assert wal' == wal + wal'[|wal|..];
    ReplayConcat(map[], wal, wal'[|wal|..]);
    ReplayConcat(map[], past, es);
  }

  // ---- Without a log ----

  function WriteAll(cfg: Config, m: Machine, es: seq<Entry>, ios: seq<Io>): Machine
    requires |es| == |ios|
  {
    if es == [] then m
    else
      PersistAndApply(cfg, WriteAll(cfg, m, es[..|es| - 1], ios[..|ios| - 1]), es[|es| - 1], ios[|ios| - 1]).0
  }

  /** How many of the writes the last successful save covers. */
  function SavedUpTo(interval: nat, ios: seq<Io>): (k: nat)
    requires interval > 0
    ensures k <= |ios|
  {
    if ios == [] then 0
    else if |ios| % interval == 0 && ios[|ios| - 1].saved then |ios|
    else SavedUpTo(interval, ios[..|ios| - 1])
  }

  lemma {:induction false} SavesCover(cfg: Config, m: Machine, es: seq<Entry>, ios: seq<Io>)
    requires !cfg.logged && cfg.snapshots && cfg.interval > 0 && |es| == |ios|
    requires m.writeCount == 0 && m.data == m.disk.snapshot
    ensures var m' := WriteAll(cfg, m, es, ios);
            && m'.writeCount == |es| && m'.data == Replay(m.data, es)
            && m'.disk.snapshot == Replay(m.data, es[..SavedUpTo(cfg.interval, ios)])
    decreases |es|
  {
    if es != [] {
      SavesCover(cfg, m, es[..|es| - 1], ios[..|ios| - 1]);
      assert es[..|es|] == es;
      assert es[..|es| - 1][..SavedUpTo(cfg.interval, ios[..|ios| - 1])] == es[..SavedUpTo(cfg.interval, ios[..|ios| - 1])];
    }
  }

  lemma PredMod(n: nat, k: nat)
    requires k > 0 && n > 0 && n % k != 0
    ensures (n - 1) % k == n % k - 1
  {
    var q, r := n / k, n % k;
    assert n - 1 == k * q + (r - 1);
    ModUnique(n - 1, k, q, r - 1);
  }

  lemma ModUnique(n: nat, k: nat, q: nat, r: nat)
    requires k > 0 && n == k * q + r && r < k
    ensures n % k == r
  {
    var q', r' := n / k, n % k;
    assert n == k * q' + r';
    QuotientUnique(k, q, r, q', r');
  }

  lemma QuotientUnique(k: nat, q: nat, r: nat, q': nat, r': nat)
    requires r < k && r' < k && k * q + r == k * q' + r'
    ensures q == q'
  {
    if q < q' {
      QuotientLarger(k, q, q');
    } else if q' < q {
      QuotientLarger(k, q', q);
    }
  }

  lemma {:induction false} QuotientLarger(k: nat, q: nat, q': nat)
    requires q < q'
    ensures k * q' >= k * q + k
    decreases q'
  {
    assert k * q' == k * (q' - 1) + k;
    if q + 1 < q' {
      QuotientLarger(k, q, q' - 1);
    }
  }

  lemma {:induction false} AllSaved(interval: nat, ios: seq<Io>)
    requires interval > 0 && forall io | io in ios :: io.saved
    ensures SavedUpTo(interval, ios) == |ios| - |ios| % interval
  {
    if ios != [] {
      var n, front := |ios|, ios[..|ios| - 1];
      assert ios[n - 1] in ios;
      assert forall io | io in front :: io in ios;
      AllSaved(interval, front);
      assert SavedUpTo(interval, ios) == if n % interval == 0 then n else SavedUpTo(interval, front);
      hide SavedUpTo;
      if n % interval != 0 {
        PredMod(n, interval);
      }
    }
  }

  /** Bounded loss without a log: if every save succeeds, a restart of a process that
    * began from its snapshot yields the state after a prefix of its writes that misses
    * fewer than `interval` of the latest. */
  lemma BoundedLoss(cfg: Config, m: Machine, es: seq<Entry>, ios: seq<Io>) returns (kept: nat)
    requires !cfg.logged && cfg.snapshots && cfg.interval > 0 && |es| == |ios|
    requires m.writeCount == 0 && m.data == m.disk.snapshot
    requires forall io | io in ios :: io.saved
    ensures kept <= |es| && |es| - kept < cfg.interval && kept == |es| - |es| % cfg.interval
    ensures Recover(cfg, WriteAll(cfg, m, es, ios).disk) == Replay(m.data, es[..kept])
  {
    SavesCover(cfg, m, es, ios);
    AllSaved(cfg.interval, ios);
    kept := SavedUpTo(cfg.interval, ios);
  }
}
