/** Entries of the write-ahead log and what replaying them means
  * (storage/logstore.go, kv/store.go). */
module KvLog {
  datatype Entry = Entry(op: string, key: string, value: string)

  const OP_UPSERT := "upsert"
  const OP_DELETE := "delete"

  type Table = map<string, string>

  predicate KnownOp(e: Entry) {
    e.op == OP_UPSERT || e.op == OP_DELETE
  }

  function ApplyEntry(t: Table, e: Entry): Table {
    if e.op == OP_DELETE then t - {e.key} else t[e.key := e.value]
  }

  function Replay(t: Table, es: seq<Entry>): Table {
    if es == [] then t else ApplyEntry(Replay(t, es[..|es| - 1]), es[|es| - 1])
  }

  lemma ReplayOne(t: Table, es: seq<Entry>, e: Entry)
    ensures Replay(t, es + [e]) == ApplyEntry(Replay(t, es), e)
  {
    assert (es + [e])[..|es|] == es;
  }

  lemma {:induction false} ReplayConcat(t: Table, a: seq<Entry>, b: seq<Entry>)
    ensures Replay(t, a + b) == Replay(Replay(t, a), b)
    decreases |b|
  {
    if b == [] {
      assert a + b == a;
    } else {
      var front := b[..|b| - 1];
      ReplayConcat(t, a, front);
      ReplayOne(t, a + front, b[|b| - 1]);
      assert (a + front) + [b[|b| - 1]] == a + b;
    }
  }

  // ---- What a replay holds, key by key ----

  ghost function Touched(es: seq<Entry>): set<string> {
    set e | e in es :: e.key
  }

  lemma TouchedOne(es: seq<Entry>, e: Entry)
    ensures Touched(es + [e]) == Touched(es) + {e.key}
  {
    assert forall x | x in es :: x in es + [e];
    assert e in es + [e];
  }

  ghost predicate IsLastWrite(es: seq<Entry>, key: string, i: nat) {
    && i < |es| && es[i].key == key
    && forall j | i < j < |es| :: es[j].key != key
  }

  /** A key that no entry names keeps what it had. */
  lemma {:induction false} UntouchedKeyKept(t: Table, es: seq<Entry>, key: string)
    requires key !in Touched(es)
    ensures key in Replay(t, es) <==> key in t
    ensures key in t ==> Replay(t, es)[key] == t[key]
  {
    if es != [] {
      var front := es[..|es| - 1];
      assert front + [es[|es| - 1]] == es;
      TouchedOne(front, es[|es| - 1]);
      UntouchedKeyKept(t, front, key);
    }
  }

  /** Any other key has the value of the last entry that names it, and is absent if
    * that entry deletes it. */
  lemma {:induction false} LastWriteWins(t: Table, es: seq<Entry>, key: string, i: nat)
    requires IsLastWrite(es, key, i)
    ensures key in Replay(t, es) <==> es[i].op != OP_DELETE
    ensures es[i].op != OP_DELETE ==> Replay(t, es)[key] == es[i].value
  {
    if i < |es| - 1 {
      LastWriteWins(t, es[..|es| - 1], key, i);
    }
  }

  lemma {:induction false} FindLastWrite(es: seq<Entry>, key: string) returns (i: nat)
    requires key in Touched(es)
    ensures IsLastWrite(es, key, i)
  {
    var last := es[|es| - 1];
    if last.key == key {
      i := |es| - 1;
    } else {
      assert es[..|es| - 1] + [last] == es;
      TouchedOne(es[..|es| - 1], last);
      i := FindLastWrite(es[..|es| - 1], key);
    }
  }

  /** Replaying from nothing, a key is there if and only if the last entry naming it is
    * an upsert, and has that entry's value. */
  lemma ReplayedKeyIff(es: seq<Entry>, key: string)
    requires forall e | e in es :: KnownOp(e)
    ensures key in Replay(map[], es) <==> exists i: nat :: IsLastWrite(es, key, i) && es[i].op == "upsert"
    ensures forall i: nat | IsLastWrite(es, key, i) && es[i].op == "upsert" ::
              key in Replay(map[], es) && Replay(map[], es)[key] == es[i].value
  {
    if key in Touched(es) {
      var k := FindLastWrite(es, key);
      LastWriteWins(map[], es, key, k);
      assert es[k] in es;
      forall i: nat | IsLastWrite(es, key, i) ensures i == k {
        assert !(i < k) && !(k < i);
      }
    } else {
      UntouchedKeyKept(map[], es, key);
      forall i: nat | i < |es| ensures es[i].key != key {
        assert es[i] in es;
      }
    }
  }

  lemma {:induction false} ReplayedKeys(t: Table, es: seq<Entry>)
    ensures Replay(t, es).Keys <= t.Keys + Touched(es)
  {
    forall key | key in Replay(t, es) ensures key in t.Keys + Touched(es) {
      if key !in Touched(es) { UntouchedKeyKept(t, es, key); }
    }
  }

  /** Replaying a whole log on top of a table gives the same as replaying it from
    * nothing if and only if the log names every key of the table. */
  lemma SnapshotAbsorbedIff(t: Table, es: seq<Entry>)
    ensures Replay(t, es) == Replay(map[], es) <==> t.Keys <= Touched(es)
  {
    forall key | key !in Touched(es)
      ensures key in Replay(t, es) <==> key in t
      ensures key !in Replay(map[], es)
    {
      UntouchedKeyKept(t, es, key);
      UntouchedKeyKept(map[], es, key);
    }
    forall key | key in Touched(es)
      ensures key in Replay(t, es) <==> key in Replay(map[], es)
      ensures key in Replay(t, es) ==> Replay(t, es)[key] == Replay(map[], es)[key]
    {
      var i := FindLastWrite(es, key);
      LastWriteWins(t, es, key, i);
      LastWriteWins(map[], es, key, i);
    }
    if t.Keys <= Touched(es) {
      assert forall key :: key in Replay(t, es) <==> key in Replay(map[], es);
    }
  }

  /** Delivering history again to a store built from `past` ends in the replay of the
    * history if and only if the history names every key the store held, and then the
    * log with the duplicates replays to it too. */
  lemma RedeliveryHarmlessIff(past: seq<Entry>, history: seq<Entry>)
    ensures Replay(Replay(map[], past), history) == Replay(map[], history) <==>
            Replay(map[], past).Keys <= Touched(history)
    ensures Replay(map[], past + history) == Replay(Replay(map[], past), history)
  {
    SnapshotAbsorbedIff(Replay(map[], past), history);
    ReplayConcat(map[], past, history);
  }

  /** Redelivery of a full history that extends what the store has applied. */
  lemma RedeliveryOfExtension(past: seq<Entry>, history: seq<Entry>)
    requires past <= history
    ensures Replay(Replay(map[], past), history) == Replay(map[], history)
    ensures Replay(map[], past + history) == Replay(map[], history)
  {
    assert Touched(past) <= Touched(history) by {
      assert forall e | e in past :: e in history;
    }
    ReplayedKeys(map[], past);
    RedeliveryHarmlessIff(past, history);
  }

  // ---- Lines and the commands they record ----

  /** The line records the command; what a delete says of a value does not matter. */
  ghost predicate Records(line: Entry, e: Entry) {
    line.op == e.op && line.key == e.key && (e.op != OP_DELETE ==> line.value == e.value)
  }

  ghost predicate RecordsAll(lines: seq<Entry>, es: seq<Entry>) {
    |lines| == |es| && forall i | 0 <= i < |es| :: Records(lines[i], es[i])
  }

  /** Lines replay as the commands they record, and name the same keys. */
  lemma RecordsReplay(t: Table, lines: seq<Entry>, es: seq<Entry>)
    requires RecordsAll(lines, es)
    ensures Replay(t, lines) == Replay(t, es) && Touched(lines) == Touched(es)
  {
    SameReplay(t, lines, es);
    forall key ensures key in Touched(lines) <==> key in Touched(es) {
      assert key in Touched(lines) <==> exists i :: 0 <= i < |lines| && lines[i].key == key;
      assert key in Touched(es) <==> exists i :: 0 <= i < |es| && es[i].key == key;
    }
  }

  lemma {:induction false} SameReplay(t: Table, lines: seq<Entry>, es: seq<Entry>)
    requires RecordsAll(lines, es)
    ensures Replay(t, lines) == Replay(t, es)
    decreases |es|
  {
    if es != [] {
      SameReplay(t, lines[..|lines| - 1], es[..|es| - 1]);
    }
  }
}
