/** The buffered execution recorder (database/execution-recorder.ts). */
module Recorder {
  import opened Collections
  import opened Numbers
  import opened RowBatching

  type Id = string

  datatype Log = Log(executionId: Id, text: string)

  datatype KeyRecord = KeyRecord(endpointId: string, key: string, eventId: string, expiresAt: real)

  datatype ExecutionUpdate = ExecutionUpdate(id: Id, update: Update)

  datatype Batch = Batch(executions: seq<ExecutionUpdate>, logs: seq<Log>, keys: seq<KeyRecord>)

  /** What is waiting for the next flush. */
  datatype Buffer = Buffer(
    executions: InsertionMap<Id, Update>, logs: seq<Log>, keys: InsertionMap<string, KeyRecord>)
  {
    function Size(): nat {
      |executions.keys| + |logs| + |keys.keys|
    }

    ghost predicate Valid() {
      executions.Valid() && keys.Valid()
    }
  }

  const EMPTY := Buffer(Empty(), [], Empty())

  function KeyOf(r: KeyRecord): string {
    r.endpointId + "|" + r.key
  }

  predicate Full(b: Buffer, closed: bool, max: nat) {
    closed || b.Size() >= max
  }

  /** A later update of a buffered execution is merged even when the buffer is full or closed. */
  function WithExecution(b: Buffer, closed: bool, max: nat, x: ExecutionUpdate): Buffer {
    if x.id in b.executions.vals
    then b.(executions := b.executions.Put(x.id, Merged(b.executions.vals[x.id], x.update)))
    else if Full(b, closed, max) then b
    else b.(executions := b.executions.Put(x.id, x.update))
  }

  function WithLog(b: Buffer, closed: bool, max: nat, l: Log): Buffer {
    if Full(b, closed, max) then b else b.(logs := b.logs + [l])
  }

  function WithKey(b: Buffer, closed: bool, max: nat, r: KeyRecord): Buffer {
    if Full(b, closed, max) then b else b.(keys := b.keys.Put(KeyOf(r), r))
  }

  function ExecutionList(m: InsertionMap<Id, Update>): (xs: seq<ExecutionUpdate>)
    requires m.Valid()
    ensures |xs| == |m.keys| && forall i :: 0 <= i < |xs| ==> xs[i].id == m.keys[i] && xs[i].update == m.vals[m.keys[i]]
  {
    seq(|m.keys|, i requires 0 <= i < |m.keys| => ExecutionUpdate(m.keys[i], m.vals[m.keys[i]]))
  }

  function KeyList(m: InsertionMap<string, KeyRecord>): (rs: seq<KeyRecord>)
    requires m.Valid()
    ensures |rs| == |m.keys| && forall i :: 0 <= i < |rs| ==> rs[i] == m.vals[m.keys[i]]
  {
    seq(|m.keys|, i requires 0 <= i < |m.keys| => m.vals[m.keys[i]])
  }

  function BatchOf(b: Buffer): Batch
    requires b.Valid()
  {
    Batch(ExecutionList(b.executions), b.logs, KeyList(b.keys))
  }

  ghost predicate DistinctIds(xs: seq<ExecutionUpdate>) {
    forall i, j :: 0 <= i < j < |xs| ==> xs[i].id != xs[j].id
  }

  // ---- requeue ----

  /** An execution goes back under its newer update; one without goes last. */
  function PutBackExecution(m: InsertionMap<Id, Update>, x: ExecutionUpdate): InsertionMap<Id, Update> {
    m.Put(x.id, if x.id in m.vals then Merged(x.update, m.vals[x.id]) else x.update)
  }

  function PutBackExecutions(m: InsertionMap<Id, Update>, xs: seq<ExecutionUpdate>): (r: InsertionMap<Id, Update>)
    ensures m.Valid() ==> r.Valid()
    decreases |xs|
  {
    if xs == [] then m else PutBackExecutions(PutBackExecution(m, xs[0]), xs[1..])
  }

  function PutBackKeys(m: InsertionMap<string, KeyRecord>, rs: seq<KeyRecord>): (r: InsertionMap<string, KeyRecord>)
    ensures m.Valid() ==> r.Valid()
    decreases |rs|
  {
    if rs == [] then m
    else PutBackKeys(if KeyOf(rs[0]) in m.vals then m else m.Put(KeyOf(rs[0]), rs[0]), rs[1..])
  }

  /** `logs.slice(-room)`: with no room at all the start index is zero, and everything is kept. */
  function DroppedLogs(logs: seq<Log>, room: nat): (n: nat)
    ensures n <= |logs|
  {
    if room == 0 || room >= |logs| then 0 else |logs| - room
  }

  /** How many of the batch's logs a requeue gives up. */
  function LogsGivenUp(b: Buffer, max: nat, batch: Batch): (n: nat)
    ensures n <= |batch.logs|
  {
    var size := b.(executions := PutBackExecutions(b.executions, batch.executions)).Size();
    DroppedLogs(batch.logs, MaxInt(0, max - size))
  }

  function PutBack(b: Buffer, max: nat, batch: Batch): Buffer {
    Buffer(PutBackExecutions(b.executions, batch.executions),
           batch.logs[LogsGivenUp(b, max, batch)..] + b.logs,
           PutBackKeys(b.keys, batch.keys))
  }

  predicate Holds(xs: seq<ExecutionUpdate>, id: Id) {
    exists i :: 0 <= i < |xs| && xs[i].id == id
  }

  function UpdateIn(xs: seq<ExecutionUpdate>, id: Id): Option<Update> {
    if xs == [] then None else if xs[0].id == id then Some(xs[0].update) else UpdateIn(xs[1..], id)
  }

  lemma {:induction false} UpdateInAt(xs: seq<ExecutionUpdate>, i: nat)
    requires DistinctIds(xs) && i < |xs|
    ensures UpdateIn(xs, xs[i].id) == Some(xs[i].update)
  {
    if i > 0 {
      UpdateInAt(xs[1..], i - 1);
    }
  }

  lemma {:induction false} UpdateInHolds(xs: seq<ExecutionUpdate>, id: Id)
    ensures UpdateIn(xs, id).Some? <==> Holds(xs, id)
  {
    if xs != [] && xs[0].id != id {
      UpdateInHolds(xs[1..], id);
      if Holds(xs, id) {
        var i :| 0 <= i < |xs| && xs[i].id == id;
        assert xs[1..][i - 1].id == id;
      }
    }
  }

  /** After a requeue every execution has its batch update under whatever came after it. */
  lemma {:induction false} PutBackGet(m: InsertionMap<Id, Update>, xs: seq<ExecutionUpdate>, id: Id)
    requires DistinctIds(xs)
    ensures
      PutBackExecutions(m, xs).Get(id) ==
      match UpdateIn(xs, id)
      case None => m.Get(id)
      case Some(u) => Some(if id in m.vals then Merged(u, m.vals[id]) else u)
    decreases |xs|
  {
    if xs != [] {
      PutBackGet(PutBackExecution(m, xs[0]), xs[1..], id);
      if xs[0].id == id {
        UpdateInHolds(xs[1..], id);
      }
    }
  }

  /** The first record with this key. */
  function KeyIn(rs: seq<KeyRecord>, key: string): Option<KeyRecord> {
    if rs == [] then None else if KeyOf(rs[0]) == key then Some(rs[0]) else KeyIn(rs[1..], key)
  }

  /** After a requeue every key of the batch is buffered again, unless a newer record has taken its place. */
  lemma {:induction false} PutBackKeysGet(m: InsertionMap<string, KeyRecord>, rs: seq<KeyRecord>, key: string)
    ensures PutBackKeys(m, rs).Get(key) == if key in m.vals then m.Get(key) else KeyIn(rs, key)
    decreases |rs|
  {
    if rs != [] {
      hide KeyOf;
      PutBackKeysGet(if KeyOf(rs[0]) in m.vals then m else m.Put(KeyOf(rs[0]), rs[0]), rs[1..], key);
    }
  }

  // ---- isolation ----

  function LogsOf(logs: seq<Log>, id: Id): seq<Log> {
    if logs == [] then []
    else if logs[0].executionId == id then [logs[0]] + LogsOf(logs[1..], id)
    else LogsOf(logs[1..], id)
  }

  /** The logs of executions that are not in the batch. */
  function Orphans(logs: seq<Log>, xs: seq<ExecutionUpdate>): seq<Log> {
    if logs == [] then []
    else if Holds(xs, logs[0].executionId) then Orphans(logs[1..], xs)
    else [logs[0]] + Orphans(logs[1..], xs)
  }

  function RowWrites(xs: seq<ExecutionUpdate>, logs: seq<Log>): (ws: seq<Batch>)
    ensures |ws| == |xs| && forall i :: 0 <= i < |xs| ==> ws[i] == Batch([xs[i]], LogsOf(logs, xs[i].id), [])
  {
    seq(|xs|, i requires 0 <= i < |xs| => Batch([xs[i]], LogsOf(logs, xs[i].id), []))
  }

  function KeyWrites(rs: seq<KeyRecord>): (ws: seq<Batch>)
    ensures |ws| == |rs| && forall i :: 0 <= i < |rs| ==> ws[i] == Batch([], [], [rs[i]])
  {
    seq(|rs|, i requires 0 <= i < |rs| => Batch([], [], [rs[i]]))
  }

  function LogWrites(logs: seq<Log>): (ws: seq<Batch>)
    ensures |ws| == |logs| && forall i :: 0 <= i < |logs| ==> ws[i] == Batch([], [logs[i]], [])
  {
    seq(|logs|, i requires 0 <= i < |logs| => Batch([], [logs[i]], []))
  }

  /** The writes of the isolation pass, in order. */
  function IsolationWrites(batch: Batch): seq<Batch> {
    RowWrites(batch.executions, batch.logs) + KeyWrites(batch.keys) + LogWrites(Orphans(batch.logs, batch.executions))
  }

  /** The writes whose outcome is `ok`. */
  function Chosen(writes: seq<Batch>, outcomes: seq<bool>, ok: bool): seq<Batch>
    requires |writes| == |outcomes|
  {
    if writes == [] then []
    else
      var front := Chosen(writes[..|writes| - 1], outcomes[..|writes| - 1], ok);
      if outcomes[|writes| - 1] == ok then front + [writes[|writes| - 1]] else front
  }

  function LogsIn(writes: seq<Batch>): seq<Log> {
    if writes == [] then [] else LogsIn(writes[..|writes| - 1]) + writes[|writes| - 1].logs
  }

  class BufferedExecutionRecorder {
    var executions: InsertionMap<Id, Update>
    var logs: seq<Log>
    var keys: InsertionMap<string, KeyRecord>
    var flushing: Option<Batch>
    var closed: bool
    var dropped: nat
    const maxBuffer: nat

    ghost predicate Valid()
      reads this
    {
      executions.Valid() && keys.Valid()
    }

    function Waiting(): Buffer
      reads this
    {
      Buffer(executions, logs, keys)
    }

    constructor (maxBuffer: nat)
      ensures Valid() && Waiting() == EMPTY && flushing == None && !closed && dropped == 0
      ensures this.maxBuffer == maxBuffer
    {
      executions, logs, keys := Empty(), [], Empty();
      flushing, closed, dropped := None, false, 0;
      this.maxBuffer := maxBuffer;
    }

    method RecordExecution(x: ExecutionUpdate)
      requires Valid()
      modifies this`executions, this`dropped
      ensures Valid()
      ensures Waiting() == WithExecution(old(Waiting()), closed, maxBuffer, x)
      ensures dropped == old(dropped) + if x.id in executions.vals then 0 else 1
    {
      if x.id in executions.vals {
        executions := executions.Put(x.id, Merged(executions.vals[x.id], x.update));
        return;
      }
      if closed || Waiting().Size() >= maxBuffer {
        dropped := dropped + 1;
        return;
      }
      executions := executions.Put(x.id, x.update);
    }

    method AppendLog(l: Log)
      requires Valid()
      modifies this`logs, this`dropped
      ensures Valid()
      ensures Waiting() == WithLog(old(Waiting()), closed, maxBuffer, l)
      ensures dropped == old(dropped) + if Full(old(Waiting()), closed, maxBuffer) then 1 else 0
    {
      if closed || Waiting().Size() >= maxBuffer {
        dropped := dropped + 1;
        return;
      }
      logs := logs + [l];
    }

    method RecordIdempotencyKey(r: KeyRecord)
      requires Valid()
      modifies this`keys, this`dropped
      ensures Valid()
      ensures Waiting() == WithKey(old(Waiting()), closed, maxBuffer, r)
      ensures dropped == old(dropped) + if Full(old(Waiting()), closed, maxBuffer) then 1 else 0
    {
      if closed || Waiting().Size() >= maxBuffer {
        dropped := dropped + 1;
        return;
      }
      keys := keys.Put(KeyOf(r), r);
    }

    /** The part of a flush before its first write; a flush under way is joined, not repeated. */
    method Flush() returns (started: bool)
      requires Valid()
      modifies this`executions, this`logs, this`keys, this`flushing
      ensures Valid()
      ensures started <==> old(flushing) == None && old(Waiting()).Size() > 0
      ensures started ==> flushing == Some(BatchOf(old(Waiting()))) && Waiting() == EMPTY
      ensures !started ==> flushing == old(flushing) && Waiting() == old(Waiting())
    {
      if flushing.Some? {
        return false;
      }
      if Waiting().Size() == 0 {
        return false;
      }
      var batch := Batch(ExecutionList(executions), logs, KeyList(keys));
      executions, logs, keys := Empty(), [], Empty();
      flushing := Some(batch);
      return true;
    }

    method PutBackRows(xs: seq<ExecutionUpdate>)
      requires Valid()
      modifies this`executions
      ensures Valid() && executions == PutBackExecutions(old(executions), xs)
    {
      var i := 0;
      while i < |xs|
        invariant 0 <= i <= |xs| && executions.Valid()
        invariant PutBackExecutions(executions, xs[i..]) == PutBackExecutions(old(executions), xs)
      {
        var x := xs[i];
        assert xs[i..][1..] == xs[i + 1..];
        executions :=
          executions.Put(x.id, if x.id in executions.vals then Merged(x.update, executions.vals[x.id]) else x.update);
        i := i + 1;
      }
    }

    method PutBackKeyRecords(rs: seq<KeyRecord>)
      requires Valid()
      modifies this`keys
      ensures Valid() && keys == PutBackKeys(old(keys), rs)
    {
      var i := 0;
      while i < |rs|
        invariant 0 <= i <= |rs| && keys.Valid()
        invariant PutBackKeys(keys, rs[i..]) == PutBackKeys(old(keys), rs)
      {
        assert rs[i..][1..] == rs[i + 1..];
        if KeyOf(rs[i]) !in keys.vals {
          keys := keys.Put(KeyOf(rs[i]), rs[i]);
        }
        i := i + 1;
      }
    }

    /** A retryable failure of the flush under way: its batch goes back under what has arrived since. */
    method Requeue()
      requires Valid() && flushing.Some?
      modifies this
      ensures Valid() && flushing == None && closed == old(closed)
      ensures Waiting() == PutBack(old(Waiting()), maxBuffer, old(flushing).value)
      ensures dropped == old(dropped) + LogsGivenUp(old(Waiting()), maxBuffer, old(flushing).value)
    {
      hide PutBackExecutions, PutBackKeys;
      var batch := flushing.value;
      PutBackRows(batch.executions);
      var room := if maxBuffer > Waiting().Size() then maxBuffer - Waiting().Size() else 0;
      var keptLogs := if room == 0 || room >= |batch.logs| then batch.logs else batch.logs[|batch.logs| - room..];
      dropped := dropped + (|batch.logs| - |keptLogs|);
      logs := keptLogs + logs;
      PutBackKeyRecords(batch.keys);
      flushing := None;
    }

    method IsolateRows(xs: seq<ExecutionUpdate>, all: seq<Log>, outcomes: seq<bool>) returns (written: seq<Batch>)
      requires |outcomes| == |xs|
      modifies this`dropped
      ensures written == Chosen(RowWrites(xs, all), outcomes, true)
      ensures dropped == old(dropped) + |Chosen(RowWrites(xs, all), outcomes, false)|
    {
      ghost var writes := RowWrites(xs, all);
      written := [];
      var i := 0;
      while i < |xs|
        invariant 0 <= i <= |xs|
        invariant written == Chosen(writes[..i], outcomes[..i], true)
        invariant dropped == old(dropped) + |Chosen(writes[..i], outcomes[..i], false)|
      {
        ChosenNext(writes, outcomes, i);
        if outcomes[i] {
          written := written + [Batch([xs[i]], LogsOf(all, xs[i].id), [])];
        } else {
          dropped := dropped + 1;
        }
        i := i + 1;
      }
      assert writes[..i] == writes && outcomes[..i] == outcomes;
    }

    method IsolateRecords(keyRecords: seq<KeyRecord>, orphans: seq<Log>, outcomes: seq<bool>)
      returns (written: seq<Batch>)
      requires |outcomes| == |keyRecords| + |orphans|
      modifies this`dropped
      ensures written == Chosen(KeyWrites(keyRecords) + LogWrites(orphans), outcomes, true)
      ensures dropped == old(dropped) + |Chosen(KeyWrites(keyRecords) + LogWrites(orphans), outcomes, false)|
    {
      ghost var writes := KeyWrites(keyRecords) + LogWrites(orphans);
      written := [];
      var i := 0;
      while i < |keyRecords| + |orphans|
        invariant 0 <= i <= |writes|
        invariant written == Chosen(writes[..i], outcomes[..i], true)
        invariant dropped == old(dropped) + |Chosen(writes[..i], outcomes[..i], false)|
      {
        ChosenNext(writes, outcomes, i);
        if outcomes[i] {
          written := written +
            [if i < |keyRecords| then Batch([], [], [keyRecords[i]]) else Batch([], [orphans[i - |keyRecords|]], [])];
        } else {
          dropped := dropped + 1;
        }
        i := i + 1;
      }
      assert writes[..i] == writes && outcomes[..i] == outcomes;
    }

    /**
     * A failure that is not retryable: rows are written one by one. `outcomes` says which writes succeed; the result
     * lists those that did.
     */
    method Isolate(outcomes: seq<bool>) returns (written: seq<Batch>)
      requires Valid() && flushing.Some? && |outcomes| == |IsolationWrites(flushing.value)|
      modifies this`flushing, this`dropped
      ensures Valid() && flushing == None
      ensures written == Chosen(IsolationWrites(old(flushing).value), outcomes, true)
      ensures dropped == old(dropped) + |Chosen(IsolationWrites(old(flushing).value), outcomes, false)|
    {
      hide Chosen, Orphans;
      var batch, n := flushing.value, |flushing.value.executions|;
      var orphans := Orphans(batch.logs, batch.executions);
      written := IsolateRows(batch.executions, batch.logs, outcomes[..n]);
      var rest := IsolateRecords(batch.keys, orphans, outcomes[n..]);
      forall ok {
        ChosenConcat(RowWrites(batch.executions, batch.logs), KeyWrites(batch.keys) + LogWrites(orphans), outcomes[..n],
                     outcomes[n..], ok);
      }
      assert outcomes[..n] + outcomes[n..] == outcomes;
      assert IsolationWrites(batch) == RowWrites(batch.executions, batch.logs) +
        (KeyWrites(batch.keys) + LogWrites(orphans));
      written := written + rest;
      flushing := None;
    }
  }

  lemma {:induction false} ChosenConcat(a: seq<Batch>, b: seq<Batch>, oa: seq<bool>, ob: seq<bool>, ok: bool)
    requires |a| == |oa| && |b| == |ob|
    ensures Chosen(a + b, oa + ob, ok) == Chosen(a, oa, ok) + Chosen(b, ob, ok)
    decreases |b|
  {
    if b == [] {
      assert a + b == a && oa + ob == oa;
    } else {
      var n := |b| - 1;
      ChosenConcat(a, b[..n], oa, ob[..n], ok);
      assert (a + b)[..|a| + n] == a + b[..n] && (oa + ob)[..|a| + n] == oa + ob[..n];
    }
  }

  lemma ChosenNext(writes: seq<Batch>, outcomes: seq<bool>, i: nat)
    requires |writes| == |outcomes| && i < |writes|
    ensures forall ok ::
      Chosen(writes[..i + 1], outcomes[..i + 1], ok) ==
      Chosen(writes[..i], outcomes[..i], ok) + if outcomes[i] == ok then [writes[i]] else []
  {
    assert writes[..i + 1][..i] == writes[..i] && outcomes[..i + 1][..i] == outcomes[..i];
  }
}
