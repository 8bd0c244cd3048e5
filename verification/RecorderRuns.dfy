/** Runs of the recorder against the database: where every accepted log is, in which order, and what each row holds. */
module RecorderRuns {
  import opened Collections
  import opened Numbers
  import opened RowBatching
  import opened Recorder

  datatype World = World(
    buffer: Buffer, flushing: Option<Batch>, closed: bool,
    rows: map<Id, Row>, logTable: seq<Log>,
    // history: what was accepted, and where the updates of each execution are
    accepted: seq<Log>, lost: seq<Log>,
    history: map<Id, seq<Update>>, written: map<Id, seq<seq<Update>>>,
    flying: map<Id, seq<Update>>, waiting: map<Id, seq<Update>>,
    lostRows: set<Id>)

  datatype Step =
    | RecordRow(x: ExecutionUpdate)
    | Append(log: Log)
    | RecordKey(record: KeyRecord)
    | Flush
    | WriteSucceeds
    | WriteFailsForNow
    | WriteRejected(outcomes: seq<bool>)
    | Close

  const INITIAL := World(EMPTY, None, false, map[], [], [], [], map[], map[], map[], map[], {})

  function ListAt<T>(m: map<Id, seq<T>>, id: Id): seq<T> {
    if id in m then m[id] else []
  }

  function RowAt(rows: map<Id, Row>, id: Id): Option<Row> {
    if id in rows then Some(rows[id]) else None
  }

  ghost predicate Enabled(w: World, e: Step) {
    match e
    case Flush => w.flushing == None && w.buffer.Valid() && w.buffer.Size() > 0
    case WriteSucceeds => w.flushing.Some?
    case WriteFailsForNow => w.flushing.Some?
    case WriteRejected(outcomes) => w.flushing.Some? && |outcomes| == |IsolationWrites(w.flushing.value)|
    case _ => true
  }

  function WriteRows(rows: map<Id, Row>, xs: seq<ExecutionUpdate>): map<Id, Row>
    decreases |xs|
  {
    if xs == [] then rows else WriteRows(rows[xs[0].id := Upserted(RowAt(rows, xs[0].id), xs[0].update)], xs[1..])
  }

  /** The executions whose row write succeeded in an isolation pass. */
  function ExecutionsIn(writes: seq<Batch>): seq<ExecutionUpdate> {
    if writes == [] then [] else ExecutionsIn(writes[..|writes| - 1]) + writes[|writes| - 1].executions
  }

  /** Every update in flight for an execution among `xs` becomes one more written group. */
  function Settle(written: map<Id, seq<seq<Update>>>, flying: map<Id, seq<Update>>,
                  xs: seq<ExecutionUpdate>): map<Id, seq<seq<Update>>> {
    map id | id in written.Keys + flying.Keys ::
      if id in flying && Holds(xs, id) then ListAt(written, id) + [flying[id]] else ListAt(written, id)
  }

  /** Updates in flight go back in front of those that are waiting. */
  function Rejoin(flying: map<Id, seq<Update>>, waiting: map<Id, seq<Update>>): map<Id, seq<Update>> {
    map id | id in flying.Keys + waiting.Keys :: ListAt(flying, id) + ListAt(waiting, id)
  }

  /** An update is accepted unless its execution is new and there is no place for it. */
  function Recorded(w: World, x: ExecutionUpdate, max: nat): World {
    if x.id !in w.buffer.executions.vals && Full(w.buffer, w.closed, max) then w
    else
      w.(buffer := WithExecution(w.buffer, w.closed, max, x),
         history := w.history[x.id := ListAt(w.history, x.id) + [x.update]],
         waiting := w.waiting[x.id := ListAt(w.waiting, x.id) + [x.update]])
  }

  function Appended(w: World, log: Log, max: nat): World {
    if Full(w.buffer, w.closed, max) then w
    else w.(buffer := WithLog(w.buffer, w.closed, max, log), accepted := w.accepted + [log])
  }

  function Taken(w: World): World
    requires w.buffer.Valid()
  {
    w.(buffer := EMPTY, flushing := Some(BatchOf(w.buffer)), flying := w.waiting, waiting := map[])
  }

  function Stored(w: World): World
    requires w.flushing.Some?
  {
    var batch := w.flushing.value;
    w.(flushing := None, rows := WriteRows(w.rows, batch.executions), logTable := w.logTable + batch.logs,
       written := Settle(w.written, w.flying, batch.executions), flying := map[])
  }

  function Requeued(w: World, max: nat): World
    requires w.flushing.Some?
  {
    var batch := w.flushing.value;
    w.(flushing := None, buffer := PutBack(w.buffer, max, batch),
       lost := w.lost + batch.logs[..LogsGivenUp(w.buffer, max, batch)],
       flying := map[], waiting := Rejoin(w.flying, w.waiting))
  }

  ghost function Isolated(w: World, outcomes: seq<bool>): World
    requires w.flushing.Some? && |outcomes| == |IsolationWrites(w.flushing.value)|
  {
    var batch := w.flushing.value;
    var kept := Chosen(IsolationWrites(batch), outcomes, true);
    var failed := Chosen(IsolationWrites(batch), outcomes, false);
    w.(flushing := None, rows := WriteRows(w.rows, ExecutionsIn(kept)), logTable := w.logTable + LogsIn(kept),
       lost := w.lost + LogsIn(failed),
       written := Settle(w.written, w.flying, ExecutionsIn(kept)), flying := map[],
       lostRows := w.lostRows + set x | x in ExecutionsIn(failed) :: x.id)
  }

  ghost function Apply(w: World, e: Step, max: nat): World
    requires Enabled(w, e)
  {
    match e
    case RecordRow(x) => Recorded(w, x, max)
    case Append(log) => Appended(w, log, max)
    case RecordKey(record) => w.(buffer := WithKey(w.buffer, w.closed, max, record))
    case Flush => Taken(w)
    case WriteSucceeds => Stored(w)
    case WriteFailsForNow => Requeued(w, max)
    case WriteRejected(outcomes) => Isolated(w, outcomes)
    case Close => w.(closed := true)
  }

  ghost predicate Runs(w: World, steps: seq<Step>, max: nat)
    decreases |steps|
  {
    steps == [] || (Enabled(w, steps[0]) && Runs(Apply(w, steps[0], max), steps[1..], max))
  }

  ghost function After(w: World, steps: seq<Step>, max: nat): World
    requires Runs(w, steps, max)
    decreases |steps|
  {
    if steps == [] then w else After(Apply(w, steps[0], max), steps[1..], max)
  }

  // ---- the batch in flight ----

  function FlyingLogs(w: World): seq<Log> {
    if w.flushing.Some? then w.flushing.value.logs else []
  }

  // ---- logs: sub-sequences and counting ----

  /** `a` is `b` with some elements left out. */
  predicate Within(a: seq<Log>, b: seq<Log>)
    decreases |b|
  {
    if b == [] then a == []
    else Within(a, b[..|b| - 1]) || (a != [] && a[|a| - 1] == b[|b| - 1] && Within(a[..|a| - 1], b[..|b| - 1]))
  }

  lemma {:induction false} WithinSelf(a: seq<Log>)
    ensures Within(a, a)
  {
    if a != [] {
      WithinSelf(a[..|a| - 1]);
    }
  }

  lemma {:induction false} NothingWithin(b: seq<Log>)
    ensures Within([], b)
  {
    if b != [] {
      NothingWithin(b[..|b| - 1]);
    }
  }

  lemma {:induction false} WithinTrans(a: seq<Log>, b: seq<Log>, c: seq<Log>)
    requires Within(a, b) && Within(b, c)
    ensures Within(a, c)
    decreases |c|
  {
    if c != [] {
      var c' := c[..|c| - 1];
      if Within(b, c') {
        WithinTrans(a, b, c');
      } else {
        var b' := b[..|b| - 1];
        if Within(a, b') {
          WithinTrans(a, b', c');
        } else {
          WithinTrans(a[..|a| - 1], b', c');
        }
      }
    }
  }

  lemma {:induction false} WithinConcat(a: seq<Log>, b: seq<Log>, c: seq<Log>, d: seq<Log>)
    requires Within(a, b) && Within(c, d)
    ensures Within(a + c, b + d)
    decreases |d|
  {
    if d == [] {
      assert a + c == a && b + d == b;
    } else {
      var d' := d[..|d| - 1];
      assert (b + d)[..|b + d| - 1] == b + d';
      if Within(c, d') {
        WithinConcat(a, b, c, d');
      } else {
        WithinConcat(a, b, c[..|c| - 1], d');
        assert (a + c)[..|a + c| - 1] == a + c[..|c| - 1];
      }
    }
  }

  lemma {:induction false} LogsOfConcat(a: seq<Log>, b: seq<Log>, id: Id)
    ensures LogsOf(a + b, id) == LogsOf(a, id) + LogsOf(b, id)
  {
    if a == [] {
      assert a + b == b;
    } else {
      assert (a + b)[1..] == a[1..] + b;
      LogsOfConcat(a[1..], b, id);
    }
  }

  lemma {:induction false} LogsOfWithin(a: seq<Log>, b: seq<Log>, id: Id)
    requires Within(a, b)
    ensures Within(LogsOf(a, id), LogsOf(b, id))
    decreases |b|
  {
    if b == [] {
    } else {
      var b', last := b[..|b| - 1], [b[|b| - 1]];
      assert b == b' + last;
      LogsOfConcat(b', last, id);
      if Within(a, b') {
        LogsOfWithin(a, b', id);
        NothingWithin(LogsOf(last, id));
        WithinConcat(LogsOf(a, id), LogsOf(b', id), [], LogsOf(last, id));
        assert LogsOf(a, id) + [] == LogsOf(a, id);
      } else {
        var a' := a[..|a| - 1];
        assert a == a' + last;
        LogsOfConcat(a', last, id);
        LogsOfWithin(a', b', id);
        WithinSelf(LogsOf(last, id));
        WithinConcat(LogsOf(a', id), LogsOf(b', id), LogsOf(last, id), LogsOf(last, id));
      }
    }
  }

  // ---- isolation attempts every record once ----

  lemma {:induction false} LogsInConcat(a: seq<Batch>, b: seq<Batch>)
    ensures LogsIn(a + b) == LogsIn(a) + LogsIn(b)
  {
    if b == [] {
      assert a + b == a;
    } else {
      assert (a + b)[..|a + b| - 1] == a + b[..|b| - 1];
      LogsInConcat(a, b[..|b| - 1]);
    }
  }

  lemma {:induction false} ExecutionsInConcat(a: seq<Batch>, b: seq<Batch>)
    ensures ExecutionsIn(a + b) == ExecutionsIn(a) + ExecutionsIn(b)
  {
    if b == [] {
      assert a + b == a;
    } else {
      assert (a + b)[..|a + b| - 1] == a + b[..|b| - 1];
      ExecutionsInConcat(a, b[..|b| - 1]);
    }
  }

  lemma {:induction false} LogsOfTwice(logs: seq<Log>, a: Id, b: Id)
    ensures LogsOf(LogsOf(logs, a), b) == if a == b then LogsOf(logs, a) else []
  {
    if logs != [] {
      LogsOfTwice(logs[1..], a, b);
      if logs[0].executionId == a {
        assert LogsOf(logs, a)[1..] == LogsOf(logs[1..], a);
      }
    }
  }

  lemma {:induction false} LogsOfOrphans(logs: seq<Log>, xs: seq<ExecutionUpdate>, id: Id)
    ensures LogsOf(Orphans(logs, xs), id) == if Holds(xs, id) then [] else LogsOf(logs, id)
  {
    if logs != [] {
      LogsOfOrphans(logs[1..], xs, id);
      if !Holds(xs, logs[0].executionId) {
        assert Orphans(logs, xs)[1..] == Orphans(logs[1..], xs);
      }
    }
  }

  lemma {:induction false} LogsOfRowWrites(xs: seq<ExecutionUpdate>, logs: seq<Log>, id: Id)
    requires DistinctIds(xs)
    ensures LogsOf(LogsIn(RowWrites(xs, logs)), id) == if Holds(xs, id) then LogsOf(logs, id) else []
    ensures ExecutionsIn(RowWrites(xs, logs)) == xs
    decreases |xs|
  {
    if xs != [] {
      var n := |xs| - 1;
      var front := xs[..n];
      LogsOfRowWrites(front, logs, id);
      assert RowWrites(xs, logs)[..n] == RowWrites(front, logs);
      assert front + [xs[n]] == xs;
      LogsOfConcat(LogsIn(RowWrites(front, logs)), LogsOf(logs, xs[n].id), id);
      LogsOfTwice(logs, xs[n].id, id);
      HoldsAppend(front, xs[n], id);
      if Holds(front, xs[n].id) {
        assert false;
      }
      hide LogsOf, Holds;
    }
  }

  lemma HoldsAppend(front: seq<ExecutionUpdate>, x: ExecutionUpdate, id: Id)
    ensures Holds(front + [x], id) <==> Holds(front, id) || x.id == id
  {
    var xs := front + [x];
    if Holds(front, id) {
      var i :| 0 <= i < |front| && front[i].id == id;
      assert xs[i].id == id;
    }
    assert xs[|front|] == x;
  }

  lemma {:induction false} KeyWritesHaveNoLogs(rs: seq<KeyRecord>)
    ensures LogsIn(KeyWrites(rs)) == [] && ExecutionsIn(KeyWrites(rs)) == []
  {
    if rs != [] {
      KeyWritesHaveNoLogs(rs[..|rs| - 1]);
      assert KeyWrites(rs)[..|rs| - 1] == KeyWrites(rs[..|rs| - 1]);
    }
  }

  lemma {:induction false} LogWritesHaveTheLogs(logs: seq<Log>)
    ensures LogsIn(LogWrites(logs)) == logs && ExecutionsIn(LogWrites(logs)) == []
  {
    if logs != [] {
      LogWritesHaveTheLogs(logs[..|logs| - 1]);
      assert LogWrites(logs)[..|logs| - 1] == LogWrites(logs[..|logs| - 1]);
    }
  }

  lemma IsolationExecutions(batch: Batch)
    requires DistinctIds(batch.executions)
    ensures ExecutionsIn(IsolationWrites(batch)) == batch.executions
  {
    var rows, keyed, single :=
      RowWrites(batch.executions, batch.logs), KeyWrites(batch.keys), LogWrites(Orphans(batch.logs, batch.executions));
    LogsOfRowWrites(batch.executions, batch.logs, "");
    KeyWritesHaveNoLogs(batch.keys);
    LogWritesHaveTheLogs(Orphans(batch.logs, batch.executions));
    hide *;
    ExecutionsInConcat(rows, keyed);
    ExecutionsInConcat(rows + keyed, single);
    IsolationParts(batch);
  }

  lemma IsolationParts(batch: Batch)
    ensures IsolationWrites(batch) ==
            RowWrites(batch.executions, batch.logs) + KeyWrites(batch.keys) +
              LogWrites(Orphans(batch.logs, batch.executions))
  {
  }

  lemma IsolationKeepsLogs(batch: Batch, id: Id)
    requires DistinctIds(batch.executions)
    ensures LogsOf(LogsIn(IsolationWrites(batch)), id) == LogsOf(batch.logs, id)
  {
    var rows, keyed, single :=
      RowWrites(batch.executions, batch.logs), KeyWrites(batch.keys), LogWrites(Orphans(batch.logs, batch.executions));
    hide *;
    IsolationParts(batch);
    LogsOfRowWrites(batch.executions, batch.logs, id);
    KeyWritesHaveNoLogs(batch.keys);
    LogWritesHaveTheLogs(Orphans(batch.logs, batch.executions));
    LogsInConcat(rows, keyed);
    LogsInConcat(rows + keyed, single);
    assert LogsIn(rows) + [] == LogsIn(rows);
    LogsOfConcat(LogsIn(rows), LogsIn(single), id);
    LogsOfOrphans(batch.logs, batch.executions, id);
  }

  /** How often a log occurs can be counted among the logs of its own execution. */
  lemma {:induction false} CountByExecution(s: seq<Log>, l: Log)
    ensures multiset(s)[l] == multiset(LogsOf(s, l.executionId))[l]
  {
    if s != [] {
      assert s == [s[0]] + s[1..];
      CountByExecution(s[1..], l);
    }
  }

  lemma SameLogs(a: seq<Log>, b: seq<Log>)
    requires forall id :: LogsOf(a, id) == LogsOf(b, id)
    ensures multiset(a) == multiset(b)
  {
    forall l
      ensures multiset(a)[l] == multiset(b)[l]
    {
      CountByExecution(a, l);
      CountByExecution(b, l);
    }
  }

  function KeysIn(writes: seq<Batch>): seq<KeyRecord> {
    if writes == [] then [] else KeysIn(writes[..|writes| - 1]) + writes[|writes| - 1].keys
  }

  lemma {:induction false} KeysInConcat(a: seq<Batch>, b: seq<Batch>)
    ensures KeysIn(a + b) == KeysIn(a) + KeysIn(b)
  {
    if b == [] {
      assert a + b == a;
    } else {
      assert (a + b)[..|a + b| - 1] == a + b[..|b| - 1];
      KeysInConcat(a, b[..|b| - 1]);
    }
  }

  lemma {:induction false} NoKeys(writes: seq<Batch>)
    requires forall i :: 0 <= i < |writes| ==> writes[i].keys == []
    ensures KeysIn(writes) == []
  {
    if writes != [] {
      NoKeys(writes[..|writes| - 1]);
    }
  }

  lemma {:induction false} KeyWritesHaveTheKeys(rs: seq<KeyRecord>)
    ensures KeysIn(KeyWrites(rs)) == rs
  {
    if rs != [] {
      KeyWritesHaveTheKeys(rs[..|rs| - 1]);
      assert KeyWrites(rs)[..|rs| - 1] == KeyWrites(rs[..|rs| - 1]);
    }
  }

  lemma IsolationKeys(batch: Batch)
    ensures KeysIn(IsolationWrites(batch)) == batch.keys
  {
    var rows, keyed, single :=
      RowWrites(batch.executions, batch.logs), KeyWrites(batch.keys), LogWrites(Orphans(batch.logs, batch.executions));
    IsolationParts(batch);
    NoKeys(rows);
    NoKeys(single);
    KeyWritesHaveTheKeys(batch.keys);
    hide *;
    KeysInConcat(rows, keyed);
    KeysInConcat(rows + keyed, single);
  }

  /** The isolation pass attempts every execution, key and log of the batch exactly once. */
  lemma IsolationAttemptsEachRecordOnce(batch: Batch)
    requires DistinctIds(batch.executions)
    ensures ExecutionsIn(IsolationWrites(batch)) == batch.executions
    ensures KeysIn(IsolationWrites(batch)) == batch.keys
    ensures multiset(LogsIn(IsolationWrites(batch))) == multiset(batch.logs)
  {
    hide *;
    IsolationExecutions(batch);
    IsolationKeys(batch);
    forall id
      ensures LogsOf(LogsIn(IsolationWrites(batch)), id) == LogsOf(batch.logs, id)
    {
      IsolationKeepsLogs(batch, id);
    }
    SameLogs(LogsIn(IsolationWrites(batch)), batch.logs);
  }

  lemma {:induction false} ChosenLogs(writes: seq<Batch>, outcomes: seq<bool>)
    requires |writes| == |outcomes|
    ensures
      multiset(LogsIn(Chosen(writes, outcomes, true))) + multiset(LogsIn(Chosen(writes, outcomes, false))) ==
      multiset(LogsIn(writes))
  {
    if writes != [] {
      var n := |writes| - 1;
      ChosenLogs(writes[..n], outcomes[..n]);
      LogsInAppend(Chosen(writes[..n], outcomes[..n], outcomes[n]), writes[n]);
    }
  }

  lemma LogsInAppend(writes: seq<Batch>, last: Batch)
    ensures LogsIn(writes + [last]) == LogsIn(writes) + last.logs
  {
    assert (writes + [last])[..|writes|] == writes;
  }

  lemma {:induction false} ChosenWithin(writes: seq<Batch>, outcomes: seq<bool>)
    requires |writes| == |outcomes|
    ensures Within(LogsIn(Chosen(writes, outcomes, true)), LogsIn(writes))
  {
    if writes != [] {
      var n := |writes| - 1;
      var kept := Chosen(writes[..n], outcomes[..n], true);
      ChosenWithin(writes[..n], outcomes[..n]);
      LogsInAppend(kept, writes[n]);
      WithinSelf(writes[n].logs);
      NothingWithin(writes[n].logs);
      WithinConcat(LogsIn(kept), LogsIn(writes[..n]), if outcomes[n] then writes[n].logs else [], writes[n].logs);
      assert LogsIn(kept) + [] == LogsIn(kept);
    }
  }

  // ---- every accepted log is in one place, in order ----

  /** Written, in flight and waiting, in that order. */
  function Line(w: World): seq<Log> {
    w.logTable + FlyingLogs(w) + w.buffer.logs
  }

  ghost predicate LogsAccounted(w: World) {
    multiset(Line(w)) + multiset(w.lost) == multiset(w.accepted)
  }

  ghost predicate LogsInOrder(w: World) {
    forall id :: Within(LogsOf(Line(w), id), LogsOf(w.accepted, id))
  }

  ghost predicate WellFormed(w: World) {
    w.buffer.Valid() && (w.flushing.Some? ==> DistinctIds(w.flushing.value.executions))
  }

  ghost predicate LogInv(w: World) {
    WellFormed(w) && LogsAccounted(w) && LogsInOrder(w)
  }

  lemma StepKeepsForm(w: World, e: Step, max: nat)
    requires WellFormed(w) && Enabled(w, e)
    ensures WellFormed(Apply(w, e, max))
  {
  }

  /** A step whose new line leaves logs out of the old one keeps their order. */
  lemma ShorterLine(w: World, t: World)
    requires LogsInOrder(w) && t.accepted == w.accepted && forall id :: Within(LogsOf(Line(t), id), LogsOf(Line(w), id))
    ensures LogsInOrder(t)
  {
    forall id
      ensures Within(LogsOf(Line(t), id), LogsOf(t.accepted, id))
    {
      WithinTrans(LogsOf(Line(t), id), LogsOf(Line(w), id), LogsOf(w.accepted, id));
    }
  }

  /** The line and the accepted logs grow by the same log. */
  lemma LongerLine(w: World, t: World, log: Log)
    requires LogsInOrder(w) && Line(t) == Line(w) + [log] && t.accepted == w.accepted + [log]
    ensures LogsInOrder(t)
  {
    forall id
      ensures Within(LogsOf(Line(t), id), LogsOf(t.accepted, id))
    {
      assert Within(LogsOf(Line(w), id), LogsOf(w.accepted, id));
      hide *;
      LogsOfConcat(Line(w), [log], id);
      LogsOfConcat(w.accepted, [log], id);
      WithinSelf(LogsOf([log], id));
      WithinConcat(LogsOf(Line(w), id), LogsOf(w.accepted, id), LogsOf([log], id), LogsOf([log], id));
    }
  }

  lemma AppendKeepsLogs(w: World, log: Log, max: nat)
    requires LogInv(w)
    ensures LogsAccounted(Appended(w, log, max)) && LogsInOrder(Appended(w, log, max))
  {
    var t := Appended(w, log, max);
    if t != w {
      assert LogsInOrder(w) && LogsAccounted(w);
      assert Line(t) == Line(w) + [log] && t.accepted == w.accepted + [log] && t.lost == w.lost;
      hide *;
      AppendAccounts(w, t, log);
      LongerLine(w, t, log);
    }
  }

  lemma AppendAccounts(w: World, t: World, log: Log)
    requires LogsAccounted(w) && Line(t) == Line(w) + [log] && t.accepted == w.accepted + [log] && t.lost == w.lost
    ensures LogsAccounted(t)
  {
    hide Line;
  }

  /** Leaving out some of the logs in the middle of the line leaves an execution's other logs as they were. */
  lemma ThinMiddle(a: seq<Log>, b: seq<Log>, b': seq<Log>, c: seq<Log>, id: Id)
    requires Within(LogsOf(b', id), LogsOf(b, id))
    ensures Within(LogsOf(a + b' + c, id), LogsOf(a + b + c, id))
  {
    hide *;
    LogsOfConcat(a, b, id);
    LogsOfConcat(a, b', id);
    LogsOfConcat(a + b, c, id);
    LogsOfConcat(a + b', c, id);
    WithinSelf(LogsOf(a, id));
    WithinSelf(LogsOf(c, id));
    WithinConcat(LogsOf(a, id), LogsOf(a, id), LogsOf(b', id), LogsOf(b, id));
    WithinConcat(LogsOf(a, id) + LogsOf(b', id), LogsOf(a, id) + LogsOf(b, id), LogsOf(c, id), LogsOf(c, id));
  }

  lemma {:induction false} SuffixWithin(s: seq<Log>, n: nat)
    requires n <= |s|
    ensures Within(s[n..], s)
  {
    if n == |s| {
      NothingWithin(s);
    } else {
      var front := s[..|s| - 1];
      SuffixWithin(front, n);
      assert s[n..][..|s| - n - 1] == front[n..];
    }
  }

  lemma RequeueLine(w: World, max: nat)
    requires w.flushing.Some?
    ensures
      var t, n := Requeued(w, max), LogsGivenUp(w.buffer, max, w.flushing.value);
      && Line(t) == w.logTable + w.flushing.value.logs[n..] + w.buffer.logs
      && t.accepted == w.accepted
      && t.lost == w.lost + w.flushing.value.logs[..n]
  {
    var batch, n := w.flushing.value, LogsGivenUp(w.buffer, max, w.flushing.value);
    hide PutBackExecutions, PutBackKeys, Rejoin, LogsGivenUp;
    assert w.logTable + [] + (batch.logs[n..] + w.buffer.logs) == w.logTable + batch.logs[n..] + w.buffer.logs;
  }

  /** What leaves the middle of the line is lost. */
  lemma MovedToLost(w: World, t: World, a: seq<Log>, b: seq<Log>, kept: seq<Log>, gone: seq<Log>, c: seq<Log>)
    requires LogsAccounted(w) && Line(w) == a + b + c && Line(t) == a + kept + c
    requires t.accepted == w.accepted && t.lost == w.lost + gone && multiset(b) == multiset(kept) + multiset(gone)
    ensures LogsAccounted(t)
  {
    hide Line;
  }

  lemma RequeueKeepsLogs(w: World, max: nat)
    requires LogInv(w) && w.flushing.Some?
    ensures LogsAccounted(Requeued(w, max)) && LogsInOrder(Requeued(w, max))
  {
    var batch, n, t := w.flushing.value, LogsGivenUp(w.buffer, max, w.flushing.value), Requeued(w, max);
    RequeueLine(w, max);
    assert Line(w) == w.logTable + batch.logs + w.buffer.logs;
    hide *;
    forall id
      ensures Within(LogsOf(Line(t), id), LogsOf(Line(w), id))
    {
      SuffixWithin(batch.logs, n);
      LogsOfWithin(batch.logs[n..], batch.logs, id);
      ThinMiddle(w.logTable, batch.logs, batch.logs[n..], w.buffer.logs, id);
    }
    assert LogsInOrder(w) by {
      LogInvParts(w);
    }
    assert LogsAccounted(w) by {
      LogInvParts(w);
    }
    assert batch.logs == batch.logs[..n] + batch.logs[n..];
    MovedToLost(w, t, w.logTable, batch.logs, batch.logs[n..], batch.logs[..n], w.buffer.logs);
    ShorterLine(w, t);
  }

  lemma LogInvParts(w: World)
    requires LogInv(w)
    ensures LogsInOrder(w) && LogsAccounted(w)
  {
  }

  lemma IsolationLine(w: World, outcomes: seq<bool>)
    requires WellFormed(w) && Enabled(w, WriteRejected(outcomes))
    ensures
      var batch, t := w.flushing.value, Isolated(w, outcomes);
      && Line(t) == w.logTable + LogsIn(Chosen(IsolationWrites(batch), outcomes, true)) + w.buffer.logs
      && t.accepted == w.accepted
      && t.lost == w.lost + LogsIn(Chosen(IsolationWrites(batch), outcomes, false))
  {
    hide LogsIn, ExecutionsIn, Chosen, IsolationWrites, WriteRows, Settle;
    var kept := LogsIn(Chosen(IsolationWrites(w.flushing.value), outcomes, true));
    assert w.logTable + kept + [] + w.buffer.logs == w.logTable + kept + w.buffer.logs;
  }

  lemma IsolationKeepsInv(w: World, outcomes: seq<bool>)
    requires LogInv(w) && Enabled(w, WriteRejected(outcomes))
    ensures
      var t := Isolated(w, outcomes);
      LogsAccounted(t) && LogsInOrder(t)
  {
    var batch, t := w.flushing.value, Isolated(w, outcomes);
    var writes := IsolationWrites(batch);
    var kept := LogsIn(Chosen(writes, outcomes, true));
    IsolationLine(w, outcomes);
    ChosenLogs(writes, outcomes);
    IsolationAttemptsEachRecordOnce(batch);
    assert Line(w) == w.logTable + batch.logs + w.buffer.logs;
    assert LogsInOrder(w) && LogsAccounted(w);
    hide *;
    forall id
      ensures Within(LogsOf(Line(t), id), LogsOf(Line(w), id))
    {
      ChosenWithin(writes, outcomes);
      LogsOfWithin(kept, LogsIn(writes), id);
      IsolationKeepsLogs(batch, id);
      ThinMiddle(w.logTable, batch.logs, kept, w.buffer.logs, id);
    }
    MovedToLost(w, t, w.logTable, batch.logs, kept, LogsIn(Chosen(writes, outcomes, false)), w.buffer.logs);
    ShorterLine(w, t);
  }

  /** Recording rows and keys, taking a batch, writing it and closing leave every log in the line. */
  lemma QuietLine(w: World, e: Step, max: nat)
    requires Enabled(w, e) && !e.Append? && !e.WriteFailsForNow? && !e.WriteRejected?
    ensures
      var t := Apply(w, e, max);
      Line(t) == Line(w) && t.lost == w.lost && t.accepted == w.accepted
  {
    hide WriteRows, Settle, PutBackExecutions, PutBackKeys;
    var t := Apply(w, e, max);
    assert w.logTable + FlyingLogs(w) + w.buffer.logs == t.logTable + FlyingLogs(t) + t.buffer.logs;
  }

  lemma SameLine(w: World, t: World)
    requires LogsAccounted(w) && LogsInOrder(w) && Line(t) == Line(w) && t.lost == w.lost && t.accepted == w.accepted
    ensures LogsAccounted(t) && LogsInOrder(t)
  {
    hide Within, LogsOf, Line;
  }

  lemma StepKeepsLogs(w: World, e: Step, max: nat)
    requires LogInv(w) && Enabled(w, e)
    ensures LogInv(Apply(w, e, max))
  {
    StepKeepsForm(w, e, max);
    LogInvParts(w);
    hide WellFormed, LogsAccounted, LogsInOrder, Recorded, Appended, Taken, Stored, Requeued, Isolated, Line;
    match e
    case Append(log) => AppendKeepsLogs(w, log, max);
    case WriteFailsForNow => RequeueKeepsLogs(w, max);
    case WriteRejected(outcomes) => IsolationKeepsInv(w, outcomes);
    case _ =>
      QuietLine(w, e, max);
      SameLine(w, Apply(w, e, max));
  }

  lemma {:induction false} RunKeepsLogs(w: World, steps: seq<Step>, max: nat)
    requires LogInv(w) && Runs(w, steps, max)
    ensures LogInv(After(w, steps, max))
    decreases |steps|
  {
    if steps != [] {
      StepKeepsLogs(w, steps[0], max);
      RunKeepsLogs(Apply(w, steps[0], max), steps[1..], max);
    }
  }

  /**
   * At every moment each accepted log is in exactly one place: written, in flight, waiting, or lost; and for one
   * execution the first three keep the order in which its logs were accepted.
   */
  lemma LogsAreConserved(steps: seq<Step>, max: nat, id: Id)
    requires Runs(INITIAL, steps, max)
    ensures
      var w := After(INITIAL, steps, max);
      && multiset(w.logTable) + multiset(FlyingLogs(w)) + multiset(w.buffer.logs) + multiset(w.lost) ==
        multiset(w.accepted)
      && Within(LogsOf(w.logTable + FlyingLogs(w) + w.buffer.logs, id), LogsOf(w.accepted, id))
  {
    NothingYet();
    hide Apply, Enabled, Runs, After, Within, LogsOf, LogsAccounted;
    RunKeepsLogs(INITIAL, steps, max);
    assert LogsAccounted(After(INITIAL, steps, max));
    LineCounts(After(INITIAL, steps, max));
  }

  lemma NothingYet()
    ensures LogInv(INITIAL)
  {
  }

  lemma LineCounts(w: World)
    requires LogsAccounted(w)
    ensures multiset(w.logTable) + multiset(FlyingLogs(w)) + multiset(w.buffer.logs) + multiset(w.lost) ==
            multiset(w.accepted)
  {
  }

  /** The room a requeue finds for the batch's logs. */
  function RoomFor(w: World, max: nat): nat
    requires w.flushing.Some?
  {
    MaxInt(0, max - w.buffer.(executions := PutBackExecutions(w.buffer.executions, w.flushing.value.executions)).Size())
  }

  /**
   * Logs are lost exactly when a requeue has some room but not enough, or an isolated write that carries logs fails.
   */
  lemma LossesOnlyByTrimmingOrIsolation(w: World, e: Step, max: nat)
    requires Enabled(w, e)
    ensures
      Apply(w, e, max).lost != w.lost <==>
      match e
      case WriteFailsForNow => 0 < RoomFor(w, max) < |w.flushing.value.logs|
      case WriteRejected(outcomes) => LogsIn(Chosen(IsolationWrites(w.flushing.value), outcomes, false)) != []
      case _ => false
  {
    var t := Apply(w, e, max);
    assert |t.lost| == |w.lost| <==> t.lost == w.lost by {
      assert e.WriteFailsForNow? || e.WriteRejected? || t.lost == w.lost;
    }
  }
}
