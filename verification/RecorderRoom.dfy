/** What a recorder turns away, counted in entries (database/execution-recorder.ts). */
module RecorderRoom {
  import opened Collections
  import opened RowBatching
  import opened Recorder
  import opened RecorderRuns

  /** Buffered executions, logs and keys together. */
  function Held(b: Buffer): nat {
    |b.executions.keys| + |b.logs| + |b.keys.keys|
  }

  function InBatch(w: World): nat {
    match w.flushing
    case None => 0
    case Some(batch) => |batch.executions| + |batch.logs| + |batch.keys|
  }

  ghost predicate NeverCloses(steps: seq<Step>) {
    forall i :: 0 <= i < |steps| ==> !steps[i].Close?
  }

  /** The step brings an entry that has no place of its own yet: a log, a key, or a new execution. */
  predicate AsksForPlace(w: World, e: Step) {
    e.Append? || e.RecordKey? || (e.RecordRow? && e.x.id !in w.buffer.executions.keys)
  }

  /** What the entry becomes if it is taken on. */
  ghost predicate TakenOn(w: World, e: Step, t: World) {
    match e
    case Append(log) => t == w.(buffer := w.buffer.(logs := w.buffer.logs + [log]), accepted := w.accepted + [log])
    case RecordKey(r) =>
      && t == w.(buffer := w.buffer.(keys := t.buffer.keys))
      && t.buffer.keys.Get(r.endpointId + "|" + r.key) == Some(r)
      && (forall k :: k != r.endpointId + "|" + r.key ==> t.buffer.keys.Get(k) == w.buffer.keys.Get(k))
    case RecordRow(x) =>
      && t.buffer == w.buffer.(executions := t.buffer.executions) && t.buffer.executions.Get(x.id) == Some(x.update)
      && (forall k :: k != x.id ==> t.buffer.executions.Get(k) == w.buffer.executions.Get(k))
      && ListAt(t.history, x.id) == ListAt(w.history, x.id) + [x.update]
    case _ => false
  }

  lemma {:induction false} StaysOpen(w: World, steps: seq<Step>, max: nat)
    requires Runs(w, steps, max) && NeverCloses(steps) && WellFormed(w)
    ensures After(w, steps, max).closed == w.closed && WellFormed(After(w, steps, max))
    decreases |steps|
  {
    if steps != [] {
      assert !steps[0].Close? && forall i :: 0 <= i < |steps[1..]| ==> steps[1..][i] == steps[i + 1];
      StepStaysOpen(w, steps[0], max);
      hide Apply, Enabled, WellFormed;
      StaysOpen(Apply(w, steps[0], max), steps[1..], max);
    }
  }

  lemma StepStaysOpen(w: World, e: Step, max: nat)
    requires Enabled(w, e) && !e.Close? && WellFormed(w)
    ensures Apply(w, e, max).closed == w.closed && WellFormed(Apply(w, e, max))
  {
    StepKeepsForm(w, e, max);
    hide WellFormed;
  }

  /**
   * In any run of an open recorder: an entry that asks for a place is turned away, and nothing else happens, if and
   * only if there are already `max` entries; otherwise it is taken on.
   */
  lemma TurnedAwayIffFull(steps: seq<Step>, e: Step, max: nat)
    requires Runs(INITIAL, steps, max) && NeverCloses(steps) && AsksForPlace(After(INITIAL, steps, max), e)
    ensures
      var w := After(INITIAL, steps, max);
      && Enabled(w, e)
      && if Held(w.buffer) >= max then Apply(w, e, max) == w else TakenOn(w, e, Apply(w, e, max))
  {
    StaysOpen(INITIAL, steps, max);
    hide Runs, After, Merged;
    var w := After(INITIAL, steps, max);
    assert forall k :: k in w.buffer.executions.keys <==> k in w.buffer.executions.vals;
  }

  lemma {:induction false} StaysClosed(w: World, steps: seq<Step>, max: nat)
    requires Runs(w, steps, max) && w.closed && WellFormed(w)
    ensures After(w, steps, max).closed && WellFormed(After(w, steps, max))
    decreases |steps|
  {
    if steps != [] {
      StepStaysClosed(w, steps[0], max);
      hide Apply, Enabled, WellFormed;
      StaysClosed(Apply(w, steps[0], max), steps[1..], max);
    }
  }

  lemma StepStaysClosed(w: World, e: Step, max: nat)
    requires Enabled(w, e) && w.closed && WellFormed(w)
    ensures Apply(w, e, max).closed && WellFormed(Apply(w, e, max))
  {
    StepKeepsForm(w, e, max);
    hide WellFormed;
  }

  /** Once closed, a recorder takes nothing on that asks for a place. */
  lemma ClosedTurnsAllAway(before: seq<Step>, later: seq<Step>, e: Step, max: nat)
    requires Runs(INITIAL, before, max)
    requires
      var closed := Apply(After(INITIAL, before, max), Close, max);
      Runs(closed, later, max) && AsksForPlace(After(closed, later, max), e)
    ensures
      var w := After(Apply(After(INITIAL, before, max), Close, max), later, max);
      Enabled(w, e) && Apply(w, e, max) == w
  {
    RunKeepsForm(INITIAL, before, max);
    var w := After(INITIAL, before, max);
    assert WellFormed(Apply(w, Close, max));
    StaysClosed(Apply(w, Close, max), later, max);
    var t := After(Apply(w, Close, max), later, max);
    assert forall k :: k in t.buffer.executions.keys <==> k in t.buffer.executions.vals;
    hide Runs, After, Merged;
  }

  lemma {:induction false} RunKeepsForm(w: World, steps: seq<Step>, max: nat)
    requires Runs(w, steps, max) && WellFormed(w)
    ensures WellFormed(After(w, steps, max))
    decreases |steps|
  {
    if steps != [] {
      StepKeepsForm(w, steps[0], max);
      hide Apply, Enabled, WellFormed;
      RunKeepsForm(Apply(w, steps[0], max), steps[1..], max);
    }
  }

  /** So it is for the buffer alone, open or closed; an update of a buffered execution is always taken on. */
  lemma BufferTurnsAwayIffFull(b: Buffer, closed: bool, max: nat, x: ExecutionUpdate, log: Log, r: KeyRecord)
    requires b.Valid()
    ensures
      var full := closed || Held(b) >= max;
      && WithLog(b, closed, max, log) == (if full then b else b.(logs := b.logs + [log]))
      && WithKey(b, closed, max, r) ==
         (if full then b else b.(keys := b.keys.Put(r.endpointId + "|" + r.key, r)))
      && WithExecution(b, closed, max, x) ==
         (if x.id in b.executions.keys
          then b.(executions := b.executions.Put(x.id, Merged(b.executions.vals[x.id], x.update)))
          else if full then b else b.(executions := b.executions.Put(x.id, x.update)))
  {
  }

  // ---- a run that never has more than `max` entries ----

  predicate IsEntry(e: Step) {
    e.Append? || e.RecordKey? || e.RecordRow?
  }

  function Entries(steps: seq<Step>): nat {
    if steps == [] then 0 else (if IsEntry(steps[0]) then 1 else 0) + Entries(steps[1..])
  }

  function LogsAppended(steps: seq<Step>): seq<Log> {
    if steps == [] then [] else (if steps[0].Append? then [steps[0].log] else []) + LogsAppended(steps[1..])
  }

  function UpdatesRecorded(steps: seq<Step>, id: Id): seq<Update> {
    if steps == [] then []
    else
      (if steps[0].RecordRow? && steps[0].x.id == id then [steps[0].x.update] else [])
      + UpdatesRecorded(steps[1..], id)
  }

  lemma {:induction false} PutBackAddsAtMost(m: InsertionMap<Id, Update>, xs: seq<ExecutionUpdate>)
    ensures |PutBackExecutions(m, xs).keys| <= |m.keys| + |xs|
    decreases |xs|
  {
    if xs != [] {
      hide Merged;
      PutBackAddsAtMost(PutBackExecution(m, xs[0]), xs[1..]);
    }
  }

  lemma {:induction false} PutBackKeysAddAtMost(m: InsertionMap<string, KeyRecord>, rs: seq<KeyRecord>)
    ensures |PutBackKeys(m, rs).keys| <= |m.keys| + |rs|
    decreases |rs|
  {
    if rs != [] {
      hide KeyOf;
      PutBackKeysAddAtMost(if KeyOf(rs[0]) in m.vals then m else m.Put(KeyOf(rs[0]), rs[0]), rs[1..]);
    }
  }

  /** With room for everything, a requeue gives nothing up. */
  lemma RequeueKeepsAll(w: World, max: nat)
    requires w.flushing.Some? && Held(w.buffer) + InBatch(w) <= max
    ensures
      var t := Requeued(w, max);
      && t.lost == w.lost && t.flushing == None && Held(t.buffer) <= Held(w.buffer) + InBatch(w)
  {
    var batch := w.flushing.value;
    PutBackAddsAtMost(w.buffer.executions, batch.executions);
    PutBackKeysAddAtMost(w.buffer.keys, batch.keys);
    hide PutBackExecutions, PutBackKeys, Rejoin;
    assert LogsGivenUp(w.buffer, max, batch) == 0;
  }

  ghost predicate NeverRejects(steps: seq<Step>) {
    forall i :: 0 <= i < |steps| ==> !steps[i].WriteRejected?
  }

  lemma SomeAndRest(steps: seq<Step>)
    requires steps != []
    ensures NeverCloses(steps) ==> !steps[0].Close? && NeverCloses(steps[1..])
    ensures NeverRejects(steps) ==> NeverRejects([steps[0]]) && NeverRejects(steps[1..])
  {
  }

  lemma FirstAndRest(steps: seq<Step>, id: Id)
    requires steps != []
    ensures Entries(steps) == Entries([steps[0]]) + Entries(steps[1..])
    ensures LogsAppended(steps) == LogsAppended([steps[0]]) + LogsAppended(steps[1..])
    ensures UpdatesRecorded(steps, id) == UpdatesRecorded([steps[0]], id) + UpdatesRecorded(steps[1..], id)
  {
    assert [steps[0]][1..] == [];
    assert LogsAppended([steps[0]]) == if steps[0].Append? then [steps[0].log] else [];
    assert UpdatesRecorded([steps[0]], id) ==
           if steps[0].RecordRow? && steps[0].x.id == id then [steps[0].x.update] else [];
  }

  /** `t` follows `w` after `steps` as if all that they record had been taken on. */
  ghost predicate TookAll(w: World, steps: seq<Step>, t: World, id: Id) {
    && t.accepted == w.accepted + LogsAppended(steps)
    && ListAt(t.history, id) == ListAt(w.history, id) + UpdatesRecorded(steps, id)
    && (NeverRejects(steps) ==> t.lost == w.lost)
  }

  /** One step, with room for everything there is and for what it brings. */
  lemma StepKeepsRoom(w: World, e: Step, max: nat)
    requires Enabled(w, e) && WellFormed(w) && !w.closed && !e.Close?
    requires Held(w.buffer) + InBatch(w) + Entries([e]) <= max
    ensures
      var t := Apply(w, e, max);
      Held(t.buffer) + InBatch(t) <= Held(w.buffer) + InBatch(w) + Entries([e])
  {
    hide Chosen, IsolationWrites, WriteRows, Settle, LogsIn, ExecutionsIn, Merged, PutBack, LogsGivenUp, Rejoin, KeyOf;
    if e.WriteFailsForNow? {
      RequeueKeepsAll(w, max);
    }
    assert [e][1..] == [];
  }

  lemma OneStep(e: Step, id: Id)
    ensures Entries([e]) == if IsEntry(e) then 1 else 0
    ensures LogsAppended([e]) == if e.Append? then [e.log] else []
    ensures UpdatesRecorded([e], id) == if e.RecordRow? && e.x.id == id then [e.x.update] else []
    ensures NeverRejects([e]) ==> !e.WriteRejected?
  {
    assert [e][1..] == [] && (NeverRejects([e]) ==> ![e][0].WriteRejected?);
  }

  lemma StepTakesAll(w: World, e: Step, max: nat, id: Id)
    requires Enabled(w, e) && WellFormed(w) && !w.closed && !e.Close?
    requires Held(w.buffer) + InBatch(w) + Entries([e]) <= max
    ensures TookAll(w, [e], Apply(w, e, max), id)
  {
    OneStep(e, id);
    assert w.accepted + [] == w.accepted && ListAt(w.history, id) + [] == ListAt(w.history, id);
    hide Chosen, IsolationWrites, WriteRows, Settle, LogsIn, ExecutionsIn, Merged, PutBack, LogsGivenUp, Rejoin, KeyOf;
    hide Entries, LogsAppended, UpdatesRecorded, NeverRejects;
    if e.WriteFailsForNow? {
      RequeueKeepsAll(w, max);
    }
  }

  lemma TookFirstAndRest(w: World, steps: seq<Step>, s: World, t: World, id: Id)
    requires steps != [] && TookAll(w, [steps[0]], s, id) && TookAll(s, steps[1..], t, id)
    ensures TookAll(w, steps, t, id)
  {
    FirstAndRest(steps, id);
    SomeAndRest(steps);
    hide LogsAppended, UpdatesRecorded, ListAt, NeverRejects;
  }

  lemma {:induction false} RunWithRoom(w: World, steps: seq<Step>, max: nat, id: Id)
    requires Runs(w, steps, max) && NeverCloses(steps) && WellFormed(w) && !w.closed
    requires Held(w.buffer) + InBatch(w) + Entries(steps) <= max
    ensures TookAll(w, steps, After(w, steps, max), id)
    decreases |steps|
  {
    hide Apply, Enabled, WellFormed, Held, InBatch, Entries, NeverCloses;
    if steps == [] {
      assert w.accepted + [] == w.accepted && ListAt(w.history, id) + [] == ListAt(w.history, id);
    } else {
      FirstAndRest(steps, id);
      SomeAndRest(steps);
      hide LogsAppended, UpdatesRecorded, ListAt, TookAll;
      StepKeepsRoom(w, steps[0], max);
      StepTakesAll(w, steps[0], max, id);
      StepStaysOpen(w, steps[0], max);
      RunWithRoom(Apply(w, steps[0], max), steps[1..], max, id);
      TookFirstAndRest(w, steps, Apply(w, steps[0], max), After(w, steps, max), id);
    }
  }

  /**
   * A run that records at most `max` entries turns nothing away: every log and every update is accepted, in order, and
   * no log is lost unless the database rejects a batch.
   */
  lemma NothingIsTurnedAway(steps: seq<Step>, max: nat, id: Id)
    requires Runs(INITIAL, steps, max) && NeverCloses(steps) && Entries(steps) <= max
    ensures
      var w := After(INITIAL, steps, max);
      && w.accepted == LogsAppended(steps) && ListAt(w.history, id) == UpdatesRecorded(steps, id)
      && (NeverRejects(steps) ==> w.lost == [])
  {
    RunWithRoom(INITIAL, steps, max, id);
  }
}
