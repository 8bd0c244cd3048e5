/** What the stored row of an execution is after any run of the recorder. */
module RecorderRows {
  import opened Collections
  import opened RowBatching
  import opened Recorder
  import opened RecorderRuns

  /** The object stands for the merge of these updates. */
  ghost predicate Stands(u: Update, us: seq<Update>) {
    us != [] && forall c :: FieldOf(u, c) == FieldOf(MergeAll(us), c)
  }

  lemma StandsAlone(u: Update)
    ensures Stands(u, [u])
  {
  }

  lemma StandsWithNext(u: Update, us: seq<Update>, next: Update)
    requires Stands(u, us)
    ensures Stands(Merged(u, next), us + [next])
  {
    assert MergeAll(us + [next]) == Merged(MergeAll(us), next) by {
      assert (us + [next])[..|us|] == us;
    }
    MergedFields(u, next);
    MergedFields(MergeAll(us), next);
  }

  lemma MergeAllNext(us: seq<Update>, u: Update, c: Column)
    ensures FieldOf(MergeAll(us + [u]), c) == Over(FieldOf(MergeAll(us), c), FieldOf(u, c))
  {
  }

  lemma {:induction false} MergeAllConcat(us: seq<Update>, vs: seq<Update>, c: Column)
    ensures FieldOf(MergeAll(us + vs), c) == Over(FieldOf(MergeAll(us), c), FieldOf(MergeAll(vs), c))
    decreases |vs|
  {
    hide Merged;
    if vs == [] {
      assert us + vs == us && MergeAll(vs) == map[];
    } else {
      hide MergeAll, FieldOf;
      var front, last := vs[..|vs| - 1], vs[|vs| - 1];
      MergeAllConcat(us, front, c);
      MergeAllNext(us + front, last, c);
      MergeAllNext(front, last, c);
      assert us + front + [last] == us + vs && front + [last] == vs;
    }
  }

  lemma StandsConcat(u: Update, us: seq<Update>, v: Update, vs: seq<Update>)
    requires Stands(u, us) && Stands(v, vs)
    ensures Stands(Merged(u, v), us + vs)
  {
    hide MergeAll, Merged, FieldOf;
    MergedFields(u, v);
    forall c
      ensures FieldOf(Merged(u, v), c) == FieldOf(MergeAll(us + vs), c)
    {
      MergeAllConcat(us, vs, c);
    }
  }

  /** The upsert sees only the properties. */
  lemma StandsUpserts(row: Option<Row>, u: Update, us: seq<Update>)
    requires Stands(u, us)
    ensures Upserted(row, u) == Upserted(row, MergeAll(us))
  {
  }

  ghost predicate WaitingAt(w: World, id: Id) {
    match w.buffer.executions.Get(id)
    case None => id !in w.waiting
    case Some(u) => id in w.waiting && Stands(u, w.waiting[id])
  }

  function InFlight(w: World, id: Id): Option<Update> {
    if w.flushing.Some? then UpdateIn(w.flushing.value.executions, id) else None
  }

  ghost predicate FlyingAt(w: World, id: Id) {
    match InFlight(w, id)
    case None => id !in w.flying
    case Some(u) => id in w.flying && Stands(u, w.flying[id])
  }

  ghost predicate RowMatches(w: World, id: Id) {
    NonEmptyGroups(ListAt(w.written, id)) && RowAt(w.rows, id) == RowInBatches(None, ListAt(w.written, id))
  }

  ghost predicate HistoryMatches(w: World, id: Id) {
    id !in w.lostRows ==>
      ListAt(w.history, id) == Flat(ListAt(w.written, id)) + ListAt(w.flying, id) + ListAt(w.waiting, id)
  }

  ghost predicate Placed(w: World, id: Id) {
    WaitingAt(w, id) && FlyingAt(w, id) && RowMatches(w, id) && HistoryMatches(w, id)
  }

  /** Everything the proof needs to know about one execution. */
  ghost predicate RowInv(w: World, id: Id) {
    WellFormed(w) && Placed(w, id)
  }

  lemma RecordWaits(w: World, x: ExecutionUpdate, max: nat, id: Id)
    requires WaitingAt(w, id)
    ensures WaitingAt(Recorded(w, x, max), id)
  {
    hide Stands, Merged;
    if x.id == id {
      var b := w.buffer.executions;
      if id in b.vals {
        StandsWithNext(b.vals[id], w.waiting[id], x.update);
      } else {
        StandsAlone(x.update);
        assert [] + [x.update] == [x.update];
      }
    }
  }

  lemma RecordKeepsRow(w: World, x: ExecutionUpdate, max: nat, id: Id)
    requires RowInv(w, id)
    ensures Placed(Recorded(w, x, max), id)
  {
    RecordWaits(w, x, max, id);
    hide Stands, RowInBatches, WaitingAt, UpdateIn, Flat, WellFormed, WithExecution;
    var t := Recorded(w, x, max);
    if t != w && x.id == id {
      Lengthen(Flat(ListAt(w.written, id)), ListAt(w.flying, id), ListAt(w.waiting, id), x.update);
    }
    hide NonEmptyGroups;
  }

  lemma Lengthen(a: seq<Update>, b: seq<Update>, c: seq<Update>, u: Update)
    ensures a + b + c + [u] == a + b + (c + [u])
  {
  }

  lemma ListHolds(m: InsertionMap<Id, Update>, id: Id)
    requires m.Valid()
    ensures UpdateIn(ExecutionList(m), id) == m.Get(id) && DistinctIds(ExecutionList(m))
  {
    var xs := ExecutionList(m);
    if id in m.vals {
      var i :| 0 <= i < |m.keys| && m.keys[i] == id;
      UpdateInAt(xs, i);
    } else {
      UpdateInHolds(xs, id);
      assert !Holds(xs, id);
    }
  }

  lemma FlushKeepsRow(w: World, id: Id)
    requires RowInv(w, id) && w.flushing == None
    ensures Placed(Taken(w), id)
  {
    ListHolds(w.buffer.executions, id);
  }

  lemma {:induction false} WriteRowsAt(rows: map<Id, Row>, xs: seq<ExecutionUpdate>, id: Id)
    requires DistinctIds(xs)
    ensures
      RowAt(WriteRows(rows, xs), id) ==
      match UpdateIn(xs, id)
      case None => RowAt(rows, id)
      case Some(u) => Some(Upserted(RowAt(rows, id), u))
    decreases |xs|
  {
    if xs != [] {
      WriteRowsAt(rows[xs[0].id := Upserted(RowAt(rows, xs[0].id), xs[0].update)], xs[1..], id);
      if xs[0].id == id {
        UpdateInHolds(xs[1..], id);
        assert !Holds(xs[1..], id);
      }
    }
  }

  /**
   * Writing the rows of `xs`, all of them in flight, moves the updates of one execution into a written group, or leaves
   * it.
   */
  lemma WrittenRow(w: World, xs: seq<ExecutionUpdate>, t: World, id: Id)
    requires RowInv(w, id) && DistinctIds(xs)
    requires UpdateIn(xs, id) == None || UpdateIn(xs, id) == InFlight(w, id)
    requires t.rows == WriteRows(w.rows, xs) && t.written == Settle(w.written, w.flying, xs)
    ensures RowMatches(t, id)
    ensures ListAt(t.written, id) == if UpdateIn(xs, id) == None then ListAt(w.written, id)
                                     else ListAt(w.written, id) + [w.flying[id]]
  {
    WriteRowsAt(w.rows, xs, id);
    UpdateInHolds(xs, id);
    var old' := ListAt(w.written, id);
    if UpdateIn(xs, id).Some? {
      var now := old' + [w.flying[id]];
      assert now[..|old'|] == old';
      StandsUpserts(RowAt(w.rows, id), UpdateIn(xs, id).value, w.flying[id]);
      assert RowInBatches(None, now) == Some(Upserted(RowInBatches(None, old'), MergeAll(w.flying[id])));
    }
  }

  lemma FlatAppend<T>(groups: seq<seq<T>>, g: seq<T>)
    ensures Flat(groups + [g]) == Flat(groups) + g
  {
    assert (groups + [g])[..|groups|] == groups;
  }

  lemma SuccessKeepsRow(w: World, id: Id)
    requires RowInv(w, id) && w.flushing.Some?
    ensures Placed(Stored(w), id)
  {
    hide Stands, RowInBatches, Upserted, WriteRows, Settle, Flat;
    var t := Stored(w);
    WrittenRow(w, w.flushing.value.executions, t, id);
    if id in w.flying {
      FlatAppend(ListAt(w.written, id), w.flying[id]);
    }
  }

  lemma RequeueWaits(w: World, max: nat, id: Id)
    requires RowInv(w, id) && w.flushing.Some?
    ensures WaitingAt(Requeued(w, max), id)
  {
    hide Stands, RowInBatches, Merged, PutBackExecutions, PutBackKeys, LogsGivenUp, UpdateIn, Flat;
    hide HistoryMatches, RowMatches;
    var xs := w.flushing.value.executions;
    PutBackGet(w.buffer.executions, xs, id);
    if id in w.flying && id in w.waiting {
      StandsConcat(UpdateIn(xs, id).value, w.flying[id], w.buffer.executions.vals[id], w.waiting[id]);
    } else if id in w.flying {
      assert w.flying[id] + [] == w.flying[id];
    } else if id in w.waiting {
      assert [] + w.waiting[id] == w.waiting[id];
    }
  }

  lemma RequeueKeepsRow(w: World, max: nat, id: Id)
    requires RowInv(w, id) && w.flushing.Some?
    ensures Placed(Requeued(w, max), id)
  {
    RequeueWaits(w, max, id);
    var t := Requeued(w, max);
    RejoinedList(w.flying, w.waiting, id);
    Regroup(Flat(ListAt(w.written, id)), ListAt(w.flying, id), ListAt(w.waiting, id));
    hide Stands, RowInBatches, WaitingAt, PutBack, LogsGivenUp, UpdateIn, Flat, WellFormed, Rejoin, NonEmptyGroups;
  }

  lemma RejoinedList(flying: map<Id, seq<Update>>, waiting: map<Id, seq<Update>>, id: Id)
    ensures ListAt(Rejoin(flying, waiting), id) == ListAt(flying, id) + ListAt(waiting, id)
  {
  }

  lemma Regroup(a: seq<Update>, b: seq<Update>, c: seq<Update>)
    ensures a + b + c == a + [] + (b + c)
  {
  }

  ghost predicate Among(xs: seq<ExecutionUpdate>, ys: seq<ExecutionUpdate>) {
    forall i :: 0 <= i < |xs| ==> xs[i] in ys
  }

  /** Every execution of the writes is among the kept or the failed ones. */
  lemma {:induction false} ChosenExecutions(writes: seq<Batch>, outcomes: seq<bool>)
    requires |writes| == |outcomes|
    ensures
      var kept, failed := ExecutionsIn(Chosen(writes, outcomes, true)), ExecutionsIn(Chosen(writes, outcomes, false));
      && Among(kept, ExecutionsIn(writes))
      && Among(ExecutionsIn(writes), kept + failed)
  {
    if writes != [] {
      var n := |writes| - 1;
      ChosenExecutions(writes[..n], outcomes[..n]);
      ExecutionsInAppend(Chosen(writes[..n], outcomes[..n], outcomes[n]), writes[n]);
    }
  }

  /** Those kept are still distinct. */
  lemma {:induction false} KeptAreDistinct(writes: seq<Batch>, outcomes: seq<bool>)
    requires |writes| == |outcomes| && DistinctIds(ExecutionsIn(writes))
    ensures DistinctIds(ExecutionsIn(Chosen(writes, outcomes, true)))
  {
    if writes != [] {
      var n := |writes| - 1;
      var front, last := ExecutionsIn(writes[..n]), writes[n].executions;
      var kept := Chosen(writes[..n], outcomes[..n], true);
      assert ExecutionsIn(writes) == front + last;
      ChosenExecutions(writes[..n], outcomes[..n]);
      DistinctParts(front, last);
      KeptAreDistinct(writes[..n], outcomes[..n]);
      ExecutionsInAppend(kept, writes[n]);
      DistinctKept(front, ExecutionsIn(kept), last);
    }
  }

  lemma DistinctParts(front: seq<ExecutionUpdate>, last: seq<ExecutionUpdate>)
    requires DistinctIds(front + last)
    ensures DistinctIds(front) && DistinctIds(last)
  {
    assert forall i :: 0 <= i < |front| ==> (front + last)[i] == front[i];
    assert forall i :: 0 <= i < |last| ==> (front + last)[|front| + i] == last[i];
  }

  lemma DistinctKept(front: seq<ExecutionUpdate>, kept: seq<ExecutionUpdate>, last: seq<ExecutionUpdate>)
    requires DistinctIds(front + last) && DistinctIds(kept) && Among(kept, front)
    ensures DistinctIds(kept + last)
  {
    var all := kept + last;
    forall i, j | 0 <= i < j < |all|
      ensures all[i].id != all[j].id
    {
      if i < |kept| <= j {
        assert kept[i] in front;
        var k :| 0 <= k < |front| && front[k] == kept[i];
        assert (front + last)[k] == kept[i] && (front + last)[|front| + (j - |kept|)] == last[j - |kept|];
      } else if |kept| <= i {
        assert (front + last)[|front| + (i - |kept|)] == last[i - |kept|];
        assert (front + last)[|front| + (j - |kept|)] == last[j - |kept|];
      }
    }
  }

  lemma ExecutionsInAppend(writes: seq<Batch>, last: Batch)
    ensures ExecutionsIn(writes + [last]) == ExecutionsIn(writes) + last.executions
  {
    assert (writes + [last])[..|writes|] == writes;
  }

  lemma UpdateOfMember(xs: seq<ExecutionUpdate>, x: ExecutionUpdate)
    requires DistinctIds(xs) && x in xs
    ensures UpdateIn(xs, x.id) == Some(x.update)
  {
  }

  lemma {:induction false} UpdateComesFromMember(xs: seq<ExecutionUpdate>, id: Id)
    requires UpdateIn(xs, id).Some?
    ensures ExecutionUpdate(id, UpdateIn(xs, id).value) in xs
  {
    if xs[0].id != id {
      UpdateComesFromMember(xs[1..], id);
    }
  }

  lemma IsolationKeepsRow(w: World, outcomes: seq<bool>, id: Id)
    requires RowInv(w, id) && Enabled(w, WriteRejected(outcomes))
    ensures Placed(Isolated(w, outcomes), id)
  {
    hide Stands, RowInBatches, Upserted, WriteRows, Settle, Flat, UpdateIn, LogsIn;
    hide Chosen, ExecutionsIn, IsolationWrites;
    var batch, t := w.flushing.value, Isolated(w, outcomes);
    var writes := IsolationWrites(batch);
    IsolationExecutions(batch);
    ChosenExecutions(writes, outcomes);
    KeptAreDistinct(writes, outcomes);
    var kept := ExecutionsIn(Chosen(writes, outcomes, true));
    if UpdateIn(kept, id).Some? {
      UpdateComesFromMember(kept, id);
      UpdateOfMember(batch.executions, ExecutionUpdate(id, UpdateIn(kept, id).value));
      FlatAppend(ListAt(w.written, id), w.flying[id]);
    } else if InFlight(w, id).Some? {
      UpdateComesFromMember(batch.executions, id);
      var x := ExecutionUpdate(id, InFlight(w, id).value);
      if x in kept {
        UpdateOfMember(kept, x);
      }
      assert id in t.lostRows;
    }
    WrittenRow(w, kept, t, id);
  }

  lemma StepKeepsRow(w: World, e: Step, max: nat, id: Id)
    requires RowInv(w, id) && Enabled(w, e)
    ensures RowInv(Apply(w, e, max), id)
  {
    StepKeepsForm(w, e, max);
    hide Stands, RowInBatches, Upserted, Recorded, Appended, Taken, Stored, Requeued, Isolated, UpdateIn;
    match e
    case RecordRow(x) => RecordKeepsRow(w, x, max, id);
    case Flush => FlushKeepsRow(w, id);
    case WriteSucceeds => SuccessKeepsRow(w, id);
    case WriteFailsForNow => RequeueKeepsRow(w, max, id);
    case WriteRejected(outcomes) => IsolationKeepsRow(w, outcomes, id);
    case _ =>
  }

  lemma {:induction false} RunKeepsRow(w: World, steps: seq<Step>, max: nat, id: Id)
    requires RowInv(w, id) && Runs(w, steps, max)
    ensures RowInv(After(w, steps, max), id)
    decreases |steps|
  {
    if steps != [] {
      StepKeepsRow(w, steps[0], max, id);
      RunKeepsRow(Apply(w, steps[0], max), steps[1..], max, id);
    }
  }

  /** All accepted updates of `id` have been written, and none was given up. */
  ghost predicate Drained(w: World, id: Id) {
    id !in w.lostRows && id !in w.flying && id !in w.waiting && ListAt(w.history, id) != []
  }

  /**
   * However the accepted updates of an execution were merged, flushed, put back under newer ones and flushed again, a
   * steady column of its row ends as if every update had been written on its own.
   */
  lemma StoredRowIsTheHistory(steps: seq<Step>, max: nat, id: Id, c: Column)
    requires Runs(INITIAL, steps, max) && Drained(After(INITIAL, steps, max), id)
    requires
      var us := ListAt(After(INITIAL, steps, max).history, id);
      CountsAttempts(us) && Steady(RuleOf(c), ColumnOf(us, c))
    ensures
      var w := After(INITIAL, steps, max);
      CellOf(RowAt(w.rows, id), c) == CellOf(RowOneByOne(None, ListAt(w.history, id)), c)
  {
    RunKeepsRow(INITIAL, steps, max, id);
    var w := After(INITIAL, steps, max);
    var us, groups := ListAt(w.history, id), ListAt(w.written, id);
    assert us == Flat(groups);
    ColumnAgreesIffSteady(us, c);
  }

  /** For the updates a worker records this holds in every column, but for the exceptions that `HidesBatching` names. */
  lemma StoredWorkerRow(steps: seq<Step>, max: nat, id: Id, x: Execution, reports: seq<Report>, c: Column)
    requires Runs(INITIAL, steps, max) && Drained(After(INITIAL, steps, max), id)
    requires reports != [] && ListAt(After(INITIAL, steps, max).history, id) == UpdatesOf(x, reports) &&
             HidesBatching(reports, c)
    ensures
      CellOf(RowAt(After(INITIAL, steps, max).rows, id), c) == CellOf(RowOneByOne(None, UpdatesOf(x, reports)), c)
  {
    GreatestColumn(x, reports);
    WorkerRowsDoNotDependOnBatching(x, reports, c);
    ColumnAgreesIffSteady(UpdatesOf(x, reports), c);
    StoredRowIsTheHistory(steps, max, id, c);
  }
}
