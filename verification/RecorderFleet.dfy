/** Several worker processes, each with a recorder of its own, over one table (worker.ts, execution-recorder.ts). */
module RecorderFleet {
  import opened Collections
  import opened RowBatching
  import opened Recorder
  import opened RecorderRuns
  import opened RecorderRows

  type WorkerId = string

  /**
   * What a recorder buffers and writes does not depend on what the table holds, so that the world of each recorder is
   * the one it would have with a table to itself. The shared table, and who wrote what to it, come beside them.
   */
  datatype Fleet = Fleet(
    recorders: map<WorkerId, World>,
    rows: map<Id, Row>,
    logTable: seq<(WorkerId, Log)>,
    written: map<Id, seq<(WorkerId, seq<Update>)>>,   // in the order of the writes
    history: map<Id, seq<(WorkerId, Update)>>)        // in the order of the calls

  const NOBODY := Fleet(map[], map[], [], map[], map[])

  function RecorderAt(f: Fleet, k: WorkerId): World {
    if k in f.recorders then f.recorders[k] else INITIAL
  }

  function Accepts(w: World, x: ExecutionUpdate, max: nat): bool {
    x.id in w.buffer.executions.vals || !Full(w.buffer, w.closed, max)
  }

  /** The row updates that a step writes to the table. */
  function WrittenBy(w: World, e: Step): seq<ExecutionUpdate> {
    if e.WriteSucceeds? && w.flushing.Some? then w.flushing.value.executions
    else if e.WriteRejected? && w.flushing.Some? && |e.outcomes| == |IsolationWrites(w.flushing.value)| then
      ExecutionsIn(Chosen(IsolationWrites(w.flushing.value), e.outcomes, true))
    else []
  }

  function LogsWrittenBy(w: World, e: Step): seq<Log> {
    if e.WriteSucceeds? && w.flushing.Some? then w.flushing.value.logs
    else if e.WriteRejected? && w.flushing.Some? && |e.outcomes| == |IsolationWrites(w.flushing.value)| then
      LogsIn(Chosen(IsolationWrites(w.flushing.value), e.outcomes, true))
    else []
  }

  function Tagged<T>(k: WorkerId, xs: seq<T>): seq<(WorkerId, T)> {
    if xs == [] then [] else Tagged(k, xs[..|xs| - 1]) + [(k, xs[|xs| - 1])]
  }

  /** The update groups of `id` that a step writes: one, or none. */
  function GroupBy(w: World, e: Step, id: Id): seq<seq<Update>> {
    if id in w.flying && Holds(WrittenBy(w, e), id) then [w.flying[id]] else []
  }

  function Committed(f: Fleet, k: WorkerId, e: Step): map<Id, seq<(WorkerId, seq<Update>)>> {
    var w := RecorderAt(f, k);
    map id | id in f.written.Keys + w.flying.Keys :: ListAt(f.written, id) + Tagged(k, GroupBy(w, e, id))
  }

  function Called(f: Fleet, k: WorkerId, e: Step, max: nat): map<Id, seq<(WorkerId, Update)>> {
    if e.RecordRow? && Accepts(RecorderAt(f, k), e.x, max)
    then f.history[e.x.id := ListAt(f.history, e.x.id) + [(k, e.x.update)]]
    else f.history
  }

  /** One recorder takes a step. */
  datatype Move = Move(worker: WorkerId, e: Step)

  ghost predicate CanMove(f: Fleet, m: Move) {
    Enabled(RecorderAt(f, m.worker), m.e)
  }

  ghost function Moved(f: Fleet, m: Move, max: nat): Fleet
    requires CanMove(f, m)
  {
    var w := RecorderAt(f, m.worker);
    Fleet(f.recorders[m.worker := Apply(w, m.e, max)],
          WriteRows(f.rows, WrittenBy(w, m.e)),
          f.logTable + Tagged(m.worker, LogsWrittenBy(w, m.e)),
          Committed(f, m.worker, m.e),
          Called(f, m.worker, m.e, max))
  }

  ghost predicate FleetRuns(f: Fleet, moves: seq<Move>, max: nat)
    decreases |moves|
  {
    moves == [] || (CanMove(f, moves[0]) && FleetRuns(Moved(f, moves[0], max), moves[1..], max))
  }

  ghost function AfterMoves(f: Fleet, moves: seq<Move>, max: nat): Fleet
    requires FleetRuns(f, moves, max)
    decreases |moves|
  {
    if moves == [] then f else AfterMoves(Moved(f, moves[0], max), moves[1..], max)
  }

  // ---- who wrote what ----

  /** What `k` contributed. */
  function Own<T>(xs: seq<(WorkerId, T)>, k: WorkerId): seq<T> {
    if xs == [] then []
    else Own(xs[..|xs| - 1], k) + if xs[|xs| - 1].0 == k then [xs[|xs| - 1].1] else []
  }

  /** Everybody's contributions. */
  function All<T>(xs: seq<(WorkerId, T)>): seq<T> {
    if xs == [] then [] else All(xs[..|xs| - 1]) + [xs[|xs| - 1].1]
  }

  lemma {:induction false} OwnConcat<T>(xs: seq<(WorkerId, T)>, ys: seq<(WorkerId, T)>, k: WorkerId)
    ensures Own(xs + ys, k) == Own(xs, k) + Own(ys, k) && All(xs + ys) == All(xs) + All(ys)
    decreases |ys|
  {
    if ys == [] {
      assert xs + ys == xs;
    } else {
      assert (xs + ys)[..|xs + ys| - 1] == xs + ys[..|ys| - 1];
      OwnConcat(xs, ys[..|ys| - 1], k);
    }
  }

  lemma {:induction false} OwnTagged<T>(j: WorkerId, xs: seq<T>, k: WorkerId)
    ensures Own(Tagged(j, xs), k) == (if j == k then xs else []) && All(Tagged(j, xs)) == xs
  {
    if xs != [] {
      OwnTagged(j, xs[..|xs| - 1], k);
      assert Tagged(j, xs)[..|Tagged(j, xs)| - 1] == Tagged(j, xs[..|xs| - 1]);
    }
  }

  /** The updates of `id` that a step takes on. */
  function TakenOnBy(w: World, e: Step, max: nat, id: Id): seq<Update> {
    if e.RecordRow? && e.x.id == id && Accepts(w, e.x, max) then [e.x.update] else []
  }

  lemma SettledAt(written: map<Id, seq<seq<Update>>>, flying: map<Id, seq<Update>>, xs: seq<ExecutionUpdate>, id: Id)
    ensures
      ListAt(Settle(written, flying, xs), id) ==
      ListAt(written, id) + if id in flying && Holds(xs, id) then [flying[id]] else []
  {
    hide Holds;
  }

  lemma OwnLogs(w: World, e: Step, max: nat)
    requires Enabled(w, e)
    ensures Apply(w, e, max).logTable == w.logTable + LogsWrittenBy(w, e)
  {
    hide ExecutionsIn, LogsIn, Chosen, IsolationWrites, WriteRows, PutBack, LogsGivenUp, Rejoin, WithExecution, WithKey;
    hide Settle, BatchOf, WithLog;
  }

  lemma OwnGroups(w: World, e: Step, max: nat, id: Id)
    requires Enabled(w, e)
    ensures ListAt(Apply(w, e, max).written, id) == ListAt(w.written, id) + GroupBy(w, e, id)
  {
    SettledAt(w.written, w.flying, WrittenBy(w, e), id);
    assert !Holds([], id);
    hide ExecutionsIn, LogsIn, Chosen, IsolationWrites, WriteRows, PutBack, LogsGivenUp, Rejoin, WithExecution, WithKey;
    hide Settle, Holds, BatchOf, WithLog;
  }

  lemma OwnHistory(w: World, e: Step, max: nat, id: Id)
    requires Enabled(w, e)
    ensures ListAt(Apply(w, e, max).history, id) == ListAt(w.history, id) + TakenOnBy(w, e, max, id)
  {
    hide ExecutionsIn, LogsIn, Chosen, IsolationWrites, WriteRows, PutBack, LogsGivenUp, Rejoin, WithExecution, WithKey;
    hide Settle, BatchOf, WithLog;
  }

  /** What a step adds to the recorder's own account. */
  lemma OwnStep(w: World, e: Step, max: nat, id: Id)
    requires Enabled(w, e)
    ensures
      var t := Apply(w, e, max);
      && t.logTable == w.logTable + LogsWrittenBy(w, e)
      && ListAt(t.written, id) == ListAt(w.written, id) + GroupBy(w, e, id)
      && ListAt(t.history, id) == ListAt(w.history, id) + TakenOnBy(w, e, max, id)
  {
    hide *;
    OwnLogs(w, e, max);
    OwnGroups(w, e, max, id);
    OwnHistory(w, e, max, id);
  }

  /** The rows a step writes are distinct, and were all in flight. */
  lemma WrittenWasInFlight(w: World, e: Step, id: Id)
    requires WellFormed(w) && Enabled(w, e)
    ensures DistinctIds(WrittenBy(w, e))
    ensures UpdateIn(WrittenBy(w, e), id) == None || UpdateIn(WrittenBy(w, e), id) == InFlight(w, id)
  {
    if e.WriteRejected? {
      hide ExecutionsIn, Chosen, IsolationWrites, UpdateIn;
      var batch := w.flushing.value;
      var writes := IsolationWrites(batch);
      IsolationExecutions(batch);
      ChosenExecutions(writes, e.outcomes);
      KeptAreDistinct(writes, e.outcomes);
      if UpdateIn(WrittenBy(w, e), id).Some? {
        UpdateComesFromMember(WrittenBy(w, e), id);
        UpdateOfMember(batch.executions, ExecutionUpdate(id, UpdateIn(WrittenBy(w, e), id).value));
      }
    }
  }

  // ---- the shared row is what was written to it ----

  ghost predicate Account(f: Fleet, k: WorkerId, id: Id) {
    var w := RecorderAt(f, k);
    && RowInv(w, id) && LogInv(w)
    && Own(f.logTable, k) == w.logTable
    && Own(ListAt(f.written, id), k) == ListAt(w.written, id)
    && Own(ListAt(f.history, id), k) == ListAt(w.history, id)
  }

  ghost predicate SharedRow(f: Fleet, id: Id) {
    var groups := All(ListAt(f.written, id));
    NonEmptyGroups(groups) && RowAt(f.rows, id) == RowInBatches(None, groups)
  }

  ghost predicate FleetInv(f: Fleet, id: Id) {
    SharedRow(f, id) && forall k :: Account(f, k, id)
  }

  /** What a move adds to the account of `k`. */
  lemma OwnAfter(f: Fleet, m: Move, max: nat, k: WorkerId, id: Id)
    requires CanMove(f, m)
    ensures
      var w, t, mine := RecorderAt(f, m.worker), Moved(f, m, max), k == m.worker;
      var now := mine && m.e.RecordRow? && m.e.x.id == id && Accepts(w, m.e.x, max);
      && RecorderAt(t, k) == (if mine then Apply(w, m.e, max) else RecorderAt(f, k))
      && Own(t.logTable, k) == Own(f.logTable, k) + (if mine then LogsWrittenBy(w, m.e) else [])
      && Own(ListAt(t.written, id), k) == Own(ListAt(f.written, id), k) + (if mine then GroupBy(w, m.e, id) else [])
      && Own(ListAt(t.history, id), k) == Own(ListAt(f.history, id), k) + (if now then [m.e.x.update] else [])
  {
    hide Apply, Enabled, Own, Tagged, WrittenBy, LogsWrittenBy, GroupBy, Committed, Called, WriteRows;
    var w := RecorderAt(f, m.worker);
    OwnConcat(f.logTable, Tagged(m.worker, LogsWrittenBy(w, m.e)), k);
    OwnTagged(m.worker, LogsWrittenBy(w, m.e), k);
    OwnConcat(ListAt(f.written, id), Tagged(m.worker, GroupBy(w, m.e, id)), k);
    OwnTagged(m.worker, GroupBy(w, m.e, id), k);
    CommittedAt(f, m.worker, m.e, id);
    CalledAt(f, m.worker, m.e, max, id, k);
  }

  lemma MoveKeepsAccount(f: Fleet, m: Move, max: nat, k: WorkerId, id: Id)
    requires CanMove(f, m) && Account(f, k, id)
    ensures Account(Moved(f, m, max), k, id)
  {
    OwnAfter(f, m, max, k, id);
    hide RowInv, LogInv, Apply, Enabled, Own, WrittenBy, LogsWrittenBy, GroupBy, Moved, RecorderAt;
    if k == m.worker {
      OwnStep(RecorderAt(f, k), m.e, max, id);
      StepKeepsRow(RecorderAt(f, k), m.e, max, id);
      StepKeepsLogs(RecorderAt(f, k), m.e, max);
    }
  }

  lemma CommittedAt(f: Fleet, k: WorkerId, e: Step, id: Id)
    ensures ListAt(Committed(f, k, e), id) == ListAt(f.written, id) + Tagged(k, GroupBy(RecorderAt(f, k), e, id))
  {
  }

  lemma CalledAt(f: Fleet, j: WorkerId, e: Step, max: nat, id: Id, k: WorkerId)
    ensures
      var now := e.RecordRow? && e.x.id == id && Accepts(RecorderAt(f, j), e.x, max);
      && Own(ListAt(Called(f, j, e, max), id), k) ==
         Own(ListAt(f.history, id), k) + (if now && j == k then [e.x.update] else [])
      && All(ListAt(Called(f, j, e, max), id)) == All(ListAt(f.history, id)) + (if now then [e.x.update] else [])
  {
    if e.RecordRow? {
      var before, one := ListAt(f.history, id), [(j, e.x.update)];
      assert (before + one)[..|before|] == before;
    }
  }

  /** A step writes the row of `id` if and only if updates of `id` are in flight and among the writes. */
  lemma GroupIsWritten(w: World, e: Step, id: Id)
    requires RowInv(w, id) && Enabled(w, e)
    ensures
      match UpdateIn(WrittenBy(w, e), id)
      case None => GroupBy(w, e, id) == []
      case Some(u) => id in w.flying && GroupBy(w, e, id) == [w.flying[id]] && Stands(u, w.flying[id])
  {
    WrittenWasInFlight(w, e, id);
    UpdateInHolds(WrittenBy(w, e), id);
    hide WrittenBy, Stands, UpdateIn, Holds;
  }

  lemma OneMoreGroup(row: Option<Row>, groups: seq<seq<Update>>, g: seq<Update>)
    ensures RowInBatches(row, groups + [g]) == Some(Upserted(RowInBatches(row, groups), MergeAll(g)))
  {
    assert (groups + [g])[..|groups|] == groups;
  }

  lemma RowGrows(rows: map<Id, Row>, w: World, e: Step, id: Id, groups: seq<seq<Update>>)
    requires RowInv(w, id) && Enabled(w, e)
    requires NonEmptyGroups(groups) && RowAt(rows, id) == RowInBatches(None, groups)
    ensures NonEmptyGroups(groups + GroupBy(w, e, id))
    ensures RowAt(WriteRows(rows, WrittenBy(w, e)), id) == RowInBatches(None, groups + GroupBy(w, e, id))
  {
    var xs := WrittenBy(w, e);
    WrittenWasInFlight(w, e, id);
    GroupIsWritten(w, e, id);
    WriteRowsAt(rows, xs, id);
    hide WrittenBy, WriteRows, RowInBatches, Upserted, UpdateIn, RowInv, Enabled, GroupBy;
    if UpdateIn(xs, id).Some? {
      OneMoreGroup(None, groups, w.flying[id]);
      StandsUpserts(RowAt(rows, id), UpdateIn(xs, id).value, w.flying[id]);
    } else {
      assert groups + [] == groups;
    }
  }

  lemma WrittenAfter(f: Fleet, m: Move, max: nat, id: Id)
    requires CanMove(f, m)
    ensures
      All(ListAt(Moved(f, m, max).written, id)) ==
      All(ListAt(f.written, id)) + GroupBy(RecorderAt(f, m.worker), m.e, id)
  {
    hide Apply, Enabled, Own, All, Tagged, WrittenBy, LogsWrittenBy, GroupBy, Committed, Called, WriteRows;
    var added := GroupBy(RecorderAt(f, m.worker), m.e, id);
    CommittedAt(f, m.worker, m.e, id);
    OwnConcat(ListAt(f.written, id), Tagged(m.worker, added), m.worker);
    OwnTagged(m.worker, added, m.worker);
  }

  lemma MoveKeepsSharedRow(f: Fleet, m: Move, max: nat, id: Id)
    requires CanMove(f, m) && SharedRow(f, id) && RowInv(RecorderAt(f, m.worker), id)
    ensures SharedRow(Moved(f, m, max), id)
  {
    WrittenAfter(f, m, max, id);
    hide Apply, All, WrittenBy, LogsWrittenBy, GroupBy, Committed, Called, WriteRows, RowInBatches, RowInv, Tagged;
    RowGrows(f.rows, RecorderAt(f, m.worker), m.e, id, All(ListAt(f.written, id)));
  }

  lemma MoveKeepsFleet(f: Fleet, m: Move, max: nat, id: Id)
    requires CanMove(f, m) && FleetInv(f, id)
    ensures FleetInv(Moved(f, m, max), id)
  {
    assert Account(f, m.worker, id);
    MoveKeepsSharedRow(f, m, max, id);
    hide SharedRow, Moved, CanMove;
    forall k
      ensures Account(Moved(f, m, max), k, id)
    {
      assert Account(f, k, id);
      hide Account;
      MoveKeepsAccount(f, m, max, k, id);
    }
  }

  lemma {:induction false} MovesKeepFleet(f: Fleet, moves: seq<Move>, max: nat, id: Id)
    requires FleetInv(f, id) && FleetRuns(f, moves, max)
    ensures FleetInv(AfterMoves(f, moves, max), id)
    decreases |moves|
  {
    hide FleetInv, Moved, CanMove;
    if moves != [] {
      MoveKeepsFleet(f, moves[0], max, id);
      MovesKeepFleet(Moved(f, moves[0], max), moves[1..], max, id);
    }
  }

  lemma NobodyInv(id: Id)
    ensures FleetInv(NOBODY, id)
  {
    NothingYet();
  }

  /** In every run of any number of recorders, a row is what they wrote to it, in the order of their writes. */
  lemma SharedRowIsWhatWasWritten(moves: seq<Move>, max: nat, id: Id)
    requires FleetRuns(NOBODY, moves, max)
    ensures
      var f := AfterMoves(NOBODY, moves, max);
      && RowAt(f.rows, id) == RowInBatches(None, All(ListAt(f.written, id)))
      && forall k :: Own(ListAt(f.written, id), k) == ListAt(RecorderAt(f, k).written, id)
  {
    NobodyInv(id);
    MovesKeepFleet(NOBODY, moves, max, id);
    var f := AfterMoves(NOBODY, moves, max);
    forall k
      ensures Own(ListAt(f.written, id), k) == ListAt(RecorderAt(f, k).written, id)
    {
      assert Account(f, k, id);
    }
  }

  /**
   * Each log a recorder accepted is in one place, which may be the shared table, and an execution's logs keep their
   * order.
   */
  lemma SharedLogsAreConserved(moves: seq<Move>, max: nat, k: WorkerId, id: Id)
    requires FleetRuns(NOBODY, moves, max)
    ensures
      var f := AfterMoves(NOBODY, moves, max);
      var w, table := RecorderAt(f, k), Own(f.logTable, k);
      && multiset(table) + multiset(FlyingLogs(w)) + multiset(w.buffer.logs) + multiset(w.lost) == multiset(w.accepted)
      && Within(LogsOf(table + FlyingLogs(w) + w.buffer.logs, id), LogsOf(w.accepted, id))
  {
    NobodyInv(id);
    MovesKeepFleet(NOBODY, moves, max, id);
    var f := AfterMoves(NOBODY, moves, max);
    assert Account(f, k, id);
    hide FleetRuns, AfterMoves, RowInv, Own, Within, LogsOf, FleetInv;
    LogInvParts(RecorderAt(f, k));
    LineCounts(RecorderAt(f, k));
  }

  // ---- when the row is the history ----

  /** Updates of `id` that the recorder has accepted and not yet written. */
  function Pending(w: World, id: Id): seq<Update> {
    ListAt(w.flying, id) + ListAt(w.waiting, id)
  }

  /** What a step does to the updates that are pending. */
  lemma PendingStep(w: World, e: Step, max: nat, id: Id)
    requires RowInv(w, id) && Enabled(w, e) && id !in Apply(w, e, max).lostRows
    ensures id !in w.lostRows
    ensures
      var u, g := TakenOnBy(w, e, max, id), GroupBy(w, e, id);
      && Pending(w, id) + u == Flat(g) + Pending(Apply(w, e, max), id)
      && (g == [] || g == [g[0]]) && (u == [] || g == [])
  {
    hide *;
    StepKeepsRow(w, e, max, id);
    OwnStep(w, e, max, id);
    LossesStay(w, e, max, id);
    OneGroupAtMost(w, e, max, id);
    HistoryIsLine(w, id);
    HistoryIsLine(Apply(w, e, max), id);
    var u, g, later := TakenOnBy(w, e, max, id), GroupBy(w, e, id), Pending(Apply(w, e, max), id);
    var written := ListAt(w.written, id);
    FlatOneMore(written, g);
    assert Flat(written) + Pending(w, id) + u == Flat(written) + (Pending(w, id) + u);
    assert Flat(written) + Flat(g) + later == Flat(written) + (Flat(g) + later);
    SameRest(Flat(written), Pending(w, id) + u, Flat(g) + later);
  }

  lemma FlatOneMore(written: seq<seq<Update>>, g: seq<seq<Update>>)
    requires g == [] || g == [g[0]]
    ensures Flat(written + g) == Flat(written) + Flat(g)
  {
    if g == [] {
      assert written + g == written;
    } else {
      FlatAppend(written, g[0]);
      FlatAppend([], g[0]);
      assert [] + [g[0]] == g;
    }
  }

  lemma SameRest(a: seq<Update>, b: seq<Update>, c: seq<Update>)
    requires a + b == a + c
    ensures b == c
  {
    assert b == (a + b)[|a|..] == (a + c)[|a|..] == c;
  }

  lemma OneGroupAtMost(w: World, e: Step, max: nat, id: Id)
    ensures var u, g := TakenOnBy(w, e, max, id), GroupBy(w, e, id);
            (g == [] || g == [g[0]]) && (u == [] || g == [])
  {
  }

  lemma LossesStay(w: World, e: Step, max: nat, id: Id)
    requires Enabled(w, e)
    ensures id in w.lostRows ==> id in Apply(w, e, max).lostRows
  {
  }

  lemma HistoryIsLine(w: World, id: Id)
    requires RowInv(w, id) && id !in w.lostRows
    ensures ListAt(w.history, id) == Flat(ListAt(w.written, id)) + Pending(w, id)
  {
  }

  /** What recorder `k` still has to write to the row of `id`. */
  function PendingAt(f: Fleet, k: WorkerId, id: Id): seq<Update> {
    Pending(RecorderAt(f, k), id)
  }

  function HistoryOf(f: Fleet, id: Id): seq<Update> {
    All(ListAt(f.history, id))
  }

  function WrittenOf(f: Fleet, id: Id): seq<Update> {
    Flat(All(ListAt(f.written, id)))
  }

  ghost predicate NobodyHolds(f: Fleet, id: Id) {
    forall k :: PendingAt(f, k, id) == []
  }

  /** An update of `id` is recorded only once every other recorder has written what it had of `id`. */
  ghost predicate HandedOver(f: Fleet, m: Move, id: Id) {
    m.e.RecordRow? && m.e.x.id == id ==> forall k :: k != m.worker ==> PendingAt(f, k, id) == []
  }

  ghost predicate AllHandedOver(f: Fleet, moves: seq<Move>, max: nat, id: Id)
    requires FleetRuns(f, moves, max)
    decreases |moves|
  {
    moves == [] || (HandedOver(f, moves[0], id) && AllHandedOver(Moved(f, moves[0], max), moves[1..], max, id))
  }

  /** Nothing of `id` was given up. */
  ghost predicate Kept(f: Fleet, id: Id) {
    forall k :: id !in RecorderAt(f, k).lostRows
  }

  /** At most one recorder holds updates of `id`, and they are the last ones of its history. */
  ghost predicate InLine(f: Fleet, id: Id) {
    && (forall j, k :: PendingAt(f, j, id) != [] && PendingAt(f, k, id) != [] ==> j == k)
    && (forall k :: PendingAt(f, k, id) != [] ==> HistoryOf(f, id) == WrittenOf(f, id) + PendingAt(f, k, id))
    && (NobodyHolds(f, id) ==> HistoryOf(f, id) == WrittenOf(f, id))
  }

  lemma KeptBefore(f: Fleet, m: Move, max: nat, id: Id)
    requires CanMove(f, m) && Kept(Moved(f, m, max), id)
    ensures Kept(f, id)
  {
    var t := Moved(f, m, max);
    LossesStay(RecorderAt(f, m.worker), m.e, max, id);
    forall k
      ensures id !in RecorderAt(f, k).lostRows
    {
      OwnAfter(f, m, max, k, id);
      assert id !in RecorderAt(t, k).lostRows;
    }
  }

  lemma HistoryAfter(f: Fleet, m: Move, max: nat, id: Id)
    requires CanMove(f, m)
    ensures
      All(ListAt(Moved(f, m, max).history, id)) ==
      All(ListAt(f.history, id)) + TakenOnBy(RecorderAt(f, m.worker), m.e, max, id)
  {
    hide Apply, Enabled, Own, All, WrittenBy, LogsWrittenBy, GroupBy, Committed, Called, WriteRows;
    CalledAt(f, m.worker, m.e, max, id, m.worker);
  }

  lemma OthersStand(f: Fleet, m: Move, max: nat, k: WorkerId)
    requires CanMove(f, m)
    ensures RecorderAt(Moved(f, m, max), k) == if k == m.worker then Apply(RecorderAt(f, k), m.e, max)
                                               else RecorderAt(f, k)
  {
    hide Apply, Enabled, WrittenBy, LogsWrittenBy, GroupBy, Committed, Called, WriteRows, Tagged;
  }

  /** Recorder `k` takes on the updates `u`, or writes the updates `g`, or neither. */
  lemma LineMoves(f: Fleet, t: Fleet, k: WorkerId, id: Id, u: seq<Update>, g: seq<Update>)
    requires InLine(f, id)
    requires forall j :: j != k ==> PendingAt(t, j, id) == PendingAt(f, j, id)
    requires PendingAt(f, k, id) + u == g + PendingAt(t, k, id)
    requires HistoryOf(t, id) == HistoryOf(f, id) + u && WrittenOf(t, id) == WrittenOf(f, id) + g
    requires u == [] || (g == [] && forall j :: j != k ==> PendingAt(f, j, id) == [])
    ensures InLine(t, id)
  {
    hide PendingAt, HistoryOf, WrittenOf;
    var before, after := PendingAt(f, k, id), PendingAt(t, k, id);
    if u == [] && g == [] {
      assert before == before + u && after == g + after;
      assert HistoryOf(t, id) == HistoryOf(f, id) && WrittenOf(t, id) == WrittenOf(f, id);
      assert forall j :: PendingAt(t, j, id) == PendingAt(f, j, id);
    } else {
      assert u != [] ==> NobodyHolds(f, id) || before != [];
      assert HistoryOf(f, id) == WrittenOf(f, id) + before by {
        assert before == [] ==> WrittenOf(f, id) + before == WrittenOf(f, id);
      }
      assert HistoryOf(t, id) == WrittenOf(f, id) + (g + after) == WrittenOf(t, id) + after;
      assert after == [] ==> WrittenOf(t, id) + after == WrittenOf(t, id);
    }
  }

  lemma OthersPend(f: Fleet, m: Move, max: nat, id: Id)
    requires CanMove(f, m)
    ensures forall j :: j != m.worker ==> PendingAt(Moved(f, m, max), j, id) == PendingAt(f, j, id)
  {
    forall j | j != m.worker
      ensures PendingAt(Moved(f, m, max), j, id) == PendingAt(f, j, id)
    {
      OthersStand(f, m, max, j);
    }
  }

  /** The updates a move takes on, and those it writes. */
  function TakenOn(f: Fleet, m: Move, max: nat, id: Id): seq<Update> {
    TakenOnBy(RecorderAt(f, m.worker), m.e, max, id)
  }

  function WrittenNow(f: Fleet, m: Move, id: Id): seq<Update> {
    Flat(GroupBy(RecorderAt(f, m.worker), m.e, id))
  }

  /** What one move does to the updates of `id`. */
  lemma PendingMoves(f: Fleet, m: Move, max: nat, id: Id)
    requires CanMove(f, m) && FleetInv(f, id) && Kept(Moved(f, m, max), id)
    ensures
      var t, u, g := Moved(f, m, max), TakenOn(f, m, max, id), WrittenNow(f, m, id);
      && PendingAt(f, m.worker, id) + u == g + PendingAt(t, m.worker, id)
      && HistoryOf(t, id) == HistoryOf(f, id) + u && WrittenOf(t, id) == WrittenOf(f, id) + g
      && (u == [] || g == [])
  {
    var w, t := RecorderAt(f, m.worker), Moved(f, m, max);
    assert Account(f, m.worker, id);
    OthersStand(f, m, max, m.worker);
    assert id !in RecorderAt(t, m.worker).lostRows;
    hide Moved, Apply, Enabled, RowInv, Pending, RecorderAt, All, GroupBy, ListAt, Flat, TakenOnBy;
    PendingStep(w, m.e, max, id);
    HistoryAfter(f, m, max, id);
    WrittenAfter(f, m, max, id);
    FlatOneMore(All(ListAt(f.written, id)), GroupBy(w, m.e, id));
  }

  lemma MoveKeepsLine(f: Fleet, m: Move, max: nat, id: Id)
    requires CanMove(f, m) && FleetInv(f, id) && InLine(f, id) && HandedOver(f, m, id) && Kept(Moved(f, m, max), id)
    ensures InLine(Moved(f, m, max), id)
  {
    PendingMoves(f, m, max, id);
    OthersPend(f, m, max, id);
    hide Moved, CanMove, FleetInv, InLine, PendingAt, HistoryOf, WrittenOf, WrittenNow, Kept;
    LineMoves(f, Moved(f, m, max), m.worker, id, TakenOn(f, m, max, id), WrittenNow(f, m, id));
  }

  lemma {:induction false} KeptThroughout(f: Fleet, moves: seq<Move>, max: nat, id: Id)
    requires FleetRuns(f, moves, max) && Kept(AfterMoves(f, moves, max), id)
    ensures Kept(f, id)
    decreases |moves|
  {
    hide Moved, CanMove, Kept;
    if moves != [] {
      KeptThroughout(Moved(f, moves[0], max), moves[1..], max, id);
      KeptBefore(f, moves[0], max, id);
    }
  }

  lemma {:induction false} MovesKeepLine(f: Fleet, moves: seq<Move>, max: nat, id: Id)
    requires FleetInv(f, id) && InLine(f, id) && FleetRuns(f, moves, max)
    requires AllHandedOver(f, moves, max, id) && Kept(AfterMoves(f, moves, max), id)
    ensures InLine(AfterMoves(f, moves, max), id)
    decreases |moves|
  {
    hide FleetInv, InLine, Moved, CanMove, Kept, HandedOver;
    if moves != [] {
      MoveKeepsFleet(f, moves[0], max, id);
      KeptThroughout(Moved(f, moves[0], max), moves[1..], max, id);
      MoveKeepsLine(f, moves[0], max, id);
      MovesKeepLine(Moved(f, moves[0], max), moves[1..], max, id);
    }
  }

  /** All accepted updates of `id` have been written, and none was given up. */
  ghost predicate Settled(f: Fleet, id: Id) {
    NobodyHolds(f, id) && Kept(f, id)
  }

  /**
   * However many recorders there are: if each update of an execution is recorded only once every other recorder has
   * written what it had of it, a steady column of its row ends as if every update had been written on its own.
   */
  lemma StoredRowIsTheHistory(moves: seq<Move>, max: nat, id: Id, c: Column)
    requires FleetRuns(NOBODY, moves, max) && AllHandedOver(NOBODY, moves, max, id)
    requires Settled(AfterMoves(NOBODY, moves, max), id)
    requires
      var us := HistoryOf(AfterMoves(NOBODY, moves, max), id);
      us != [] && CountsAttempts(us) && Steady(RuleOf(c), ColumnOf(us, c))
    ensures
      var f := AfterMoves(NOBODY, moves, max);
      CellOf(RowAt(f.rows, id), c) == CellOf(RowOneByOne(None, HistoryOf(f, id)), c)
  {
    NobodyInv(id);
    MovesKeepFleet(NOBODY, moves, max, id);
    MovesKeepLine(NOBODY, moves, max, id);
    var f := AfterMoves(NOBODY, moves, max);
    ColumnAgreesIffSteady(HistoryOf(f, id), c);
  }

  /** For the updates workers record this holds in every column, but for the exceptions that `HidesBatching` names. */
  lemma StoredWorkerRow(moves: seq<Move>, max: nat, id: Id, x: Execution, reports: seq<Report>, c: Column)
    requires FleetRuns(NOBODY, moves, max) && AllHandedOver(NOBODY, moves, max, id)
    requires Settled(AfterMoves(NOBODY, moves, max), id)
    requires reports != [] && HistoryOf(AfterMoves(NOBODY, moves, max), id) == UpdatesOf(x, reports)
    requires HidesBatching(reports, c)
    ensures
      CellOf(RowAt(AfterMoves(NOBODY, moves, max).rows, id), c) == CellOf(RowOneByOne(None, UpdatesOf(x, reports)), c)
  {
    GreatestColumn(x, reports);
    WorkerRowsDoNotDependOnBatching(x, reports, c);
    ColumnAgreesIffSteady(UpdatesOf(x, reports), c);
    StoredRowIsTheHistory(moves, max, id, c);
  }

  // ---- and when it is not: an update recorded while another recorder still holds older ones ----

  /** A write of the field decides the column, whatever the row held. */
  predicate Decides(c: Column, x: Field) {
    x.Set? && (RuleOf(c) == Overwrite || (RuleOf(c) == LatestNonNull && x.cell != Null))
  }

  /** If there are updates, the last of them sets the column to `cell`. */
  predicate EndsWith(us: seq<Update>, c: Column, cell: Cell) {
    us != [] ==> FieldOf(us[|us| - 1], c) == Set(cell)
  }

  predicate EndDecides(us: seq<Update>, c: Column) {
    us != [] ==> Decides(c, FieldOf(us[|us| - 1], c))
  }

  /** Nothing more of `id` is recorded. */
  ghost predicate Quiet(moves: seq<Move>, id: Id) {
    forall i :: 0 <= i < |moves| && moves[i].e.RecordRow? ==> moves[i].e.x.id != id
  }

  /** However the recorders go on without recording more of `id`: once all is written, the column holds `cell`. */
  ghost predicate BoundFor(f: Fleet, max: nat, id: Id, c: Column, cell: Cell) {
    forall moves :: FleetRuns(f, moves, max) && Quiet(moves, id) && Settled(AfterMoves(f, moves, max), id) ==>
      CellOf(RowAt(AfterMoves(f, moves, max).rows, id), c) == Some(cell)
  }

  /** Whoever writes last writes `cell`, or has written it. */
  ghost predicate Agreeing(f: Fleet, id: Id, c: Column, cell: Cell) {
    && (forall k :: EndsWith(PendingAt(f, k, id), c, cell))
    && (NobodyHolds(f, id) ==> CellOf(RowAt(f.rows, id), c) == Some(cell))
  }

  lemma EndIsMerged(g: seq<Update>, c: Column)
    requires g != [] && FieldOf(g[|g| - 1], c).Set?
    ensures FieldOf(MergeAll(g), c) == FieldOf(g[|g| - 1], c)
  {
    MergeAllNext(g[..|g| - 1], g[|g| - 1], c);
    assert g[..|g| - 1] + [g[|g| - 1]] == g;
    hide MergeAll, FieldOf;
  }

  lemma DecidingWrite(row: Option<Row>, u: Update, c: Column)
    requires Decides(c, FieldOf(u, c))
    ensures CellOf(Some(Upserted(row, u)), c) == Some(FieldOf(u, c).cell)
  {
  }

  lemma LastGroupDecides(groups: seq<seq<Update>>, g: seq<Update>, c: Column, cell: Cell)
    requires g != [] && FieldOf(g[|g| - 1], c) == Set(cell) && Decides(c, Set(cell))
    ensures CellOf(RowInBatches(None, groups + [g]), c) == Some(cell)
  {
    hide *;
    OneMoreGroup(None, groups, g);
    EndIsMerged(g, c);
    DecidingWrite(RowInBatches(None, groups), MergeAll(g), c);
  }

  /** The row of `id` before and after a move, and what was added to it. */
  lemma RowAfterMove(f: Fleet, m: Move, max: nat, id: Id)
    requires CanMove(f, m) && FleetInv(f, id)
    ensures
      var groups, g := All(ListAt(f.written, id)), GroupBy(RecorderAt(f, m.worker), m.e, id);
      && RowAt(f.rows, id) == RowInBatches(None, groups)
      && RowAt(Moved(f, m, max).rows, id) == RowInBatches(None, groups + g)
      && (g == [] || (g == [g[0]] && g[0] != []))
  {
    assert Account(f, m.worker, id);
    MoveKeepsFleet(f, m, max, id);
    WrittenAfter(f, m, max, id);
    GroupIsWritten(RecorderAt(f, m.worker), m.e, id);
    hide Moved, All, RowInBatches, GroupBy, RowAt, Apply, RowInv, RecorderAt;
  }

  lemma CellAfterGroups(groups: seq<seq<Update>>, g: seq<seq<Update>>, c: Column, cell: Cell)
    requires (g == [] || (g == [g[0]] && g[0] != [])) && Decides(c, Set(cell))
    ensures
      if Flat(g) == [] then RowInBatches(None, groups + g) == RowInBatches(None, groups)
      else EndsWith(Flat(g), c, cell) ==> CellOf(RowInBatches(None, groups + g), c) == Some(cell)
  {
    hide RowInBatches, CellOf;
    if g == [] {
      assert groups + g == groups;
    } else {
      FlatAppend([], g[0]);
      assert [] + [g[0]] == g;
      assert Flat(g) == g[0];
      if EndsWith(g[0], c, cell) {
        LastGroupDecides(groups, g[0], c, cell);
      }
    }
  }

  lemma EndOfRest(g: seq<Update>, after: seq<Update>, c: Column, cell: Cell)
    requires EndsWith(g + after, c, cell)
    ensures EndsWith(after, c, cell) && (after == [] ==> EndsWith(g, c, cell))
  {
    if after != [] {
      assert (g + after)[|g + after| - 1] == after[|after| - 1];
    } else {
      assert g + after == g;
    }
  }

  /** Recorder `k` writes the updates `g` and keeps the rest, or nothing happens to the updates. */
  lemma AgreeingMoves(f: Fleet, t: Fleet, k: WorkerId, id: Id, c: Column, cell: Cell, g: seq<Update>)
    requires Agreeing(f, id, c, cell)
    requires PendingAt(f, k, id) == g + PendingAt(t, k, id)
    requires forall j :: j != k ==> PendingAt(t, j, id) == PendingAt(f, j, id)
    requires
      if g == [] then CellOf(RowAt(t.rows, id), c) == CellOf(RowAt(f.rows, id), c)
      else EndsWith(g, c, cell) ==> CellOf(RowAt(t.rows, id), c) == Some(cell)
    ensures Agreeing(t, id, c, cell)
  {
    hide PendingAt, CellOf, RowAt, EndsWith;
    assert EndsWith(PendingAt(f, k, id), c, cell);
    EndOfRest(g, PendingAt(t, k, id), c, cell);
    assert g == [] ==> g + PendingAt(t, k, id) == PendingAt(t, k, id);
  }

  /** What the row of `id` holds after a move of one recorder. */
  lemma CellAfterMove(f: Fleet, m: Move, max: nat, id: Id, c: Column, cell: Cell)
    requires CanMove(f, m) && FleetInv(f, id) && Decides(c, Set(cell))
    ensures
      var t, g := Moved(f, m, max), WrittenNow(f, m, id);
      if g == [] then CellOf(RowAt(t.rows, id), c) == CellOf(RowAt(f.rows, id), c)
      else EndsWith(g, c, cell) ==> CellOf(RowAt(t.rows, id), c) == Some(cell)
  {
    hide Moved, All, RowInBatches, GroupBy, CellOf, RowAt, RecorderAt, CanMove, FleetInv, Decides, EndsWith;
    RowAfterMove(f, m, max, id);
    CellAfterGroups(All(ListAt(f.written, id)), GroupBy(RecorderAt(f, m.worker), m.e, id), c, cell);
  }

  lemma MoveKeepsAgreeing(f: Fleet, m: Move, max: nat, id: Id, c: Column, cell: Cell)
    requires CanMove(f, m) && FleetInv(f, id) && Agreeing(f, id, c, cell) && Decides(c, Set(cell))
    requires m.e.RecordRow? ==> m.e.x.id != id
    requires Kept(Moved(f, m, max), id)
    ensures Agreeing(Moved(f, m, max), id, c, cell)
  {
    assert TakenOn(f, m, max, id) == [];
    hide *;
    PendingMoves(f, m, max, id);
    OthersPend(f, m, max, id);
    CellAfterMove(f, m, max, id, c, cell);
    assert PendingAt(f, m.worker, id) + [] == PendingAt(f, m.worker, id);
    AgreeingMoves(f, Moved(f, m, max), m.worker, id, c, cell, WrittenNow(f, m, id));
  }

  lemma {:induction false} MovesKeepAgreeing(f: Fleet, moves: seq<Move>, max: nat, id: Id, c: Column, cell: Cell)
    requires FleetInv(f, id) && Agreeing(f, id, c, cell) && Decides(c, Set(cell))
    requires FleetRuns(f, moves, max) && Quiet(moves, id) && Kept(AfterMoves(f, moves, max), id)
    ensures Agreeing(AfterMoves(f, moves, max), id, c, cell)
    decreases |moves|
  {
    hide FleetInv, Agreeing, Moved, CanMove, Kept, Decides;
    if moves != [] {
      var t, rest := Moved(f, moves[0], max), moves[1..];
      assert Quiet(rest, id) by {
        assert forall i :: 0 <= i < |rest| ==> rest[i] == moves[i + 1];
      }
      MoveKeepsFleet(f, moves[0], max, id);
      KeptThroughout(t, rest, max, id);
      MoveKeepsAgreeing(f, moves[0], max, id, c, cell);
      MovesKeepAgreeing(t, rest, max, id, c, cell);
    }
  }

  // ---- a recorder can always write what it holds ----

  ghost predicate Writing(steps: seq<Step>) {
    forall i :: 0 <= i < |steps| ==> steps[i].Flush? || steps[i].WriteSucceeds?
  }

  lemma NothingHeld(w: World, id: Id)
    requires RowInv(w, id) && w.flushing == None && w.buffer.Size() == 0
    ensures Pending(w, id) == []
  {
    assert w.buffer.executions.keys == [];
    assert id !in w.buffer.executions.vals;
  }

  lemma StepFirst(w: World, e: Step, rest: seq<Step>, max: nat)
    requires Enabled(w, e) && Runs(Apply(w, e, max), rest, max)
    ensures Runs(w, [e] + rest, max) && After(w, [e] + rest, max) == After(Apply(w, e, max), rest, max)
  {
    hide Enabled, Apply;
    assert ([e] + rest)[1..] == rest;
  }

  lemma WriteEnds(w: World, max: nat, id: Id)
    requires RowInv(w, id) && w.flushing.Some?
    ensures Enabled(w, WriteSucceeds)
    ensures
      var t := Apply(w, WriteSucceeds, max);
      RowInv(t, id) && t.flushing == None && t.buffer == w.buffer && t.lostRows == w.lostRows
  {
    hide RowInv, WriteRows, Settle;
    StepKeepsRow(w, WriteSucceeds, max, id);
  }

  lemma FlushStarts(w: World, max: nat, id: Id)
    requires RowInv(w, id) && w.flushing == None && w.buffer.Size() > 0
    ensures Enabled(w, Flush)
    ensures
      var t := Apply(w, Flush, max);
      RowInv(t, id) && t.flushing.Some? && t.buffer.Size() == 0 && t.lostRows == w.lostRows
  {
    hide Placed;
    StepKeepsRow(w, Flush, max, id);
  }

  /** With nothing in flight, one flush that succeeds writes what is buffered. */
  lemma BufferIsWritten(w: World, max: nat, id: Id) returns (steps: seq<Step>)
    requires RowInv(w, id) && w.flushing == None
    ensures Writing(steps) && Runs(w, steps, max)
    ensures Pending(After(w, steps, max), id) == [] && After(w, steps, max).lostRows == w.lostRows
  {
    if w.buffer.Size() == 0 {
      hide RowInv, Pending, Apply, Enabled;
      NothingHeld(w, id);
      return [];
    }
    steps := [Flush, WriteSucceeds];
    FlushAndWrite(w, max, id);
  }

  lemma FlushAndWrite(w: World, max: nat, id: Id)
    requires RowInv(w, id) && w.flushing == None && w.buffer.Size() > 0
    ensures
      var steps := [Flush, WriteSucceeds];
      Runs(w, steps, max) && Pending(After(w, steps, max), id) == [] && After(w, steps, max).lostRows == w.lostRows
  {
    hide *;
    FlushStarts(w, max, id);
    var t := Apply(w, Flush, max);
    WriteEnds(t, max, id);
    var u := Apply(t, WriteSucceeds, max);
    NothingHeld(u, id);
    NoSteps(u, max);
    StepFirst(t, WriteSucceeds, [], max);
    assert [WriteSucceeds] + [] == [WriteSucceeds] && [Flush] + [WriteSucceeds] == [Flush, WriteSucceeds];
    StepFirst(w, Flush, [WriteSucceeds], max);
  }

  lemma NoSteps(w: World, max: nat)
    ensures Runs(w, [], max) && After(w, [], max) == w
  {
  }

  lemma CanWriteOut(w: World, max: nat, id: Id) returns (steps: seq<Step>)
    requires RowInv(w, id)
    ensures Writing(steps) && Runs(w, steps, max)
    ensures Pending(After(w, steps, max), id) == [] && After(w, steps, max).lostRows == w.lostRows
  {
    if w.flushing == None {
      steps := BufferIsWritten(w, max, id);
    } else {
      WriteEnds(w, max, id);
      var t := Apply(w, WriteSucceeds, max);
      var rest := BufferIsWritten(t, max, id);
      hide RowInv, Pending, Apply, Enabled;
      StepFirst(w, WriteSucceeds, rest, max);
      steps := [WriteSucceeds] + rest;
    }
  }

  function MovesOf(k: WorkerId, steps: seq<Step>): (moves: seq<Move>)
    ensures |moves| == |steps| && forall i :: 0 <= i < |moves| ==> moves[i] == Move(k, steps[i])
  {
    seq(|steps|, i requires 0 <= i < |steps| => Move(k, steps[i]))
  }

  /** A run of one recorder is a run of the fleet that leaves the others alone. */
  lemma {:induction false} OneRecorderRuns(f: Fleet, k: WorkerId, steps: seq<Step>, max: nat)
    requires Runs(RecorderAt(f, k), steps, max)
    ensures FleetRuns(f, MovesOf(k, steps), max)
    ensures
      var t := AfterMoves(f, MovesOf(k, steps), max);
      forall j :: RecorderAt(t, j) == if j == k then After(RecorderAt(f, k), steps, max) else RecorderAt(f, j)
    decreases |steps|
  {
    hide Moved, Apply, Enabled, RecorderAt;
    if steps != [] {
      var m := Move(k, steps[0]);
      assert CanMove(f, m);
      var t := Moved(f, m, max);
      forall j
        ensures RecorderAt(t, j) == if j == k then Apply(RecorderAt(f, k), steps[0], max) else RecorderAt(f, j)
      {
        OthersStand(f, m, max, j);
      }
      OneRecorderRuns(t, k, steps[1..], max);
      assert MovesOf(k, steps)[1..] == MovesOf(k, steps[1..]);
    }
  }

  lemma {:induction false} ChainRuns(f: Fleet, a: seq<Move>, b: seq<Move>, max: nat)
    requires FleetRuns(f, a, max) && FleetRuns(AfterMoves(f, a, max), b, max)
    ensures FleetRuns(f, a + b, max) && AfterMoves(f, a + b, max) == AfterMoves(AfterMoves(f, a, max), b, max)
    decreases |a|
  {
    hide Moved, CanMove;
    if a == [] {
      assert a + b == b;
    } else {
      assert (a + b)[1..] == a[1..] + b;
      ChainRuns(Moved(f, a[0], max), a[1..], b, max);
    }
  }

  /** `k` writes what it holds. */
  lemma OneWritesOut(f: Fleet, k: WorkerId, max: nat, id: Id) returns (moves: seq<Move>)
    requires FleetInv(f, id) && Kept(f, id)
    ensures FleetRuns(f, moves, max) && Quiet(moves, id)
    ensures
      var t := AfterMoves(f, moves, max);
      && FleetInv(t, id) && Kept(t, id)
      && forall j :: PendingAt(t, j, id) == if j == k then [] else PendingAt(f, j, id)
  {
    assert Account(f, k, id);
    hide FleetInv, RowInv, Pending, Moved, CanMove, FleetRuns, AfterMoves, Runs, After, Apply, Enabled, RecorderAt;
    var steps := CanWriteOut(RecorderAt(f, k), max, id);
    OneRecorderRuns(f, k, steps, max);
    moves := MovesOf(k, steps);
    MovesKeepFleet(f, moves, max, id);
  }

  lemma {:induction false} ManyWriteOut(f: Fleet, ks: set<WorkerId>, max: nat, id: Id) returns (moves: seq<Move>)
    requires FleetInv(f, id) && Kept(f, id)
    ensures FleetRuns(f, moves, max) && Quiet(moves, id)
    ensures
      var t := AfterMoves(f, moves, max);
      && FleetInv(t, id) && Kept(t, id)
      && forall j :: PendingAt(t, j, id) == if j in ks then [] else PendingAt(f, j, id)
    decreases ks
  {
    hide FleetInv, Kept, PendingAt, Moved, CanMove;
    if ks == {} {
      moves := [];
    } else {
      var k :| k in ks;
      var first := OneWritesOut(f, k, max, id);
      var rest := ManyWriteOut(AfterMoves(f, first, max), ks - {k}, max, id);
      hide FleetRuns, AfterMoves;
      ChainRuns(f, first, rest, max);
      moves := first + rest;
    }
  }

  /** Where `k` holds updates, and all that is held ends with `cell`, the recorders agree. */
  lemma HoldersAgree(f: Fleet, k: WorkerId, id: Id, c: Column, cell: Cell)
    requires PendingAt(f, k, id) != [] && forall j :: EndsWith(PendingAt(f, j, id), c, cell)
    ensures Agreeing(f, id, c, cell)
  {
    hide PendingAt, EndsWith, CellOf, RowAt;
  }

  lemma SettledCell(f: Fleet, id: Id, c: Column, cell: Cell)
    requires Agreeing(f, id, c, cell) && Settled(f, id)
    ensures CellOf(RowAt(f.rows, id), c) == Some(cell)
  {
  }

  lemma OthersHoldNothing(f: Fleet, id: Id)
    ensures forall k :: k !in f.recorders ==> PendingAt(f, k, id) == []
  {
  }

  /**
   * Any recorder that holds updates of `id` can be the last to write, and then decides what its last update decides.
   */
  lemma LateWriterWins(f: Fleet, j: WorkerId, max: nat, id: Id) returns (moves: seq<Move>)
    requires FleetInv(f, id) && Kept(f, id) && PendingAt(f, j, id) != []
    ensures FleetRuns(f, moves, max) && Quiet(moves, id) && Settled(AfterMoves(f, moves, max), id)
    ensures forall c, cell :: EndsWith(PendingAt(f, j, id), c, cell) && Decides(c, Set(cell)) ==>
              CellOf(RowAt(AfterMoves(f, moves, max).rows, id), c) == Some(cell)
  {
    OthersHoldNothing(f, id);
    NothingEndsWithAll();
    hide *;
    var others := ManyWriteOut(f, f.recorders.Keys - {j}, max, id);
    var g := AfterMoves(f, others, max);
    var last := OneWritesOut(g, j, max, id);
    var t := AfterMoves(g, last, max);
    forall c, cell | EndsWith(PendingAt(f, j, id), c, cell) && Decides(c, Set(cell))
      ensures Agreeing(t, id, c, cell)
    {
      HoldersAgree(g, j, id, c, cell);
      MovesKeepAgreeing(g, last, max, id, c, cell);
    }
    ChainRuns(f, others, last, max);
    QuietTogether(others, last, id);
    moves := others + last;
    NobodyLeft(t, id);
    forall c, cell | EndsWith(PendingAt(f, j, id), c, cell) && Decides(c, Set(cell))
      ensures CellOf(RowAt(t.rows, id), c) == Some(cell)
    {
      SettledCell(t, id, c, cell);
    }
  }

  lemma NothingEndsWithAll()
    ensures forall c, cell :: EndsWith([], c, cell)
  {
  }

  lemma NobodyLeft(f: Fleet, id: Id)
    requires Kept(f, id) && forall k :: PendingAt(f, k, id) == []
    ensures Settled(f, id)
  {
    hide PendingAt;
  }

  lemma QuietTogether(a: seq<Move>, b: seq<Move>, id: Id)
    requires Quiet(a, id) && Quiet(b, id)
    ensures Quiet(a + b, id)
  {
  }

  lemma RecordingPends(f: Fleet, k: WorkerId, x: ExecutionUpdate, max: nat)
    requires FleetInv(f, x.id) && Kept(f, x.id) && Accepts(RecorderAt(f, k), x, max)
    ensures CanMove(f, Move(k, RecordRow(x)))
    ensures
      var t := Moved(f, Move(k, RecordRow(x)), max);
      && FleetInv(t, x.id) && Kept(t, x.id)
      && forall j :: PendingAt(t, j, x.id) == PendingAt(f, j, x.id) + if j == k then [x.update] else []
  {
    var m := Move(k, RecordRow(x));
    var t := Moved(f, m, max);
    MoveKeepsFleet(f, m, max, x.id);
    forall j
      ensures RecorderAt(t, j) == if j == k then Recorded(RecorderAt(f, k), x, max) else RecorderAt(f, j)
    {
      OthersStand(f, m, max, j);
    }
    assert Kept(t, x.id);
    assert TakenOn(f, m, max, x.id) == [x.update] && WrittenNow(f, m, x.id) == [];
    PendingMoves(f, m, max, x.id);
    hide Moved, FleetInv, Pending, RecorderAt, GroupBy, TakenOn, WrittenNow;
    assert [] + PendingAt(t, k, x.id) == PendingAt(t, k, x.id);
    OthersPend(f, m, max, x.id);
  }

  /**
   * Recorder `k` records an update that decides a column, here its status. Whatever happens then, short of a further
   * update, the row ends with it if and only if what the other recorders still hold ends with the same.
   */
  lemma HandOverIsExact(moves: seq<Move>, k: WorkerId, x: ExecutionUpdate, max: nat, c: Column, cell: Cell)
    requires FleetRuns(NOBODY, moves, max) && Kept(AfterMoves(NOBODY, moves, max), x.id)
    requires Accepts(RecorderAt(AfterMoves(NOBODY, moves, max), k), x, max)
    requires FieldOf(x.update, c) == Set(cell) && Decides(c, Set(cell))
    requires forall j :: EndDecides(PendingAt(AfterMoves(NOBODY, moves, max), j, x.id), c)
    ensures
      var f := AfterMoves(NOBODY, moves, max);
      && CanMove(f, Move(k, RecordRow(x)))
      && (BoundFor(Moved(f, Move(k, RecordRow(x)), max), max, x.id, c, cell) <==>
          forall j :: j != k ==> EndsWith(PendingAt(f, j, x.id), c, cell))
  {
    NobodyInv(x.id);
    MovesKeepFleet(NOBODY, moves, max, x.id);
    var f := AfterMoves(NOBODY, moves, max);
    RecordingPends(f, k, x, max);
    var t := Moved(f, Move(k, RecordRow(x)), max);
    hide *;
    if forall j :: j != k ==> EndsWith(PendingAt(f, j, x.id), c, cell) {
      AgreedIsBound(f, t, k, x, max, c, cell);
    } else {
      var j :| j != k && !EndsWith(PendingAt(f, j, x.id), c, cell);
      OvertakenIsNotBound(f, t, j, x, max, c, cell);
    }
  }

  lemma AgreedIsBound(f: Fleet, t: Fleet, k: WorkerId, x: ExecutionUpdate, max: nat, c: Column, cell: Cell)
    requires FleetInv(t, x.id) && FieldOf(x.update, c) == Set(cell) && Decides(c, Set(cell))
    requires forall j :: PendingAt(t, j, x.id) == PendingAt(f, j, x.id) + if j == k then [x.update] else []
    requires forall j :: j != k ==> EndsWith(PendingAt(f, j, x.id), c, cell)
    ensures BoundFor(t, max, x.id, c, cell)
  {
    hide FleetRuns, AfterMoves, FleetInv, Kept, PendingAt, Decides, CellOf, RowAt, NobodyHolds, Quiet, Agreeing;
    forall j
      ensures EndsWith(PendingAt(t, j, x.id), c, cell)
    {
      var held := PendingAt(f, j, x.id);
      assert PendingAt(t, j, x.id) == held + if j == k then [x.update] else [];
      assert held + [] == held;
    }
    HoldersAgree(t, k, x.id, c, cell);
    hide FieldOf, EndsWith;
    forall later | FleetRuns(t, later, max) && Quiet(later, x.id) && Settled(AfterMoves(t, later, max), x.id)
      ensures CellOf(RowAt(AfterMoves(t, later, max).rows, x.id), c) == Some(cell)
    {
      MovesKeepAgreeing(t, later, max, x.id, c, cell);
      SettledCell(AfterMoves(t, later, max), x.id, c, cell);
    }
  }

  lemma OvertakenIsNotBound(f: Fleet, t: Fleet, j: WorkerId, x: ExecutionUpdate, max: nat, c: Column, cell: Cell)
    requires FleetInv(t, x.id) && Kept(t, x.id) && PendingAt(t, j, x.id) == PendingAt(f, j, x.id)
    requires EndDecides(PendingAt(f, j, x.id), c) && !EndsWith(PendingAt(f, j, x.id), c, cell)
    ensures !BoundFor(t, max, x.id, c, cell)
  {
    var us := PendingAt(f, j, x.id);
    var other := FieldOf(us[|us| - 1], c).cell;
    var later := LateWriterWins(t, j, max, x.id);
    assert EndsWith(us, c, other) && Decides(c, Set(other));
    hide FleetRuns, AfterMoves, CellOf, RowAt;
    assert CellOf(RowAt(AfterMoves(t, later, max).rows, x.id), c) != Some(cell);
  }

  // ---- the worker's retries (workers/automation.worker.ts) ----

  lemma {:induction false} QuietKeepsHistory(f: Fleet, moves: seq<Move>, max: nat, id: Id)
    requires FleetRuns(f, moves, max) && Quiet(moves, id)
    ensures HistoryOf(AfterMoves(f, moves, max), id) == HistoryOf(f, id)
    decreases |moves|
  {
    hide Moved, CanMove, All;
    if moves != [] {
      var rest := moves[1..];
      assert forall i :: 0 <= i < |rest| ==> rest[i] == moves[i + 1];
      HistoryAfter(f, moves[0], max, id);
      QuietKeepsHistory(Moved(f, moves[0], max), rest, max, id);
    }
  }

  /** Recording an update of `x` puts it last in the history. */
  lemma RecordingIsNoted(f: Fleet, k: WorkerId, x: ExecutionUpdate, max: nat)
    requires Accepts(RecorderAt(f, k), x, max)
    ensures
      var m := Move(k, RecordRow(x));
      && FleetRuns(f, [m], max) && AfterMoves(f, [m], max) == Moved(f, m, max)
      && HistoryOf(Moved(f, m, max), x.id) == HistoryOf(f, x.id) + [x.update]
  {
    var m := Move(k, RecordRow(x));
    HistoryAfter(f, m, max, x.id);
    hide Moved, All;
    assert [m][1..] == [];
  }

  /** Before anything happens. */
  lemma NobodyHasAnything(id: Id)
    ensures FleetInv(NOBODY, id) && Kept(NOBODY, id) && HistoryOf(NOBODY, id) == []
    ensures forall k :: PendingAt(NOBODY, k, id) == [] && RecorderAt(NOBODY, k) == INITIAL
  {
    NobodyInv(id);
  }

  lemma FirstUpdateIsAccepted(f: Fleet, k: WorkerId, x: ExecutionUpdate, max: nat)
    requires RecorderAt(f, k) == INITIAL && max > 0
    ensures Accepts(RecorderAt(f, k), x, max)
  {
  }

  /** Two recorders record one update each. */
  lemma TwoRecordings(a: WorkerId, b: WorkerId, max: nat, id: Id, u: Update, v: Update) returns (moves: seq<Move>)
    requires a != b && max > 0
    ensures FleetRuns(NOBODY, moves, max)
    ensures
      var t := AfterMoves(NOBODY, moves, max);
      && FleetInv(t, id) && Kept(t, id) && HistoryOf(t, id) == [u, v]
      && PendingAt(t, a, id) == [u]
  {
    hide *;
    var first, second := ExecutionUpdate(id, u), ExecutionUpdate(id, v);
    var m, n := Move(a, RecordRow(first)), Move(b, RecordRow(second));
    NobodyHasAnything(id);
    FirstUpdateIsAccepted(NOBODY, a, first, max);
    RecordingPends(NOBODY, a, first, max);
    var f := Moved(NOBODY, m, max);
    OthersStand(NOBODY, m, max, b);
    FirstUpdateIsAccepted(f, b, second, max);
    RecordingPends(f, b, second, max);
    RecordingIsNoted(NOBODY, a, first, max);
    RecordingIsNoted(f, b, second, max);
    ChainRuns(NOBODY, [m], [n], max);
    moves := [m] + [n];
  }

  lemma FailureIsReported(x: Execution, failed: Report)
    requires failed.event.Failed?
    ensures EndsWith([UpdateOf(x, failed)], RowStatus, Text(failed.event.status))
    ensures EndsWith([UpdateOf(x, failed)], RowError, Text(failed.event.error))
    ensures forall cell :: Decides(RowStatus, Set(cell)) && Decides(RowError, Set(cell))
  {
  }

  /**
   * Worker `a` records that its attempt failed and will be retried, worker `b` that the next one succeeded. If `a` is
   * the last to flush, the row of the execution says RETRYING and why, although the last update says SUCCEEDED.
   */
  lemma LateFlushHidesSuccess(a: WorkerId, b: WorkerId, max: nat, id: Id, x: Execution, failed: Report, done: Report)
    returns (moves: seq<Move>)
    requires a != b && max > 0
    requires failed.event.Failed? && failed.event.status == "RETRYING" && done.event.Succeeded?
    ensures FleetRuns(NOBODY, moves, max) && Settled(AfterMoves(NOBODY, moves, max), id)
    ensures HistoryOf(AfterMoves(NOBODY, moves, max), id) == [UpdateOf(x, failed), UpdateOf(x, done)]
    ensures
      var row := RowAt(AfterMoves(NOBODY, moves, max).rows, id);
      && CellOf(row, RowStatus) == Some(Text("RETRYING"))
      && CellOf(row, RowError) == Some(Text(failed.event.error))
  {
    hide *;
    FailureIsReported(x, failed);
    var recorded := TwoRecordings(a, b, max, id, UpdateOf(x, failed), UpdateOf(x, done));
    var t := AfterMoves(NOBODY, recorded, max);
    var later := LateWriterWins(t, a, max, id);
    QuietKeepsHistory(t, later, max, id);
    ChainRuns(NOBODY, recorded, later, max);
    moves := recorded + later;
  }
}
