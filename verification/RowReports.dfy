/** What the row of an execution says after a worker's reports (automation.worker.ts, execution-recorder.ts). */
module RowReports {
  import opened Collections
  import opened RowBatching

  /** What a report has to say about one of the times and durations. */
  function Reading(e: Event, c: Column): Option<real> {
    match e
    case Started(at, queueLatencyMs) =>
      if c == StartedAt then Some(at) else if c == QueueLatencyMs then queueLatencyMs else None
    case Succeeded(at, executionMs, totalMs, outboundMs) =>
      if c == FinishedAt then Some(at) else if c == ExecutionDurationMs then Some(executionMs)
      else if c == TotalLatencyMs then Some(totalMs) else if c == OutboundStartLatencyMs then outboundMs else None
    case Failed(_, at, _) => if c == FinishedAt then Some(at) else None
  }

  /** The last such reading. */
  function LastReading(reports: seq<Report>, c: Column): Option<real> {
    if reports == [] then None
    else
      var last := Reading(reports[|reports| - 1].event, c);
      if last.Some? then last else LastReading(reports[..|reports| - 1], c)
  }

  function Shown(r: Option<real>): Cell {
    if r.None? then Null else Num(r.value)
  }

  predicate IsReading(c: Column) {
    c in {StartedAt, FinishedAt, QueueLatencyMs, OutboundStartLatencyMs, ExecutionDurationMs, TotalLatencyMs}
  }

  function FixedCell(x: Execution, first: Report, c: Column): Option<Cell> {
    if c == WorkflowId then Some(Text(x.workflowId)) else if c == WorkflowVersion then Some(Num(x.workflowVersion))
    else if c == EndpointId then Some(Text(x.endpointId)) else if c == EventId then Some(Text(x.eventId))
    else if c == EventType then Some(Text(x.eventType)) else if c == ReceivedAt then Some(Num(x.receivedAt))
    else if c == EnqueuedAt then Some(Num(x.enqueuedAt)) else if c == RequestId then Some(Text(x.requestId))
    else if c == JobId then Some(Text(first.jobId)) else None
  }

  ghost predicate AnyStarted(reports: seq<Report>) {
    exists i :: 0 <= i < |reports| && reports[i].event.Started?
  }

  /** The highest attempt that was reported. */
  ghost predicate IsHighest(reports: seq<Report>, cell: Cell) {
    && cell.Num? && (forall i :: 0 <= i < |reports| ==> reports[i].attempt as real <= cell.n)
    && exists i :: 0 <= i < |reports| && reports[i].attempt as real == cell.n
  }

  function StatusText(e: Event): string {
    match e
    case Started(_, _) => "RUNNING"
    case Succeeded(_, _, _, _) => "SUCCEEDED"
    case Failed(status, _, _) => status
  }

  lemma FieldsOf(x: Execution, reports: seq<Report>, c: Column)
    requires reports != []
    ensures
      var fs := ColumnOf(UpdatesOf(x, reports), c);
      && |fs| == |reports| && (forall i :: 0 <= i < |fs| ==> fs[i] == ReportField(x, reports[i], c))
      && CellOf(RowOneByOne(None, UpdatesOf(x, reports)), c) == OneByOne(RuleOf(c), None, fs)
  {
    OneByOneColumn(None, UpdatesOf(x, reports), c);
    ReportColumn(x, reports, c);
    hide OneByOne, RowOneByOne, ReportField, RuleOf;
  }

  lemma FixedField(x: Execution, r: Report, c: Column)
    requires FixedCell(x, r, c).Some?
    ensures ReportField(x, r, c) == Set(FixedCell(x, r, c).value)
    ensures if c == RequestId then RuleOf(c) == KeepFirst else RuleOf(c) == InsertOnly
  {
  }

  /** What never changes: it is what the first report says. */
  lemma FixedColumns(x: Execution, reports: seq<Report>, c: Column)
    requires reports != [] && FixedCell(x, reports[0], c).Some?
    ensures CellOf(RowOneByOne(None, UpdatesOf(x, reports)), c) == FixedCell(x, reports[0], c)
  {
    var fs := ColumnOf(UpdatesOf(x, reports), c);
    FieldsOf(x, reports, c);
    FixedField(x, reports[0], c);
    if c == RequestId {
      RequestIdColumn(x, reports, fs);
    } else {
      hide *;
      InsertOnlyKeepsFirst(None, fs);
      BoundCell(fs[0], FixedCell(x, reports[0], c).value);
    }
  }

  lemma BoundCell(f: Field, cell: Cell)
    requires f == Set(cell)
    ensures Bound(f) == cell
  {
  }

  lemma RequestIdColumn(x: Execution, reports: seq<Report>, fs: seq<Field>)
    requires |fs| == |reports| > 0 && forall i :: 0 <= i < |fs| ==> fs[i] == ReportField(x, reports[i], RequestId)
    ensures OneByOne(KeepFirst, None, fs) == Some(Text(x.requestId))
  {
    assert fs[0] == Set(Text(x.requestId));
    hide OneByOne;
    KeepFirstOfEqualValues(None, fs, Set(Text(x.requestId)));
  }

  lemma PayloadColumn(x: Execution, reports: seq<Report>)
    requires reports != []
    ensures CellOf(RowOneByOne(None, UpdatesOf(x, reports)), TriggerPayload) ==
            Some(if AnyStarted(reports) && x.payload.Some? then Text(x.payload.value) else Null)
  {
    var fs := ColumnOf(UpdatesOf(x, reports), TriggerPayload);
    FieldsOf(x, reports, TriggerPayload);
    hide OneByOne, ColumnOf, UpdatesOf, RowOneByOne;
    if AnyStarted(reports) && x.payload.Some? {
      var i :| 0 <= i < |reports| && reports[i].event.Started?;
      assert fs[i] == Set(Text(x.payload.value));
      KeepFirstOfEqualValues(None, fs, fs[i]);
    } else {
      NoValueStaysNull(None, fs);
    }
  }

  lemma OverwrittenColumn(x: Execution, reports: seq<Report>, c: Column)
    requires reports != [] && RuleOf(c) == Overwrite
    ensures CellOf(RowOneByOne(None, UpdatesOf(x, reports)), c) ==
            Some(Bound(ReportField(x, reports[|reports| - 1], c)))
  {
    hide ColumnOf, UpdatesOf, RowOneByOne, ReportField, RuleOf, OneByOne, LastSet, NoValue, Bound;
    FieldsOf(x, reports, c);
    OneMoreWrite(Overwrite, None, ColumnOf(UpdatesOf(x, reports), c));
  }

  lemma LastColumns(x: Execution, reports: seq<Report>)
    requires reports != []
    ensures
      var row, last := RowOneByOne(None, UpdatesOf(x, reports)), reports[|reports| - 1].event;
      && CellOf(row, RowStatus) == Some(Text(StatusText(last)))
      && CellOf(row, RowError) == Some(if last.Failed? then Text(last.error) else Null)
  {
    OverwrittenColumn(x, reports, RowStatus);
    OverwrittenColumn(x, reports, RowError);
    hide OneByOne, ColumnOf, UpdatesOf, RowOneByOne, LastSet, CellOf;
  }

  lemma AttemptsColumn(x: Execution, reports: seq<Report>)
    requires reports != []
    ensures
      var cell := CellOf(RowOneByOne(None, UpdatesOf(x, reports)), Attempts);
      cell.Some? && IsHighest(reports, cell.value)
  {
    var fs := ColumnOf(UpdatesOf(x, reports), Attempts);
    FieldsOf(x, reports, Attempts);
    hide OneByOne, ColumnOf, UpdatesOf, RowOneByOne;
    GreatestIsMaximum(None, fs);
    var cell := OneByOne(Greatest, None, fs).value;
    var i :| 0 <= i < |fs| && fs[i] == Set(cell);
    assert reports[i].attempt as real == cell.n;
    assert forall j :: 0 <= j < |fs| ==> fs[j].cell.n == reports[j].attempt as real;
  }

  lemma ReadingField(x: Execution, r: Report, c: Column)
    requires IsReading(c)
    ensures RuleOf(c) == LatestNonNull && Bound(ReportField(x, r, c)) == Shown(Reading(r.event, c))
  {
  }

  lemma ReadingNext(x: Execution, reports: seq<Report>, c: Column)
    requires reports != [] && IsReading(c)
    ensures
      var n := |reports| - 1;
      var now, earlier := Reading(reports[n].event, c), CellOf(RowOneByOne(None, UpdatesOf(x, reports[..n])), c);
      CellOf(RowOneByOne(None, UpdatesOf(x, reports)), c) ==
      Some(if now.Some? || n == 0 then Shown(now) else if earlier.Some? then earlier.value else Null)
  {
    var fs, n := ColumnOf(UpdatesOf(x, reports), c), |reports| - 1;
    ReadingField(x, reports[n], c);
    ReadingPrefix(x, reports, c);
    hide ColumnOf, UpdatesOf, RowOneByOne, ReportField, RuleOf, OneByOne, LastSet, NoValue, Reading, IsReading, CellOf;
    FieldsOf(x, reports, c);
    OneMoreWrite(LatestNonNull, None, fs);
  }

  lemma ReadingPrefix(x: Execution, reports: seq<Report>, c: Column)
    requires reports != []
    ensures
      var n := |reports| - 1;
      CellOf(RowOneByOne(None, UpdatesOf(x, reports[..n])), c) ==
      OneByOne(RuleOf(c), None, ColumnOf(UpdatesOf(x, reports), c)[..n])
  {
    var n := |reports| - 1;
    OneByOneColumn(None, UpdatesOf(x, reports[..n]), c);
    hide ReportField, OneByOne, RowOneByOne, RuleOf;
    assert ColumnOf(UpdatesOf(x, reports[..n]), c) == ColumnOf(UpdatesOf(x, reports), c)[..n];
  }

  lemma {:induction false} ReadingColumn(x: Execution, reports: seq<Report>, c: Column)
    requires reports != [] && IsReading(c)
    ensures CellOf(RowOneByOne(None, UpdatesOf(x, reports)), c) == Some(Shown(LastReading(reports, c)))
  {
    var n := |reports| - 1;
    ReadingNext(x, reports, c);
    hide ColumnOf, UpdatesOf, RowOneByOne, IsReading, CellOf, Reading;
    if n > 0 {
      ReadingColumn(x, reports[..n], c);
    } else {
      assert reports[..n] == [];
    }
  }

  /**
   * Written report by report, the row of an execution says what it is, how its last report left it, the highest
   * attempt, and the last reading of each time and duration.
   */
  lemma RowTellsTheReports(x: Execution, reports: seq<Report>)
    requires reports != []
    ensures
      var row, last := RowOneByOne(None, UpdatesOf(x, reports)), reports[|reports| - 1].event;
      && (forall c :: FixedCell(x, reports[0], c).Some? ==> CellOf(row, c) == FixedCell(x, reports[0], c))
      && CellOf(row, RowStatus) == Some(Text(StatusText(last)))
      && CellOf(row, RowError) == Some(if last.Failed? then Text(last.error) else Null)
      && CellOf(row, TriggerPayload) ==
         Some(if AnyStarted(reports) && x.payload.Some? then Text(x.payload.value) else Null)
      && (CellOf(row, Attempts).Some? && IsHighest(reports, CellOf(row, Attempts).value))
      && (forall c :: IsReading(c) ==> CellOf(row, c) == Some(Shown(LastReading(reports, c))))
  {
    hide *;
    LastColumns(x, reports);
    PayloadColumn(x, reports);
    AttemptsColumn(x, reports);
    forall c | FixedCell(x, reports[0], c).Some?
      ensures CellOf(RowOneByOne(None, UpdatesOf(x, reports)), c) == FixedCell(x, reports[0], c)
    {
      FixedColumns(x, reports, c);
    }
    forall c | IsReading(c)
      ensures CellOf(RowOneByOne(None, UpdatesOf(x, reports)), c) == Some(Shown(LastReading(reports, c)))
    {
      ReadingColumn(x, reports, c);
    }
  }
}
