/** Requeueing and discarding dead letters by any number of operators (scripts/requeue-dead-letters.ts). */
module DeadLetters {
  import opened Collections

  type RowId = string
  type OperatorId = string

  datatype Status = Pending | Requeued | Discarded

  datatype Row = Row(status: Status, payloadIsJob: bool, requeuedAt: Option<real>, requeueJobId: Option<string>)

  /** What an operator is doing with the row at the head of its list. */
  datatype Phase =
    | Looking
    | Claimed(row: RowId)               // conditional update won; the queue is next
    | Added(row: RowId, jobId: string)  // job enqueued; noting its id is next
    | Failing(row: RowId)               // something threw; putting the row back is next
    | Crashed(held: Option<RowId>)      // an error left the loop

  datatype Operator = Operator(todo: seq<RowId>, phase: Phase, requeued: nat)

  datatype State = State(rows: map<RowId, Row>, queue: seq<(RowId, string)>, operators: map<OperatorId, Operator>)

  datatype Step =
    | Bury(row: RowId, payloadIsJob: bool)   // the worker writes a new dead letter
    | Start(op: OperatorId, found: seq<RowId>)
    | Skip(op: OperatorId)
    | Claim(op: OperatorId, now: real)
    | ClaimFails(op: OperatorId)
    | Enqueue(op: OperatorId, jobId: string)
    | EnqueueFails(op: OperatorId)
    | Note(op: OperatorId)
    | NoteFails(op: OperatorId)
    | Revert(op: OperatorId)
    | RevertFails(op: OperatorId)
    | Discard(chosen: set<RowId>)

  const INITIAL := State(map[], [], map[])

  predicate IsPending(rows: map<RowId, Row>, row: RowId) {
    row in rows && rows[row].status == Pending
  }

  predicate IsDiscarded(rows: map<RowId, Row>, row: RowId) {
    row in rows && rows[row].status == Discarded
  }

  /** The operator has `row` at the head of its list and is about to look at it. */
  predicate LooksAt(s: State, op: OperatorId, row: RowId) {
    && op in s.operators && s.operators[op].phase == Looking
    && s.operators[op].todo != [] && s.operators[op].todo[0] == row && row in s.rows
  }

  predicate Working(s: State, op: OperatorId) {
    op in s.operators && s.operators[op].todo != [] && LooksAt(s, op, s.operators[op].todo[0])
  }

  ghost predicate Enabled(s: State, e: Step) {
    match e
    case Bury(row, _) => row !in s.rows
    case Start(op, found) =>
      op !in s.operators && NoDuplicates(found) && forall row :: row in found ==> IsPending(s.rows, row)
    case Skip(op) => Working(s, op) && !s.rows[s.operators[op].todo[0]].payloadIsJob
    case Claim(op, _) => Working(s, op) && s.rows[s.operators[op].todo[0]].payloadIsJob
    case ClaimFails(op) => Working(s, op) && s.rows[s.operators[op].todo[0]].payloadIsJob
    case Enqueue(op, _) => op in s.operators && s.operators[op].phase.Claimed?
    case EnqueueFails(op) => op in s.operators && s.operators[op].phase.Claimed?
    case Note(op) => op in s.operators && s.operators[op].phase.Added? && s.operators[op].phase.row in s.rows
    case NoteFails(op) => op in s.operators && s.operators[op].phase.Added?
    case Revert(op) => op in s.operators && s.operators[op].phase.Failing? && s.operators[op].phase.row in s.rows
    case RevertFails(op) => op in s.operators && s.operators[op].phase.Failing?
    case Discard(_) => true
  }

  function Tail(todo: seq<RowId>): seq<RowId> {
    if todo == [] then [] else todo[1..]
  }

  function Set(s: State, op: OperatorId, phase: Phase): State
    requires op in s.operators
  {
    s.(operators := s.operators[op := s.operators[op].(phase := phase)])
  }

  /** The loop moves on to the operator's next row. */
  function Next(s: State, op: OperatorId, requeued: nat): State
    requires op in s.operators
  {
    var o := s.operators[op];
    s.(operators := s.operators[op := Operator(Tail(o.todo), Looking, o.requeued + requeued)])
  }

  function SetStatus(rows: map<RowId, Row>, row: RowId, status: Status, at: Option<real>): map<RowId, Row>
    requires row in rows
  {
    rows[row := rows[row].(status := status, requeuedAt := at)]
  }

  ghost function Apply(s: State, e: Step): State
    requires Enabled(s, e)
  {
    match e
    case Bury(row, payloadIsJob) => s.(rows := s.rows[row := Row(Pending, payloadIsJob, None, None)])
    case Start(op, found) => s.(operators := s.operators[op := Operator(found, Looking, 0)])
    case Skip(op) => Next(s, op, 0)
    case Claim(op, now) =>
      var row := s.operators[op].todo[0];
      if s.rows[row].status != Pending then Next(s, op, 0)
      else Set(s, op, Claimed(row)).(rows := SetStatus(s.rows, row, Requeued, Some(now)))
    case ClaimFails(op) => Set(s, op, Crashed(None))
    case Enqueue(op, jobId) =>
      var row := s.operators[op].phase.row;
      Set(s, op, Added(row, jobId)).(queue := s.queue + [(row, jobId)])
    case EnqueueFails(op) => Set(s, op, Failing(s.operators[op].phase.row))
    case Note(op) =>
      var phase := s.operators[op].phase;
      Next(s, op, 1).(rows := s.rows[phase.row := s.rows[phase.row].(requeueJobId := Some(phase.jobId))])
    case NoteFails(op) => Set(s, op, Failing(s.operators[op].phase.row))
    case Revert(op) => Next(s, op, 0).(rows := SetStatus(s.rows, s.operators[op].phase.row, Pending, None))
    case RevertFails(op) => Set(s, op, Crashed(Some(s.operators[op].phase.row)))
    case Discard(chosen) =>
      s.(rows := map row | row in s.rows ::
           if row in chosen && s.rows[row].status == Pending then s.rows[row].(status := Discarded) else s.rows[row])
  }

  ghost predicate Runs(s: State, steps: seq<Step>)
    decreases |steps|
  {
    steps == [] || (Enabled(s, steps[0]) && Runs(Apply(s, steps[0]), steps[1..]))
  }

  ghost function After(s: State, steps: seq<Step>): State
    requires Runs(s, steps)
    decreases |steps|
  {
    if steps == [] then s else After(Apply(s, steps[0]), steps[1..])
  }

  /** Noting the job id of a successful enqueue never throws. */
  ghost predicate Safe(steps: seq<Step>) {
    forall e :: e in steps ==> !e.NoteFails?
  }

  /** How often `row` has been enqueued. */
  function Times(queue: seq<(RowId, string)>, row: RowId): nat {
    if queue == [] then 0
    else Times(queue[..|queue| - 1], row) + if queue[|queue| - 1].0 == row then 1 else 0
  }

  lemma TimesAppend(queue: seq<(RowId, string)>, row: RowId, jobId: string, other: RowId)
    ensures Times(queue + [(row, jobId)], other) == Times(queue, other) + if other == row then 1 else 0
  {
    assert (queue + [(row, jobId)])[..|queue|] == queue;
  }

  function Held(phase: Phase): Option<RowId> {
    match phase
    case Looking => None
    case Claimed(row) => Some(row)
    case Added(row, _) => Some(row)
    case Failing(row) => Some(row)
    case Crashed(held) => held
  }

  function HeldBy(s: State, op: OperatorId): Option<RowId> {
    if op in s.operators then Held(s.operators[op].phase) else None
  }

  /** The operator holds `row` and its job is not in the queue. */
  predicate Owes(s: State, op: OperatorId, row: RowId) {
    HeldBy(s, op) == Some(row) && !s.operators[op].phase.Added?
  }

  ghost predicate SomeoneOwes(s: State, row: RowId) {
    exists op :: Owes(s, op, row)
  }

  ghost predicate Exclusive(s: State) {
    forall a, b :: a != b && HeldBy(s, a).Some? ==> HeldBy(s, a) != HeldBy(s, b)
  }

  ghost predicate HeldRowsAreRequeued(s: State) {
    forall op :: HeldBy(s, op).Some? ==> HeldBy(s, op).value in s.rows && s.rows[HeldBy(s, op).value].status == Requeued
  }

  /**
   * A row's job is in the queue exactly once if the row is requeued and nobody still owes it, and otherwise not at all.
   */
  ghost predicate Accounted(s: State, row: RowId) {
    Times(s.queue, row) == if row in s.rows && s.rows[row].status == Requeued && !SomeoneOwes(s, row) then 1 else 0
  }

  ghost predicate OnlyJobsRequeued(s: State) {
    forall row :: row in s.rows && s.rows[row].status == Requeued ==> s.rows[row].payloadIsJob
  }

  ghost predicate Inv(s: State) {
    Exclusive(s) && HeldRowsAreRequeued(s) && OnlyJobsRequeued(s) && forall row :: Accounted(s, row)
  }

  lemma ClaimKeepsInv(s: State, op: OperatorId, now: real)
    requires Inv(s) && Enabled(s, Claim(op, now)) && s.rows[s.operators[op].todo[0]].status == Pending
    ensures Inv(Apply(s, Claim(op, now)))
  {
    var row, t := s.operators[op].todo[0], Apply(s, Claim(op, now));
    assert forall a :: a != op ==> HeldBy(t, a) == HeldBy(s, a);
    assert HeldBy(t, op) == Some(row) && forall a :: HeldBy(s, a) != Some(row);
    assert Owes(t, op, row);
    forall other
      ensures Accounted(t, other)
    {
      assert Accounted(s, other);
      if other != row {
        assert forall a :: Owes(t, a, other) <==> Owes(s, a, other);
      }
    }
  }

  lemma EnqueueKeepsInv(s: State, op: OperatorId, jobId: string)
    requires Inv(s) && Enabled(s, Enqueue(op, jobId))
    ensures Inv(Apply(s, Enqueue(op, jobId)))
  {
    var row, t := s.operators[op].phase.row, Apply(s, Enqueue(op, jobId));
    assert Owes(s, op, row) && HeldBy(t, op) == Some(row);
    assert forall a :: a != op ==> HeldBy(t, a) == HeldBy(s, a);
    forall other
      ensures Accounted(t, other)
    {
      assert Accounted(s, other);
      TimesAppend(s.queue, row, jobId, other);
      if other == row {
        assert forall a :: a != op ==> HeldBy(s, a) != Some(row);
        assert forall a :: !Owes(t, a, row);
      } else {
        assert forall a :: Owes(t, a, other) <==> Owes(s, a, other);
      }
    }
  }

  lemma RevertKeepsInv(s: State, op: OperatorId)
    requires Inv(s) && Enabled(s, Revert(op))
    ensures Inv(Apply(s, Revert(op)))
  {
    var row, t := s.operators[op].phase.row, Apply(s, Revert(op));
    assert Owes(s, op, row) && HeldBy(t, op) == None;
    assert forall a :: a != op ==> HeldBy(t, a) == HeldBy(s, a) && HeldBy(s, a) != Some(row);
    forall other
      ensures Accounted(t, other)
    {
      assert Accounted(s, other);
      if other != row {
        assert forall a :: Owes(t, a, other) <==> Owes(s, a, other);
      }
    }
  }

  predicate RequeuedIn(s: State, row: RowId) {
    row in s.rows && s.rows[row].status == Requeued
  }

  /**
   * A step that leaves the queue and the requeued rows as they are, and what every operator holds but for an enqueued
   * row.
   */
  lemma QuietStepKeepsInv(s: State, t: State)
    requires Inv(s) && t.queue == s.queue
    requires forall op :: HeldBy(t, op) == HeldBy(s, op) || (HeldBy(t, op) == None && s.operators[op].phase.Added?)
    requires forall op, row :: Owes(t, op, row) <==> Owes(s, op, row)
    requires forall row :: RequeuedIn(t, row) <==> RequeuedIn(s, row)
    requires OnlyJobsRequeued(t)
    ensures Inv(t)
  {
    assert forall op :: HeldBy(t, op).Some? ==> RequeuedIn(s, HeldBy(t, op).value);
    forall row
      ensures Accounted(t, row)
    {
      assert Accounted(s, row) && RequeuedIn(t, row) == RequeuedIn(s, row);
      if SomeoneOwes(s, row) {
        var op :| Owes(s, op, row);
        assert Owes(t, op, row);
      }
      if SomeoneOwes(t, row) {
        var op :| Owes(t, op, row);
        assert Owes(s, op, row);
      }
    }
  }

  /** The same for a step that moves a single operator on. */
  lemma QuietMoveKeepsInv(s: State, op: OperatorId, todo: seq<RowId>, phase: Phase, requeued: nat)
    requires Inv(s)
    requires HeldBy(s, op) == None ==> Held(phase) == None
    requires HeldBy(s, op).Some? && !s.operators[op].phase.Added? ==> Held(phase) == HeldBy(s, op) && !phase.Added?
    requires HeldBy(s, op).Some? && s.operators[op].phase.Added? ==> Held(phase) == None
    ensures Inv(s.(operators := s.operators[op := Operator(todo, phase, requeued)]))
  {
    var t := s.(operators := s.operators[op := Operator(todo, phase, requeued)]);
    assert forall a :: a != op ==> HeldBy(t, a) == HeldBy(s, a);
    QuietStepKeepsInv(s, t);
  }

  lemma NoteKeepsInv(s: State, op: OperatorId)
    requires Inv(s) && Enabled(s, Note(op))
    ensures Inv(Apply(s, Note(op)))
  {
    var o := s.operators[op];
    var moved, t := Next(s, op, 1), Apply(s, Note(op));
    QuietMoveKeepsInv(s, op, Tail(o.todo), Looking, o.requeued + 1);
    assert forall a :: HeldBy(t, a) == HeldBy(moved, a);
    QuietStepKeepsInv(moved, t);
  }

  lemma StepKeepsInv(s: State, e: Step)
    requires Inv(s) && Enabled(s, e) && !e.NoteFails?
    ensures Inv(Apply(s, e))
  {
    match e
    case Claim(op, now) =>
      if s.rows[s.operators[op].todo[0]].status == Pending {
        ClaimKeepsInv(s, op, now);
      } else {
        QuietMoveKeepsInv(s, op, Tail(s.operators[op].todo), Looking, s.operators[op].requeued);
      }
    case Enqueue(op, jobId) => EnqueueKeepsInv(s, op, jobId);
    case Revert(op) => RevertKeepsInv(s, op);
    case Note(op) => NoteKeepsInv(s, op);
    case Start(op, found) => QuietMoveKeepsInv(s, op, found, Looking, 0);
    case Skip(op) => QuietMoveKeepsInv(s, op, Tail(s.operators[op].todo), Looking, s.operators[op].requeued);
    case ClaimFails(op) => QuietMoveKeepsInv(s, op, s.operators[op].todo, Crashed(None), s.operators[op].requeued);
    case EnqueueFails(op) =>
      QuietMoveKeepsInv(s, op, s.operators[op].todo, Failing(s.operators[op].phase.row), s.operators[op].requeued);
    case RevertFails(op) =>
      QuietMoveKeepsInv(s, op, s.operators[op].todo, Crashed(Some(s.operators[op].phase.row)),
                        s.operators[op].requeued);
    case Bury(row, _) => QuietStepKeepsInv(s, Apply(s, e));
    case Discard(_) => QuietStepKeepsInv(s, Apply(s, e));
  }

  lemma {:induction false} SafeRunKeepsInv(s: State, steps: seq<Step>)
    requires Inv(s) && Runs(s, steps) && Safe(steps)
    ensures Inv(After(s, steps))
    decreases |steps|
  {
    if steps != [] {
      StepKeepsInv(s, steps[0]);
      SafeRunKeepsInv(Apply(s, steps[0]), steps[1..]);
    }
  }

  /** The operator still runs: it will queue `row` or put it back. */
  predicate WillSettle(s: State, op: OperatorId, row: RowId) {
    Owes(s, op, row) && !s.operators[op].phase.Crashed?
  }

  ghost predicate InGoodHands(s: State, row: RowId) {
    exists op :: WillSettle(s, op, row)
  }

  /** `row` is requeued in name only: its job is not in the queue, and nobody who still runs holds it. */
  ghost predicate Stranded(s: State, row: RowId) {
    RequeuedIn(s, row) && Times(s.queue, row) == 0 && !InGoodHands(s, row)
  }

  ghost predicate NoneStranded(s: State) {
    forall row :: !Stranded(s, row)
  }

  /**
   * Whatever the operators do, each row is enqueued at most once and never both enqueued and discarded; and a requeued
   * row that is not in the queue is in the hands of an operator who still runs, or was left behind by one whose
   * put-back failed.
   */
  lemma RequeuedAtMostOnce(steps: seq<Step>, row: RowId)
    requires Runs(INITIAL, steps) && Safe(steps)
    ensures
      var s := After(INITIAL, steps);
      && Times(s.queue, row) <= 1
      && (row in s.rows && s.rows[row].status in {Pending, Discarded} ==> Times(s.queue, row) == 0)
      && (Stranded(s, row) ==> exists op :: op in s.operators && s.operators[op].phase == Crashed(Some(row)))
      && (Reverting(steps) ==> !Stranded(s, row))
  {
    SafeRunKeepsInv(INITIAL, steps);
    var s := After(INITIAL, steps);
    assert Accounted(s, row);
    if Stranded(s, row) {
      var op :| Owes(s, op, row);
      assert !WillSettle(s, op, row);
    }
    if Reverting(steps) {
      RunStrandsNone(INITIAL, steps);
    }
  }

  /** Putting a row back never fails. */
  ghost predicate Reverting(steps: seq<Step>) {
    forall e :: e in steps ==> !e.RevertFails?
  }

  lemma QueueOnlyGrows(s: State, e: Step, row: RowId)
    requires Enabled(s, e)
    ensures Times(Apply(s, e).queue, row) ==
            Times(s.queue, row) + if e.Enqueue? && s.operators[e.op].phase.row == row then 1 else 0
  {
    if e.Enqueue? {
      TimesAppend(s.queue, s.operators[e.op].phase.row, e.jobId, row);
    }
  }

  lemma SettlerStays(s: State, e: Step, op: OperatorId, row: RowId)
    requires Enabled(s, e) && !e.RevertFails? && WillSettle(s, op, row)
    ensures !Stranded(Apply(s, e), row)
  {
    QueueOnlyGrows(s, e, row);
    var t := Apply(s, e);
    assert WillSettle(t, op, row) || !RequeuedIn(t, row) || Times(t.queue, row) > 0;
  }

  lemma ClaimerSettles(s: State, e: Step, row: RowId)
    requires Enabled(s, e) && RequeuedIn(Apply(s, e), row) && !RequeuedIn(s, row)
    ensures e.Claim? && WillSettle(Apply(s, e), e.op, row)
  {
  }

  lemma StepStrandsNone(s: State, e: Step)
    requires NoneStranded(s) && Enabled(s, e) && !e.RevertFails?
    ensures NoneStranded(Apply(s, e))
  {
    forall row
      ensures !Stranded(Apply(s, e), row)
    {
      assert !Stranded(s, row);
      QueueOnlyGrows(s, e, row);
      if InGoodHands(s, row) {
        var op :| WillSettle(s, op, row);
        SettlerStays(s, e, op, row);
      } else if RequeuedIn(Apply(s, e), row) && !RequeuedIn(s, row) {
        ClaimerSettles(s, e, row);
      }
      hide Apply, WillSettle;
    }
  }

  lemma {:induction false} RunStrandsNone(s: State, steps: seq<Step>)
    requires NoneStranded(s) && Runs(s, steps) && Reverting(steps)
    ensures NoneStranded(After(s, steps))
    decreases |steps|
  {
    if steps != [] {
      StepStrandsNone(s, steps[0]);
      RunStrandsNone(Apply(s, steps[0]), steps[1..]);
    }
  }

  /** While an operator takes no step it keeps what it holds, and the row stays requeued. */
  lemma {:induction false} IdleOperatorStays(s: State, steps: seq<Step>, op: OperatorId)
    requires op in s.operators && Runs(s, steps) && forall e :: e in steps ==> !ActsFor(e, op)
    ensures op in After(s, steps).operators && After(s, steps).operators[op] == s.operators[op]
    decreases |steps|
  {
    if steps != [] {
      assert !ActsFor(steps[0], op);
      assert Apply(s, steps[0]).operators[op] == s.operators[op];
      IdleOperatorStays(Apply(s, steps[0]), steps[1..], op);
    }
  }

  predicate ActsFor(e: Step, op: OperatorId) {
    !e.Bury? && !e.Discard? && e.op == op
  }

  /** Requeued, not in the queue, and held by nobody but operators that crashed. */
  ghost predicate Abandoned(s: State, row: RowId) {
    && RequeuedIn(s, row) && Times(s.queue, row) == 0
    && forall op :: HeldBy(s, op) == Some(row) ==> s.operators[op].phase.Crashed?
  }

  lemma AbandonedStays(s: State, e: Step, row: RowId)
    requires Abandoned(s, row) && Enabled(s, e)
    ensures Abandoned(Apply(s, e), row)
  {
    var t := Apply(s, e);
    QueueOnlyGrows(s, e, row);
    forall op | HeldBy(t, op) == Some(row)
      ensures t.operators[op].phase.Crashed?
    {
      assert HeldBy(s, op) == Some(row);
    }
  }

  /** In every run, safe or not, the row is requeued and not in the queue: never queued, put back or discarded again. */
  ghost predicate LostForGood(s: State, row: RowId) {
    forall rest :: Runs(s, rest) ==> RequeuedIn(After(s, rest), row) && Times(After(s, rest).queue, row) == 0
  }

  lemma {:induction false} AbandonedRun(s: State, steps: seq<Step>, row: RowId)
    requires Abandoned(s, row) && Runs(s, steps)
    ensures Abandoned(After(s, steps), row)
    decreases |steps|
  {
    hide Apply, Abandoned;
    if steps != [] {
      AbandonedStays(s, steps[0], row);
      AbandonedRun(Apply(s, steps[0]), steps[1..], row);
    }
  }

  lemma AbandonedIsLostForGood(s: State, row: RowId)
    requires Abandoned(s, row)
    ensures LostForGood(s, row)
  {
    forall rest | Runs(s, rest)
      ensures RequeuedIn(After(s, rest), row) && Times(After(s, rest).queue, row) == 0
    {
      AbandonedRun(s, rest, row);
    }
  }

  lemma StrandedIsAbandoned(s: State, row: RowId)
    requires Inv(s) && Stranded(s, row)
    ensures Abandoned(s, row)
  {
    assert Accounted(s, row);
    var owner :| Owes(s, owner, row);
    forall op | HeldBy(s, op) == Some(row)
      ensures s.operators[op].phase.Crashed?
    {
      assert op == owner && !WillSettle(s, owner, row);
    }
  }

  /** A row is out of everybody's reach for good if and only if whoever holds it has crashed. */
  lemma LostForGoodIffStranded(s: State, row: RowId)
    requires Inv(s)
    ensures LostForGood(s, row) <==> Stranded(s, row)
  {
    if Stranded(s, row) {
      StrandedIsAbandoned(s, row);
      AbandonedIsLostForGood(s, row);
      return;
    }
    assert Runs(s, []) && After(s, []) == s;
    if InGoodHands(s, row) {
      var op :| WillSettle(s, op, row);
      var e := if s.operators[op].phase.Claimed? then Enqueue(op, "") else Revert(op);
      assert Enabled(s, e);
      QueueOnlyGrows(s, e, row);
      Prepend(s, e, []);
    }
  }

  /** Some continuation that loses no note queues `row` (again). */
  ghost predicate CanBeEnqueued(s: State, row: RowId) {
    exists rest :: EnqueuedBy(s, rest, row)
  }

  ghost predicate EnqueuedBy(s: State, rest: seq<Step>, row: RowId) {
    Runs(s, rest) && Safe(rest) && Times(After(s, rest).queue, row) > Times(s.queue, row)
  }

  /** Nobody will queue `row` or put it back, and it cannot be claimed. */
  ghost predicate Resting(s: State, row: RowId) {
    row in s.rows && !InGoodHands(s, row) && (s.rows[row].status == Pending ==> !s.rows[row].payloadIsJob)
  }

  lemma RestingRowRests(s: State, e: Step, row: RowId)
    requires Resting(s, row) && Enabled(s, e) && !e.NoteFails?
    ensures Resting(Apply(s, e), row) && Times(Apply(s, e).queue, row) == Times(s.queue, row)
  {
    var t := Apply(s, e);
    QueueOnlyGrows(s, e, row);
    if e.Enqueue? || e.Revert? {
      assert !WillSettle(s, e.op, row);
    }
    forall op
      ensures !WillSettle(t, op, row)
    {
      assert !WillSettle(s, op, row);
    }
  }

  lemma {:induction false} RestingRowIsNotEnqueued(s: State, steps: seq<Step>, row: RowId)
    requires Resting(s, row) && Runs(s, steps) && Safe(steps)
    ensures Times(After(s, steps).queue, row) == Times(s.queue, row)
    decreases |steps|
  {
    hide Apply, Resting, Times;
    if steps != [] {
      RestingRowRests(s, steps[0], row);
      RestingRowIsNotEnqueued(Apply(s, steps[0]), steps[1..], row);
    }
  }

  lemma OneMoreEnqueue(s: State, rest: seq<Step>, row: RowId, jobId: string)
    requires Runs(s, rest) && Safe(rest) && After(s, rest).queue == s.queue + [(row, jobId)]
    ensures CanBeEnqueued(s, row)
  {
    TimesAppend(s.queue, row, jobId, row);
    assert EnqueuedBy(s, rest, row);
  }

  /** A row can still be queued if and only if it is a pending job or in the hands of an operator who still runs. */
  lemma EnqueueableIff(s: State, row: RowId, other: OperatorId, jobId: string)
    requires Inv(s) && row in s.rows && other !in s.operators && Unused(s.queue, jobId)
    ensures CanBeEnqueued(s, row) <==> InGoodHands(s, row) || (IsPending(s.rows, row) && s.rows[row].payloadIsJob)
  {
    if InGoodHands(s, row) {
      var op :| WillSettle(s, op, row);
      if s.operators[op].phase.Claimed? {
        Prepend(s, Enqueue(op, jobId), []);
        OneMoreEnqueue(s, [Enqueue(op, jobId)], row, jobId);
      } else {
        var rest := PendingRowIsEnqueued(Apply(s, Revert(op)), other, row, jobId);
        Prepend(s, Revert(op), rest);
        OneMoreEnqueue(s, [Revert(op)] + rest, row, jobId);
      }
    } else if IsPending(s.rows, row) && s.rows[row].payloadIsJob {
      var rest := PendingRowIsEnqueued(s, other, row, jobId);
      OneMoreEnqueue(s, rest, row, jobId);
    } else {
      forall rest | Runs(s, rest) && Safe(rest)
        ensures !EnqueuedBy(s, rest, row)
      {
        RestingRowIsNotEnqueued(s, rest, row);
      }
    }
  }

  /** An enqueue has failed, and others have acted since: the operator can only put the row back, or fail to. */
  lemma AfterFailedEnqueue(s: State, op: OperatorId, between: seq<Step>)
    requires Inv(s) && Enabled(s, EnqueueFails(op))
    requires
      var failed := Apply(s, EnqueueFails(op));
      Runs(failed, between) && Safe(between) && forall e :: e in between ==> !ActsFor(e, op)
    ensures
      var row, t := s.operators[op].phase.row, After(Apply(s, EnqueueFails(op)), between);
      && Inv(t) && HeldBy(t, op) == Some(row) && RequeuedIn(t, row) && Times(t.queue, row) == 0
      && (forall e :: ActsFor(e, op) ==> (Enabled(t, e) <==> e == Revert(op) || e == RevertFails(op)))
  {
    var row, failed := s.operators[op].phase.row, Apply(s, EnqueueFails(op));
    StepKeepsInv(s, EnqueueFails(op));
    SafeRunKeepsInv(failed, between);
    IdleOperatorStays(failed, between, op);
    var t := After(failed, between);
    assert HeldBy(t, op) == Some(row) && Owes(t, op, row);
    assert Accounted(t, row);
  }

  /**
   * A failed enqueue is made good if and only if putting the row back does not fail too: then the row is pending and
   * can be queued again. Otherwise it stays requeued and out of the queue for good, whatever anybody does.
   */
  lemma FailedEnqueueIsMadeGoodIffReverted(s: State, op: OperatorId, between: seq<Step>, e: Step, other: OperatorId,
                                           jobId: string)
    requires Inv(s) && Enabled(s, EnqueueFails(op))
    requires
      var failed := Apply(s, EnqueueFails(op));
      Runs(failed, between) && Safe(between) && forall e :: e in between ==> !ActsFor(e, op)
    requires
      var t := After(Apply(s, EnqueueFails(op)), between);
      Enabled(t, e) && ActsFor(e, op) && other !in t.operators && Unused(t.queue, jobId)
    ensures
      var row, u := s.operators[op].phase.row, Apply(After(Apply(s, EnqueueFails(op)), between), e);
      && (IsPending(u.rows, row) <==> e == Revert(op))
      && (CanBeEnqueued(u, row) <==> e == Revert(op))
      && (LostForGood(u, row) <==> e == RevertFails(op))
  {
    AfterFailedEnqueue(s, op, between);
    var row, t := s.operators[op].phase.row, After(Apply(s, EnqueueFails(op)), between);
    var u := Apply(t, e);
    StepKeepsInv(t, e);
    assert forall a :: a != op ==> HeldBy(u, a) == HeldBy(t, a) && HeldBy(t, a) != Some(row);
    EnqueueableIff(u, row, other, jobId);
    if e == Revert(op) {
      assert t.rows[row].payloadIsJob;
      assert Runs(u, []) && After(u, []) == u;
    } else {
      LostForGoodIffStranded(u, row);
    }
  }

  /** `q` has grown by jobs whose ids nobody had used; the queue ignores a job whose id it knows. */
  ghost predicate GrownByNewIds(before: seq<(RowId, string)>, q: seq<(RowId, string)>) {
    before <= q && forall i, j :: 0 <= i < j < |q| && |before| <= j ==> q[i].1 != q[j].1
  }

  ghost predicate Unused(queue: seq<(RowId, string)>, jobId: string) {
    forall i :: 0 <= i < |queue| ==> queue[i].1 != jobId
  }

  /** No safe continuation of `s` enqueues a row twice. */
  ghost predicate NeverTwice(s: State) {
    forall rest, row :: Runs(s, rest) && Safe(rest) && GrownByNewIds(s.queue, After(s, rest).queue) ==>
      Times(After(s, rest).queue, row) <= 1
  }

  /** No safe continuation of `s` enqueues and discards the same row. */
  ghost predicate NeverBoth(s: State) {
    forall rest, row :: Runs(s, rest) && Safe(rest) && IsDiscarded(After(s, rest).rows, row) ==>
      Times(After(s, rest).queue, row) == 0
  }

  /** No continuation of `s` that puts back what it has to leaves a row behind. */
  ghost predicate NeverStrands(s: State) {
    forall rest :: Runs(s, rest) && Reverting(rest) ==> NoneStranded(After(s, rest))
  }

  lemma Prepend(s: State, e: Step, rest: seq<Step>)
    requires Enabled(s, e) && Runs(Apply(s, e), rest)
    ensures Runs(s, [e] + rest) && After(s, [e] + rest) == After(Apply(s, e), rest)
  {
    assert ([e] + rest)[1..] == rest;
  }

  /** An operator that finds a pending row can enqueue it, under any job id. */
  lemma PendingRowIsEnqueued(s: State, other: OperatorId, row: RowId, jobId: string) returns (rest: seq<Step>)
    requires other !in s.operators && IsPending(s.rows, row) && s.rows[row].payloadIsJob
    ensures Runs(s, rest) && Safe(rest) && After(s, rest).queue == s.queue + [(row, jobId)]
  {
    var s1 := Apply(s, Start(other, [row]));
    var s2 := Apply(s1, Claim(other, 0.0));
    Prepend(s2, Enqueue(other, jobId), []);
    Prepend(s1, Claim(other, 0.0), [Enqueue(other, jobId)]);
    rest := [Start(other, [row])] + ([Claim(other, 0.0)] + [Enqueue(other, jobId)]);
    Prepend(s, Start(other, [row]), [Claim(other, 0.0)] + [Enqueue(other, jobId)]);
  }

  /** When noting the job id fails, the row is put back although its job is queued: it can be queued again. */
  lemma LostNoteEnqueuesTwice(s: State, op: OperatorId, other: OperatorId, jobId: string)
    requires Inv(s) && Enabled(s, NoteFails(op)) && other !in s.operators && Unused(s.queue, jobId)
    ensures !NeverTwice(Apply(s, NoteFails(op)))
  {
    var row, s0 := s.operators[op].phase.row, Apply(s, NoteFails(op));
    assert Accounted(s, row);
    assert HeldBy(s, op) == Some(row) && forall a :: !Owes(s, a, row);
    var s1 := Apply(s0, Revert(op));
    assert s0.queue == s1.queue == s.queue;
    var more := PendingRowIsEnqueued(s1, other, row, jobId);
    Prepend(s0, Revert(op), more);
    hide Inv, Owes, Accounted, SomeoneOwes, Apply;
    var rest := [Revert(op)] + more;
    TimesAppend(s.queue, row, jobId, row);
    assert GrownByNewIds(s.queue, s.queue + [(row, jobId)]);
    assert Runs(s0, rest) && Safe(rest) && Times(After(s0, rest).queue, row) == 2;
  }

  /** Or discarded, while its job runs. */
  lemma LostNoteDiscardsQueuedRow(s: State, op: OperatorId)
    requires Inv(s) && Enabled(s, NoteFails(op))
    ensures !NeverBoth(Apply(s, NoteFails(op)))
  {
    var row, s0 := s.operators[op].phase.row, Apply(s, NoteFails(op));
    assert Accounted(s, row);
    assert HeldBy(s, op) == Some(row) && forall a :: !Owes(s, a, row);
    var s1 := Apply(s0, Revert(op));
    Prepend(s1, Discard({row}), []);
    Prepend(s0, Revert(op), [Discard({row})]);
    var rest := [Revert(op)] + [Discard({row})];
    assert Runs(s0, rest) && Safe(rest);
    assert After(s0, rest).rows[row].status == Discarded && Times(After(s0, rest).queue, row) == 1;
  }

  lemma LostRevertStrands(s: State, op: OperatorId)
    requires Inv(s) && Enabled(s, RevertFails(op))
    ensures !NeverStrands(Apply(s, RevertFails(op)))
  {
    var row, t := s.operators[op].phase.row, Apply(s, RevertFails(op));
    assert Owes(s, op, row) && HeldBy(s, op) == Some(row) && Accounted(s, row);
    assert forall a :: a != op ==> HeldBy(t, a) == HeldBy(s, a);
    assert Stranded(t, row);
    assert Runs(t, []) && Reverting([]) && After(t, []) == t;
  }

  lemma KeptPromise(s: State)
    requires Inv(s)
    ensures NeverTwice(s) && NeverBoth(s)
  {
    forall rest, row | Runs(s, rest) && Safe(rest)
      ensures Times(After(s, rest).queue, row) <= 1
      ensures IsDiscarded(After(s, rest).rows, row) ==> Times(After(s, rest).queue, row) == 0
    {
      SafeRunKeepsInv(s, rest);
      assert Accounted(After(s, rest), row);
    }
  }

  /**
   * Which failure costs which promise: queued once and not discarded as well, a failure to note the job id; put back if
   * not queued, a failure to put back. No other step costs any of them.
   */
  lemma EachPromiseHasOneFlaw(s: State, e: Step, other: OperatorId, jobId: string)
    requires Inv(s) && NoneStranded(s) && Enabled(s, e) && other !in s.operators && Unused(s.queue, jobId)
    ensures NeverTwice(Apply(s, e)) <==> !e.NoteFails?
    ensures NeverBoth(Apply(s, e)) <==> !e.NoteFails?
    ensures NeverStrands(Apply(s, e)) <==> !e.RevertFails?
  {
    if e.NoteFails? {
      LostNoteEnqueuesTwice(s, e.op, other, jobId);
      LostNoteDiscardsQueuedRow(s, e.op);
    } else {
      StepKeepsInv(s, e);
      KeptPromise(Apply(s, e));
    }
    if e.RevertFails? {
      LostRevertStrands(s, e.op);
    } else {
      StepStrandsNone(s, e);
      forall rest | Runs(Apply(s, e), rest) && Reverting(rest)
        ensures NoneStranded(After(Apply(s, e), rest))
      {
        RunStrandsNone(Apply(s, e), rest);
      }
    }
  }

  /** What becomes of one row of the list, as far as the database and the queue decide it. */
  datatype Outcome =
    | ClaimThrows
    | EnqueueThrows(revertThrows: bool)
    | NoteThrows(jobId: string, revertThrows: bool)
    | Succeeds(jobId: string)

  datatype Pass = Pass(rows: map<RowId, Row>, queue: seq<(RowId, string)>, requeued: nat, crashed: bool)

  /** One round of the loop when no other operator interferes. */
  function Round(p: Pass, row: RowId, now: real, outcome: Outcome): Pass
    requires row in p.rows
  {
    if !p.rows[row].payloadIsJob then p
    else if outcome.ClaimThrows? then p.(crashed := true)
    else if p.rows[row].status != Pending then p
    else
      var claimed := p.(rows := SetStatus(p.rows, row, Requeued, Some(now)));
      var reverted := p.(rows := SetStatus(p.rows, row, Pending, None));
      match outcome
      case EnqueueThrows(revertThrows) => if revertThrows then claimed.(crashed := true) else reverted
      case NoteThrows(jobId, revertThrows) =>
        (if revertThrows then claimed.(crashed := true) else reverted).(queue := p.queue + [(row, jobId)])
      case Succeeds(jobId) =>
        claimed.(rows := claimed.rows[row := claimed.rows[row].(requeueJobId := Some(jobId))],
                 queue := p.queue + [(row, jobId)],
                 requeued := p.requeued + 1)
  }

  function Rounds(p: Pass, found: seq<RowId>, now: real, outcomes: seq<Outcome>): Pass
    requires |found| == |outcomes| && forall row :: row in found ==> row in p.rows
    decreases |found|
  {
    if found == [] || p.crashed then p
    else
      assert forall row :: row in found[1..] ==> row in found;
      Rounds(Round(p, found[0], now, outcomes[0]), found[1..], now, outcomes[1..])
  }

  class RequeueScript {
    var rows: map<RowId, Row>
    var queue: seq<(RowId, string)>

    method Requeue(found: seq<RowId>, now: real, outcomes: seq<Outcome>) returns (requeued: nat, crashed: bool)
      requires |found| == |outcomes| && forall row :: row in found ==> row in rows
      modifies this
      ensures Pass(rows, queue, requeued, crashed) ==
              Rounds(Pass(old(rows), old(queue), 0, false), found, now, outcomes)
    {
      requeued, crashed := 0, false;
      var i := 0;
      while i < |found|
        invariant 0 <= i <= |found| && !crashed
        invariant forall row :: row in found ==> row in rows
        invariant Rounds(Pass(rows, queue, requeued, false), found[i..], now, outcomes[i..]) ==
                  Rounds(Pass(old(rows), old(queue), 0, false), found, now, outcomes)
      {
        var row, outcome := found[i], outcomes[i];
        assert found[i..][1..] == found[i + 1..] && outcomes[i..][1..] == outcomes[i + 1..];
        i := i + 1;
        if !rows[row].payloadIsJob {
          continue;
        }
        if outcome.ClaimThrows? {
          return requeued, true;
        }
        if rows[row].status != Pending {
          continue;
        }
        ghost var before := rows;
        rows := SetStatus(rows, row, Requeued, Some(now));
        if outcome.EnqueueThrows? {
          if outcome.revertThrows {
            return requeued, true;
          }
          rows := SetStatus(rows, row, Pending, None);
          assert rows == SetStatus(before, row, Pending, None);
          continue;
        }
        queue := queue + [(row, outcome.jobId)];
        if outcome.NoteThrows? {
          if outcome.revertThrows {
            return requeued, true;
          }
          rows := SetStatus(rows, row, Pending, None);
          assert rows == SetStatus(before, row, Pending, None);
          continue;
        }
        rows := rows[row := rows[row].(requeueJobId := Some(outcome.jobId))];
        requeued := requeued + 1;
      }
    }
  }

  /** The protocol steps one round takes once it has claimed its row. */
  function StepsAfterClaim(op: OperatorId, outcome: Outcome): seq<Step>
    requires !outcome.ClaimThrows?
  {
    match outcome
    case EnqueueThrows(revertThrows) => [EnqueueFails(op)] + [if revertThrows then RevertFails(op) else Revert(op)]
    case NoteThrows(jobId, revertThrows) =>
      [Enqueue(op, jobId)] + ([NoteFails(op)] + [if revertThrows then RevertFails(op) else Revert(op)])
    case Succeeds(jobId) => [Enqueue(op, jobId)] + [Note(op)]
  }

  function RoundSteps(op: OperatorId, r: Row, now: real, outcome: Outcome): seq<Step> {
    if !r.payloadIsJob then [Skip(op)]
    else if outcome.ClaimThrows? then [ClaimFails(op)]
    else if r.status != Pending then [Claim(op, now)]
    else [Claim(op, now)] + StepsAfterClaim(op, outcome)
  }

  function PassOf(s: State, op: OperatorId): Pass
    requires op in s.operators
  {
    Pass(s.rows, s.queue, s.operators[op].requeued, s.operators[op].phase.Crashed?)
  }

  /** `s` is where operator `op` stands after the pass `p`, with `todo` still to look at. */
  ghost predicate Reached(s: State, op: OperatorId, todo: seq<RowId>, p: Pass) {
    op in s.operators && PassOf(s, op) == p && (p.crashed || s.operators[op] == Operator(todo, Looking, p.requeued))
  }

  ghost predicate AtPendingJob(s: State, op: OperatorId, todo: seq<RowId>, p: Pass) {
    Reached(s, op, todo, p) && todo != [] && !p.crashed && IsPending(p.rows, todo[0]) && p.rows[todo[0]].payloadIsJob
  }

  ghost predicate ClaimedRoundIsARun(s: State, op: OperatorId, todo: seq<RowId>, p: Pass, now: real, outcome: Outcome)
    requires AtPendingJob(s, op, todo, p) && !outcome.ClaimThrows?
  {
    var claimed := Apply(s, Claim(op, now));
    && Runs(claimed, StepsAfterClaim(op, outcome))
    && Reached(After(claimed, StepsAfterClaim(op, outcome)), op, todo[1..], Round(p, todo[0], now, outcome))
  }

  lemma SetStatusTwice(rows: map<RowId, Row>, row: RowId, now: real)
    requires row in rows
    ensures SetStatus(SetStatus(rows, row, Requeued, Some(now)), row, Pending, None) ==
            SetStatus(rows, row, Pending, None)
  {
  }

  lemma ThrownEnqueueIsARun(s: State, op: OperatorId, todo: seq<RowId>, p: Pass, now: real, outcome: Outcome)
    requires AtPendingJob(s, op, todo, p) && outcome.EnqueueThrows?
    ensures ClaimedRoundIsARun(s, op, todo, p, now, outcome)
  {
    var s1 := Apply(s, Claim(op, now));
    SetStatusTwice(s.rows, todo[0], now);
    Prepend(s1, EnqueueFails(op), [if outcome.revertThrows then RevertFails(op) else Revert(op)]);
  }

  lemma LostNoteIsARun(s: State, op: OperatorId, todo: seq<RowId>, p: Pass, now: real, outcome: Outcome)
    requires AtPendingJob(s, op, todo, p) && outcome.NoteThrows?
    ensures ClaimedRoundIsARun(s, op, todo, p, now, outcome)
  {
    var s1 := Apply(s, Claim(op, now));
    SetStatusTwice(s.rows, todo[0], now);
    var last := if outcome.revertThrows then RevertFails(op) else Revert(op);
    Prepend(Apply(s1, Enqueue(op, outcome.jobId)), NoteFails(op), [last]);
    Prepend(s1, Enqueue(op, outcome.jobId), [NoteFails(op)] + [last]);
  }

  lemma SuccessIsARun(s: State, op: OperatorId, todo: seq<RowId>, p: Pass, now: real, outcome: Outcome)
    requires AtPendingJob(s, op, todo, p) && outcome.Succeeds?
    ensures ClaimedRoundIsARun(s, op, todo, p, now, outcome)
  {
    Prepend(Apply(s, Claim(op, now)), Enqueue(op, outcome.jobId), [Note(op)]);
  }

  lemma RoundIsARun(s: State, op: OperatorId, todo: seq<RowId>, p: Pass, now: real, outcome: Outcome)
    requires todo != [] && !p.crashed && todo[0] in p.rows && Reached(s, op, todo, p)
    ensures
      var steps := RoundSteps(op, p.rows[todo[0]], now, outcome);
      Runs(s, steps) && Reached(After(s, steps), op, todo[1..], Round(p, todo[0], now, outcome))
  {
    var row := todo[0];
    if p.rows[row].payloadIsJob && p.rows[row].status == Pending && !outcome.ClaimThrows? {
      match outcome {
        case EnqueueThrows(_) => ThrownEnqueueIsARun(s, op, todo, p, now, outcome);
        case NoteThrows(_, _) => LostNoteIsARun(s, op, todo, p, now, outcome);
        case Succeeds(_) => SuccessIsARun(s, op, todo, p, now, outcome);
      }
      Prepend(s, Claim(op, now), StepsAfterClaim(op, outcome));
    }
  }

  lemma {:induction false} Chain(s: State, a: seq<Step>, b: seq<Step>)
    requires Runs(s, a) && Runs(After(s, a), b)
    ensures Runs(s, a + b) && After(s, a + b) == After(After(s, a), b)
    decreases |a|
  {
    if a == [] {
      assert a + b == b;
    } else {
      Chain(Apply(s, a[0]), a[1..], b);
      assert (a + b)[1..] == a[1..] + b;
    }
  }

  ghost predicate IsARunTo(s: State, op: OperatorId, steps: seq<Step>, todo: seq<RowId>, p: Pass) {
    Runs(s, steps) && Reached(After(s, steps), op, todo, p)
  }

  /** What the loop does, with nobody interfering, is one of the runs of the protocol. */
  lemma {:induction false} LoopIsARun(s: State, op: OperatorId, found: seq<RowId>, p: Pass, now: real,
                                      outcomes: seq<Outcome>)
    returns (steps: seq<Step>, left: seq<RowId>)
    requires |found| == |outcomes| && !p.crashed && Reached(s, op, found, p)
    requires forall row :: row in found ==> row in p.rows
    ensures Rounds(p, found, now, outcomes).crashed || left == []
    ensures IsARunTo(s, op, steps, left, Rounds(p, found, now, outcomes))
    decreases |found|
  {
    steps, left := [], found;
    if found != [] {
      var first := RoundSteps(op, p.rows[found[0]], now, outcomes[0]);
      var q := Round(p, found[0], now, outcomes[0]);
      RoundIsARun(s, op, found, p, now, outcomes[0]);
      assert forall row :: row in found[1..] ==> row in found;
      if q.crashed {
        steps := first;
      } else {
        var more;
        more, left := LoopIsARun(After(s, first), op, found[1..], q, now, outcomes[1..]);
        Chain(s, first, more);
        steps := first + more;
      }
    }
  }

  /** The rounds that queue a job and then fail to note its id. */
  function LostNotes(p: Pass, found: seq<RowId>, now: real, outcomes: seq<Outcome>): nat
    requires |found| == |outcomes| && forall row :: row in found ==> row in p.rows
    decreases |found|
  {
    if found == [] || p.crashed then 0
    else
      assert forall row :: row in found[1..] ==> row in found;
      (if outcomes[0].NoteThrows? && p.rows[found[0]].payloadIsJob && p.rows[found[0]].status == Pending then 1 else 0)
      + LostNotes(Round(p, found[0], now, outcomes[0]), found[1..], now, outcomes[1..])
  }

  /** The count the script reports is the number of jobs it queued, less those whose note was lost. */
  lemma {:induction false} ReportedCount(p: Pass, found: seq<RowId>, now: real, outcomes: seq<Outcome>)
    requires |found| == |outcomes| && forall row :: row in found ==> row in p.rows
    ensures
      var q := Rounds(p, found, now, outcomes);
      && q.requeued - p.requeued == |q.queue| - |p.queue| - LostNotes(p, found, now, outcomes)
      && |q.queue| - |p.queue| <= |found|
    decreases |found|
  {
    if found != [] && !p.crashed {
      assert forall row :: row in found[1..] ==> row in found;
      ReportedCount(Round(p, found[0], now, outcomes[0]), found[1..], now, outcomes[1..]);
    }
  }

  // ---- what a row says of itself ----

  /** A row carries the time of its requeue while it is requeued, and the job id only once that very job is queued. */
  ghost predicate TellsTheTruth(s: State, row: RowId)
    requires row in s.rows
  {
    var r := s.rows[row];
    && (r.requeuedAt.Some? <==> r.status == Requeued)
    && (r.requeueJobId.Some? ==>
          r.status == Requeued && (row, r.requeueJobId.value) in s.queue && forall op :: HeldBy(s, op) != Some(row))
  }

  ghost predicate AllTellTheTruth(s: State) {
    && Exclusive(s) && HeldRowsAreRequeued(s)
    && (forall op :: op in s.operators && s.operators[op].phase.Added? ==>
          (s.operators[op].phase.row, s.operators[op].phase.jobId) in s.queue)
    && forall row :: row in s.rows ==> TellsTheTruth(s, row)
  }

  lemma HeldAfter(s: State, e: Step, op: OperatorId)
    requires Enabled(s, e)
    ensures
      HeldBy(Apply(s, e), op) == HeldBy(s, op) || HeldBy(Apply(s, e), op) == None ||
      (e.Claim? && e.op == op && HeldBy(Apply(s, e), op) == Some(s.operators[op].todo[0]) &&
       s.rows[s.operators[op].todo[0]].status == Pending)
  {
  }

  lemma HeldAlike(s: State, e: Step)
    requires Exclusive(s) && HeldRowsAreRequeued(s) && Enabled(s, e)
    ensures Exclusive(Apply(s, e)) && HeldRowsAreRequeued(Apply(s, e))
  {
    var t := Apply(s, e);
    forall op
      ensures HeldBy(t, op) == HeldBy(s, op) || HeldBy(t, op) == None ||
              (e.Claim? && e.op == op && HeldBy(t, op) == Some(s.operators[op].todo[0]) &&
               s.rows[s.operators[op].todo[0]].status == Pending)
    {
      HeldAfter(s, e, op);
    }
  }

  lemma AddedIsQueued(s: State, e: Step, op: OperatorId)
    requires Enabled(s, e) && op in Apply(s, e).operators && Apply(s, e).operators[op].phase.Added?
    requires
      op in s.operators && s.operators[op].phase.Added? ==>
        (s.operators[op].phase.row, s.operators[op].phase.jobId) in s.queue
    ensures
      var t := Apply(s, e);
      (t.operators[op].phase.row, t.operators[op].phase.jobId) in t.queue
  {
  }

  lemma RowTellsTheTruth(s: State, e: Step, row: RowId)
    requires AllTellTheTruth(s) && Enabled(s, e) && row in Apply(s, e).rows
    ensures TellsTheTruth(Apply(s, e), row)
  {
    var t := Apply(s, e);
    assert row in s.rows ==> TellsTheTruth(s, row);
    forall op
      ensures HeldBy(t, op) == HeldBy(s, op) || HeldBy(t, op) == None ||
              (e.Claim? && e.op == op && HeldBy(t, op) == Some(s.operators[op].todo[0]) &&
               s.rows[s.operators[op].todo[0]].status == Pending)
    {
      HeldAfter(s, e, op);
    }
  }

  lemma StepTellsTheTruth(s: State, e: Step)
    requires AllTellTheTruth(s) && Enabled(s, e)
    ensures AllTellTheTruth(Apply(s, e))
  {
    var t := Apply(s, e);
    HeldAlike(s, e);
    hide Exclusive, HeldRowsAreRequeued, TellsTheTruth, Apply, Enabled;
    forall op | op in t.operators && t.operators[op].phase.Added?
      ensures (t.operators[op].phase.row, t.operators[op].phase.jobId) in t.queue
    {
      AddedIsQueued(s, e, op);
    }
    forall row | row in t.rows
      ensures TellsTheTruth(t, row)
    {
      RowTellsTheTruth(s, e, row);
    }
  }

  lemma {:induction false} RunTellsTheTruth(s: State, steps: seq<Step>)
    requires AllTellTheTruth(s) && Runs(s, steps)
    ensures AllTellTheTruth(After(s, steps))
    decreases |steps|
  {
    if steps != [] {
      StepTellsTheTruth(s, steps[0]);
      hide Apply, Enabled, AllTellTheTruth;
      RunTellsTheTruth(Apply(s, steps[0]), steps[1..]);
    }
  }

  /**
   * In every run, whatever fails: a row has a requeue time if and only if it is requeued, and a job id only if queued.
   */
  lemma RowsTellTheTruth(steps: seq<Step>, row: RowId)
    requires Runs(INITIAL, steps) && row in After(INITIAL, steps).rows
    ensures
      var s := After(INITIAL, steps);
      var r := s.rows[row];
      && (r.requeuedAt.Some? <==> r.status == Requeued)
      && (r.requeueJobId.Some? ==> r.status == Requeued && (row, r.requeueJobId.value) in s.queue)
  {
    RunTellsTheTruth(INITIAL, steps);
    assert TellsTheTruth(After(INITIAL, steps), row);
  }

  /** A new dead letter of a job can be queued. */
  lemma NewLetterIsEnqueueable(s: State, row: RowId, payloadIsJob: bool)
    requires Enabled(s, Bury(row, payloadIsJob))
    ensures
      var t := Apply(s, Bury(row, payloadIsJob));
      IsPending(t.rows, row) && t.rows[row].payloadIsJob == payloadIsJob && t.queue == s.queue &&
        t.operators == s.operators
  {
  }
}
