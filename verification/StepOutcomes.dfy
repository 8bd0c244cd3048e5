/** What becomes of each step of a run, read off its records alone (workflows/workflow-engine.ts). */
module StepOutcomes {
  import opened Collections
  import opened WorkflowEngine

  /** What later templates see of a step. */
  function EntryOf(r: StepRecord): Entry {
    Entry(if r.output.Some? then r.output.value else Null, r.status.Skipped?)
  }

  /** The context once the steps of `records` are over. */
  function ContextAfter(ctx: Context, records: seq<StepRecord>): Context {
    if records == [] then ctx
    else
      var front, r := ContextAfter(ctx, records[..|records| - 1]), records[|records| - 1];
      front.(steps := front.steps[r.key := EntryOf(r)])
  }

  /** The outputs known by then: those the run started with, and those of the steps that have succeeded since. */
  function Known(resume: Resume, records: seq<StepRecord>): Resume {
    if records == [] then resume
    else
      var front, r := Known(resume, records[..|records| - 1]), records[|records| - 1];
      if r.status.Succeeded? && r.output.Some? then front[r.key := r.output.value] else front
  }

  /** What is on the job by then: what was known when a save last landed. */
  function OnJob(resume: Resume, world: nat -> Turn, records: seq<StepRecord>): Resume {
    if records == [] then resume
    else
      var i := |records| - 1;
      if records[i].status.Succeeded? && world(i).saved then Known(resume, records)
      else OnJob(resume, world, records[..i])
  }

  /** The actions behind the records, each with the configuration rendered when its turn came. */
  function ActionsOf(steps: seq<Step>, ctx: Context, records: seq<StepRecord>): seq<Action>
    requires |records| <= |steps|
  {
    if records == [] then []
    else
      var i := |records| - 1;
      var r, config := records[i], steps[i].config(ContextAfter(ctx, records[..i]));
      ActionsOf(steps, ctx, records[..i]) +
      if r.status.Succeeded? && r.output.Some? && config.Ok? then [Action(steps[i].key, config.value, r.output.value)]
      else []
  }

  /** The step runs as far as its `runIf` is concerned. */
  predicate Wanted(step: Step, ctx: Context) {
    step.runIf.None? || step.runIf.value(ctx) == Ok(true)
  }

  predicate Unwanted(step: Step, ctx: Context) {
    step.runIf.Some? && step.runIf.value(ctx) == Ok(false)
  }

  /** The first thing that goes wrong, in the order in which the step could. */
  predicate FirstError(step: Step, turn: Turn, ctx: Context, error: AppError) {
    || turn.aborted == Some(error)
    || (turn.aborted.None? && step.runIf.Some? && step.runIf.value(ctx) == Err(error))
    || (turn.aborted.None? && Wanted(step, ctx) &&
        (|| step.config(ctx) == Err(error)
         || (step.config(ctx).Ok? && step.misconfigured == Some(error))
         || (step.config(ctx).Ok? && step.misconfigured.None? && turn.answer == Err(error))))
  }

  /** What a step's record must say, given what was known and what templates could see when its turn came. */
  ghost predicate Recorded(step: Step, turn: Turn, ctx: Context, known: Resume, r: StepRecord) {
    && r.key == step.key
    && (r.status.Resumed? <==> step.key in known)
    && (r.status.Skipped? <==> step.key !in known && turn.aborted.None? && Unwanted(step, ctx))
    && (r.status.Succeeded? <==>
        && step.key !in known && turn.aborted.None? && Wanted(step, ctx)
        && step.config(ctx).Ok? && step.misconfigured.None? && turn.answer.Ok?)
    && (r.status.Resumed? ==> r.output == Some(known[step.key]))
    && (r.status.Succeeded? ==> r.output == Some(turn.answer.value))
    && (r.status.Skipped? || r.status.Failed? ==> r.output == None)
    && (r.error.Some? <==> r.status.Failed?)
    && (r.status.Failed? ==> step.key !in known && FirstError(step, turn, ctx, r.error.value))
  }

  ghost predicate AllRecorded(steps: seq<Step>, world: nat -> Turn, ctx: Context, resume: Resume,
                              records: seq<StepRecord>)
    requires |records| <= |steps|
  {
    forall i :: 0 <= i < |records| ==> RecordedAt(steps, world, ctx, resume, records, i)
  }

  ghost predicate RecordedAt(steps: seq<Step>, world: nat -> Turn, ctx: Context, resume: Resume,
                             records: seq<StepRecord>, i: nat)
    requires i < |records| <= |steps|
  {
    Recorded(steps[i], world(i), ContextAfter(ctx, records[..i]), Known(resume, records[..i]), records[i])
  }

  /** The run ends with its first failure, or with the last step; the last step of the workflow is never saved. */
  ghost predicate EndsRight(steps: seq<Step>, world: nat -> Turn, ctx: Context, resume: Resume, run: Run) {
    var records := run.outcome.steps;
    && |records| <= |steps|
    && (forall i :: 0 <= i < |records| ==>
        (records[i].status.Failed? <==> run.outcome.StepFailed? && i == |records| - 1))
    && (if run.outcome.Completed? then |records| == |steps|
        else records != [] && run.outcome.failedStep == records[|records| - 1] &&
             records[|records| - 1].error == Some(run.outcome.error))
    && run.actions == ActionsOf(steps, ctx, records)
    && var kept := if |records| == |steps| && steps != [] then records[..|steps| - 1] else records;
       run.completed == Known(resume, kept) && run.saved == OnJob(resume, world, kept)
  }

  /** One turn of the loop. */
  lemma TurnIsRecorded(step: Step, last: bool, turn: Turn, ctx: Context, known: Resume, saved: Resume)
    ensures
      match TakeTurn(step, last, turn, ctx, known, saved)
      case Err(error) => Recorded(step, turn, ctx, known, StepRecord(step.key, Failed, None, Some(error)))
      case Ok(p) =>
        var r := p.record;
        && Recorded(step, turn, ctx, known, r) && !r.status.Failed? && p.entry == EntryOf(r)
        && p.actions == (if r.status.Succeeded? then [Action(step.key, step.config(ctx).value, r.output.value)] else [])
        && p.completed == (if r.status.Succeeded? && !last then known[step.key := r.output.value] else known)
        && p.saved == (if r.status.Succeeded? && !last && turn.saved then p.completed else saved)
  {
  }

  ghost predicate Unfailed(records: seq<StepRecord>) {
    forall i :: 0 <= i < |records| ==> !records[i].status.Failed?
  }

  /** What the loop looks back on for the resume state: the last step of the workflow is never saved. */
  function Kept(steps: seq<Step>, records: seq<StepRecord>): seq<StepRecord> {
    if |records| == |steps| && steps != [] then records[..|records| - 1] else records
  }

  lemma OneMoreRecord(steps: seq<Step>, world: nat -> Turn, ctx: Context, resume: Resume, front: seq<StepRecord>,
                      r: StepRecord)
    requires |front| < |steps| && AllRecorded(steps, world, ctx, resume, front)
    requires Recorded(steps[|front|], world(|front|), ContextAfter(ctx, front), Known(resume, front), r)
    ensures AllRecorded(steps, world, ctx, resume, front + [r])
  {
    hide Recorded, ContextAfter, Known;
    var all := front + [r];
    forall i | 0 <= i < |all|
      ensures RecordedAt(steps, world, ctx, resume, all, i)
    {
      assert all[..i] == front[..i];
      if i == |front| {
        assert front[..i] == front;
      } else {
        assert RecordedAt(steps, world, ctx, resume, front, i);
      }
    }
  }

  lemma OneMoreStep(steps: seq<Step>, world: nat -> Turn, ctx: Context, resume: Resume, front: seq<StepRecord>,
                    r: StepRecord)
    requires |front| < |steps|
    ensures
      var all, i, before := front + [r], |front|, ContextAfter(ctx, front);
      && ContextAfter(ctx, all) == before.(steps := before.steps[r.key := EntryOf(r)])
      && (r.status.Succeeded? && r.output.Some? ==> Known(resume, all) == Known(resume, front)[r.key := r.output.value])
      && (!r.status.Succeeded? ==> Known(resume, all) == Known(resume, front))
      && OnJob(resume, world, all) ==
         (if r.status.Succeeded? && world(i).saved then Known(resume, all) else OnJob(resume, world, front))
      && ActionsOf(steps, ctx, all) ==
         ActionsOf(steps, ctx, front) +
         if r.status.Succeeded? && r.output.Some? && steps[i].config(before).Ok?
         then [Action(steps[i].key, steps[i].config(before).value, r.output.value)] else []
  {
    assert (front + [r])[..|front|] == front;
  }

  /** What the loop has gathered when it comes to step `i`. */
  ghost predicate Underway(steps: seq<Step>, world: nat -> Turn, ctx: Context, resume: Resume, front: seq<StepRecord>,
                           completed: Resume, saved: Resume) {
    && |front| <= |steps| && AllRecorded(steps, world, ctx, resume, front) && Unfailed(front)
    && completed == Known(resume, Kept(steps, front)) && saved == OnJob(resume, world, Kept(steps, front))
  }

  ghost predicate Lawful(steps: seq<Step>, world: nat -> Turn, ctx: Context, resume: Resume, run: Run) {
    EndsRight(steps, world, ctx, resume, run) && AllRecorded(steps, world, ctx, resume, run.outcome.steps)
  }

  lemma LastRecord(steps: seq<Step>, world: nat -> Turn, ctx: Context, resume: Resume, front: seq<StepRecord>,
                   completed: Resume, saved: Resume, error: AppError)
    requires |front| < |steps| && Underway(steps, world, ctx, resume, front, completed, saved)
    requires Err(error) == TakeTurn(steps[|front|], |front| == |steps| - 1, world(|front|), ContextAfter(ctx, front),
                                    completed, saved)
    ensures
      var r := StepRecord(steps[|front|].key, Failed, None, Some(error));
      Lawful(steps, world, ctx, resume,
             Run(StepFailed(error, r, front + [r]), completed, saved, ActionsOf(steps, ctx, front)))
  {
    var i, r := |front|, StepRecord(steps[|front|].key, Failed, None, Some(error));
    TurnIsRecorded(steps[i], i == |steps| - 1, world(i), ContextAfter(ctx, front), completed, saved);
    OneMoreStep(steps, world, ctx, resume, front, r);
    assert (front + [r])[..i] == front == Kept(steps, front);
    hide TakeTurn, Recorded, ContextAfter, Known, OnJob, ActionsOf, AllRecorded;
    OneMoreRecord(steps, world, ctx, resume, front, r);
    assert ActionsOf(steps, ctx, front) + [] == ActionsOf(steps, ctx, front);
  }

  lemma NextRecord(steps: seq<Step>, world: nat -> Turn, ctx: Context, resume: Resume, front: seq<StepRecord>,
                   completed: Resume, saved: Resume, p: Progress)
    requires |front| < |steps| && Underway(steps, world, ctx, resume, front, completed, saved)
    requires
      Ok(p) == TakeTurn(steps[|front|], |front| == |steps| - 1, world(|front|), ContextAfter(ctx, front), completed,
                        saved)
    ensures
      var all := front + [p.record];
      && Underway(steps, world, ctx, resume, all, p.completed, p.saved)
      && ContextAfter(ctx, all) == After(ContextAfter(ctx, front), steps[|front|].key, p.entry)
      && ActionsOf(steps, ctx, all) == ActionsOf(steps, ctx, front) + p.actions
  {
    var i := |front|;
    TurnIsRecorded(steps[i], i == |steps| - 1, world(i), ContextAfter(ctx, front), completed, saved);
    OneMoreStep(steps, world, ctx, resume, front, p.record);
    assert Kept(steps, front) == front;
    hide TakeTurn, ContextAfter, Known, OnJob, ActionsOf, AllRecorded;
    OneMoreRecord(steps, world, ctx, resume, front, p.record);
    assert (front + [p.record])[..i] == front;
  }

  lemma {:induction false} RunIsLawful(steps: seq<Step>, world: nat -> Turn, ctx: Context, resume: Resume,
                                       front: seq<StepRecord>, completed: Resume, saved: Resume)
    requires Underway(steps, world, ctx, resume, front, completed, saved)
    ensures |front| <= |steps|
    ensures
      Lawful(steps, world, ctx, resume,
             Gathered(front, ActionsOf(steps, ctx, front),
                      RunFrom(steps, world, |front|, ContextAfter(ctx, front), completed, saved)))
    decreases |steps| - |front|
  {
    var i, here := |front|, ContextAfter(ctx, front);
    if i == |steps| {
      AllRecordsAreLawful(steps, world, ctx, resume, front, completed, saved);
    } else {
      hide Underway, RunFrom, TakeTurn, Gathered, Lawful, ContextAfter, ActionsOf, Known, OnJob, Recorded, AllRecorded;
      GatheredStep(steps, world, i, here, completed, saved, front, ActionsOf(steps, ctx, front));
      match TakeTurn(steps[i], i == |steps| - 1, world(i), here, completed, saved)
      case Err(error) =>
        LastRecord(steps, world, ctx, resume, front, completed, saved, error);
      case Ok(p) =>
        NextRecord(steps, world, ctx, resume, front, completed, saved, p);
        RunIsLawful(steps, world, ctx, resume, front + [p.record], p.completed, p.saved);
    }
  }

  lemma AllRecordsAreLawful(steps: seq<Step>, world: nat -> Turn, ctx: Context, resume: Resume, front: seq<StepRecord>,
                            completed: Resume, saved: Resume)
    requires |front| == |steps| && Underway(steps, world, ctx, resume, front, completed, saved)
    ensures
      Lawful(steps, world, ctx, resume,
             Gathered(front, ActionsOf(steps, ctx, front),
                      RunFrom(steps, world, |steps|, ContextAfter(ctx, front), completed, saved)))
  {
    GatheredEnd(steps, world, ContextAfter(ctx, front), completed, saved, front, ActionsOf(steps, ctx, front));
    hide RunFrom, ContextAfter, Known, OnJob, ActionsOf, Gathered;
    assert steps != [] ==> front[..|steps| - 1] == Kept(steps, front);
  }

  /**
   * Every run of the engine: each step it reaches is resumed, skipped, done or failed exactly when it should be, given
   * what the records before it say; the run ends with its first failure; its actions are those of the steps that
   * succeeded.
   */
  lemma EveryStepIsDecidedRight(steps: seq<Step>, world: nat -> Turn, ctx: Context, resume: Resume)
    ensures Lawful(steps, world, ctx, resume, RunFrom(steps, world, 0, ctx, resume, resume))
  {
    RunIsLawful(steps, world, ctx, resume, [], resume, resume);
    GatheredStart(RunFrom(steps, world, 0, ctx, resume, resume));
    hide RunFrom, Gathered;
    assert ActionsOf(steps, ctx, []) == [];
  }
}
