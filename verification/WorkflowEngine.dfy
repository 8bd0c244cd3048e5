/** The step loop with resume, skip, failure and save (workflows/workflow-engine.ts). */
module WorkflowEngine {
  import opened Collections

  datatype Json =
    | Null
    | Bool(b: bool)
    | Number(n: real)
    | Text(s: string)
    | Array(items: seq<Json>)
    | Object(fields: seq<(string, Json)>)

  datatype Category =
    | VALIDATION | AUTHENTICATION | CONFIGURATION | TEMPLATE | NETWORK | TIMEOUT
    | RATE_LIMIT | EXTERNAL_API | REDIS | DATABASE | UNKNOWN

  datatype AppError = AppError(category: Category, retryable: bool, retryAfterMs: Option<real>)

  /** What templates can read: {{trigger}}, {{steps}}, {{workflow}} and {{execution}}. */
  datatype Context = Context(trigger: Json, steps: map<string, Entry>, workflow: Json, executionId: string,
                             attempt: nat)

  datatype Entry = Entry(output: Json, skipped: bool)

  /**
   * A compiled step. Rendering is a given function of the context; `misconfigured` is the error of the
   * registry and credential checks, if they fail.
   */
  datatype Step = Step(
    key: string,
    runIf: Option<Context -> Result<bool, AppError>>,
    config: Context -> Result<Json, AppError>,
    misconfigured: Option<AppError>)

  /** What the world does when a step's turn comes: the job may be aborted, the action answers, the save may fail. */
  datatype Turn = Turn(aborted: Option<AppError>, answer: Result<Json, AppError>, saved: bool)

  datatype Status = Succeeded | Skipped | Resumed | Failed

  datatype StepRecord = StepRecord(key: string, status: Status, output: Option<Json>, error: Option<AppError>)

  /** A successful action: its step, the rendered configuration it ran with, and what it answered. */
  datatype Action = Action(key: string, config: Json, output: Json)

  datatype Outcome =
    | Completed(steps: seq<StepRecord>)
    | StepFailed(error: AppError, failedStep: StepRecord, steps: seq<StepRecord>)

  type Resume = map<string, Json>

  /** One engine run: how it ended, the resume state in memory and on the job, and the actions that succeeded. */
  datatype Run = Run(outcome: Outcome, completed: Resume, saved: Resume, actions: seq<Action>)

  datatype Attempted = Skip | Fail(error: AppError) | Done(config: Json, output: Json)

  /** The body of the try block: abort check, runIf, rendering, lookups, then the action itself. */
  function TryStep(step: Step, ctx: Context, turn: Turn): Attempted {
    if turn.aborted.Some? then Fail(turn.aborted.value)
    else
      var wanted := if step.runIf.None? then Ok(true) else step.runIf.value(ctx);
      if wanted.Err? then Fail(wanted.error)
      else if !wanted.value then Skip
      else
        var config := step.config(ctx);
        if config.Err? then Fail(config.error)
        else if step.misconfigured.Some? then Fail(step.misconfigured.value)
        else if turn.answer.Err? then Fail(turn.answer.error)
        else Done(config.value, turn.answer.value)
  }

  /** What one step leaves behind when the loop goes on. */
  datatype Progress = Progress(record: StepRecord, entry: Entry, completed: Resume, saved: Resume, actions: seq<Action>)

  /** One turn of the loop. `completed` is shared with the save callback, so it is looked up live. */
  function TakeTurn(step: Step, last: bool, turn: Turn, ctx: Context, completed: Resume,
                    saved: Resume): Result<Progress, AppError> {
    if step.key in completed then
      var output := completed[step.key];
      Ok(Progress(StepRecord(step.key, Resumed, Some(output), None), Entry(output, false), completed, saved, []))
    else
      match TryStep(step, ctx, turn)
      case Fail(error) => Err(error)
      case Skip => Ok(Progress(StepRecord(step.key, Skipped, None, None), Entry(Null, true), completed, saved, []))
      case Done(config, output) =>
        var completed' := if last then completed else completed[step.key := output];
        var saved' := if last || !turn.saved then saved else completed';
        Ok(Progress(StepRecord(step.key, Succeeded, Some(output), None), Entry(output, false), completed', saved',
                    [Action(step.key, config, output)]))
  }

  function After(ctx: Context, key: string, entry: Entry): Context {
    ctx.(steps := ctx.steps[key := entry])
  }

  /** The run from step `i` on. */
  function RunFrom(steps: seq<Step>, world: nat -> Turn, i: nat, ctx: Context, completed: Resume, saved: Resume): Run
    requires i <= |steps|
    decreases |steps| - i
  {
    if i == |steps| then Run(Completed([]), completed, saved, [])
    else
      match TakeTurn(steps[i], i == |steps| - 1, world(i), ctx, completed, saved)
      case Err(error) =>
        var record := StepRecord(steps[i].key, Failed, None, Some(error));
        Run(StepFailed(error, record, [record]), completed, saved, [])
      case Ok(p) =>
        var rest := RunFrom(steps, world, i + 1, After(ctx, steps[i].key, p.entry), p.completed, p.saved);
        Prepend(p, rest)
  }

  function Prepend(p: Progress, rest: Run): Run {
    Run(Append([p.record], rest.outcome), rest.completed, rest.saved, p.actions + rest.actions)
  }

  function Append(records: seq<StepRecord>, outcome: Outcome): Outcome {
    match outcome
    case Completed(steps) => Completed(records + steps)
    case StepFailed(error, failedStep, steps) => StepFailed(error, failedStep, records + steps)
  }

  /** The run as the loop sees it: what has been gathered so far, then the rest. */
  function Gathered(records: seq<StepRecord>, actions: seq<Action>, rest: Run): Run {
    Run(Append(records, rest.outcome), rest.completed, rest.saved, actions + rest.actions)
  }

  lemma GatheredStep(steps: seq<Step>, world: nat -> Turn, i: nat, ctx: Context, completed: Resume, saved: Resume,
                     records: seq<StepRecord>, actions: seq<Action>)
    requires i < |steps|
    ensures var whole := Gathered(records, actions, RunFrom(steps, world, i, ctx, completed, saved));
            match TakeTurn(steps[i], i == |steps| - 1, world(i), ctx, completed, saved)
            case Err(error) =>
              var record := StepRecord(steps[i].key, Failed, None, Some(error));
              whole == Run(StepFailed(error, record, records + [record]), completed, saved, actions)
            case Ok(p) =>
              whole == Gathered(records + [p.record], actions + p.actions,
                                RunFrom(steps, world, i + 1, After(ctx, steps[i].key, p.entry), p.completed, p.saved))
  {
    match TakeTurn(steps[i], i == |steps| - 1, world(i), ctx, completed, saved)
    case Err(_) =>
      assert actions + [] == actions;
    case Ok(p) =>
      var rest := RunFrom(steps, world, i + 1, After(ctx, steps[i].key, p.entry), p.completed, p.saved);
      assert actions + (p.actions + rest.actions) == actions + p.actions + rest.actions;
      assert records + ([p.record] + rest.outcome.steps) == records + [p.record] + rest.outcome.steps;
  }

  lemma GatheredStart(run: Run)
    ensures Gathered([], [], run) == run
  {
    assert run.outcome.Completed? ==> [] + run.outcome.steps == run.outcome.steps;
    assert [] + run.actions == run.actions;
  }

  lemma GatheredEnd(steps: seq<Step>, world: nat -> Turn, ctx: Context, completed: Resume, saved: Resume,
                    records: seq<StepRecord>, actions: seq<Action>)
    ensures Gathered(records, actions, RunFrom(steps, world, |steps|, ctx, completed, saved)) ==
            Run(Completed(records), completed, saved, actions)
  {
    assert records + [] == records && actions + [] == actions;
  }

  /** The loop body of execute, up to the save callback. */
  method PerformStep(step: Step, last: bool, turn: Turn, ctx: Context, resume: Resume, savedBefore: Resume)
    returns (p: Result<Progress, AppError>)
    ensures p == TakeTurn(step, last, turn, ctx, resume, savedBefore)
  {
    if step.key in resume {
      return Ok(Progress(StepRecord(step.key, Resumed, Some(resume[step.key]), None), Entry(resume[step.key], false),
                         resume, savedBefore, []));
    }
    if turn.aborted.Some? {
      return Err(turn.aborted.value);
    }
    if step.runIf.Some? {
      var wanted := step.runIf.value(ctx);
      if wanted.Err? {
        return Err(wanted.error);
      }
      if !wanted.value {
        return Ok(Progress(StepRecord(step.key, Skipped, None, None), Entry(Null, true), resume, savedBefore, []));
      }
    }
    var config := step.config(ctx);
    if config.Err? {
      return Err(config.error);
    }
    if step.misconfigured.Some? {
      return Err(step.misconfigured.value);
    }
    if turn.answer.Err? {
      return Err(turn.answer.error);
    }
    var output := turn.answer.value;
    var completed, saved := resume, savedBefore;
    if !last {
      completed := completed[step.key := output];
      if turn.saved {
        saved := completed;
      }
    }
    return Ok(Progress(StepRecord(step.key, Succeeded, Some(output), None), Entry(output, false), completed, saved,
                       [Action(step.key, config.value, output)]));
  }

  /** WorkflowEngine.execute. */
  method Execute(steps: seq<Step>, world: nat -> Turn, context: Context, resume: Resume) returns (run: Run)
    requires context.steps == map[]
    ensures run == RunFrom(steps, world, 0, context, resume, resume)
  {
    var ctx := context;
    var records: seq<StepRecord> := [];
    var actions: seq<Action> := [];
    var completed, saved := resume, resume;
    ghost var goal := RunFrom(steps, world, 0, context, resume, resume);
    GatheredStart(goal);
    hide RunFrom, TakeTurn, Gathered;
    var index := 0;
    while index < |steps|
      invariant 0 <= index <= |steps|
      invariant goal == Gathered(records, actions, RunFrom(steps, world, index, ctx, completed, saved))
    {
      var step := steps[index];
      GatheredStep(steps, world, index, ctx, completed, saved, records, actions);
      var p := PerformStep(step, index == |steps| - 1, world(index), ctx, completed, saved);
      if p.Err? {
        var record := StepRecord(step.key, Failed, None, Some(p.error));
        return Run(StepFailed(p.error, record, records + [record]), completed, saved, actions);
      }
      ctx := After(ctx, step.key, p.value.entry);
      records := records + [p.value.record];
      actions := actions + p.value.actions;
      completed, saved := p.value.completed, p.value.saved;
      index := index + 1;
    }
    GatheredEnd(steps, world, ctx, completed, saved, records, actions);
    return Run(Completed(records), completed, saved, actions);
  }
}
