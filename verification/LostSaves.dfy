/** The assumption on saves is exact: a step whose save is lost before a plain retry can act again. */
module LostSaves {
  import opened Collections
  import opened WorkflowEngine
  import opened StepResume
  import opened JobLifecycle
  import opened JobRuns

  /** The same circumstances, with saves that land. */
  function Saving(world: nat -> Turn): nat -> Turn {
    (i: nat) => world(i).(saved := true)
  }

  ghost predicate ActsIn(key: string, actions: seq<Action>) {
    exists j :: 0 <= j < |actions| && actions[j].key == key
  }

  ghost predicate Repeats(first: seq<Action>, second: seq<Action>) {
    exists key :: ActsIn(key, first) && ActsIn(key, second)
  }

  lemma RepeatsAfter(p: Progress, q: Progress, first: Run, second: Run)
    requires Repeats(first.actions, second.actions)
    ensures Repeats(Prepend(p, first).actions, Prepend(q, second).actions)
  {
    var key :| ActsIn(key, first.actions) && ActsIn(key, second.actions);
    var j :| 0 <= j < |first.actions| && first.actions[j].key == key;
    var k :| 0 <= k < |second.actions| && second.actions[k].key == key;
    assert (p.actions + first.actions)[|p.actions| + j].key == key;
    assert (q.actions + second.actions)[|q.actions| + k].key == key;
    assert ActsIn(key, p.actions + first.actions) && ActsIn(key, q.actions + second.actions);
  }

  /** Rendering does not depend on the attempt, and what an action does not on whether it will be saved. */
  lemma SameTry(step: Step, ctx: Context, a: nat, b: nat, turn: Turn)
    requires AttemptBlind(step)
    ensures TryStep(step, ctx.(attempt := a), turn) == TryStep(step, ctx.(attempt := b), turn.(saved := true))
  {
    assert step.config(ctx.(attempt := a)) == step.config(ctx) == step.config(ctx.(attempt := b));
    if step.runIf.Some? {
      assert step.runIf.value(ctx.(attempt := a)) == step.runIf.value(ctx) == step.runIf.value(ctx.(attempt := b));
    }
  }

  /** A step that was skipped is not among those a later step completed. */
  lemma SkippedStaysOut(steps: seq<Step>, world: nat -> Turn, i: nat, ctx: Context, completed: Resume, saved: Resume)
    requires i < |steps| && DistinctKeys(steps) && steps[i].key !in completed
    ensures steps[i].key !in RunFrom(steps, world, i + 1, ctx, completed, saved).completed
  {
    CompletedGrows(steps, world, i + 1, ctx, completed, saved);
    RunActsFresh(steps, world, i + 1, ctx, completed, saved);
  }

  /** Two attempts from step `i` on: the first ends with `left` on the job, the second starts from that. */
  function Second(steps: seq<Step>, world: nat -> Turn, i: nat, ctx: Context, b: nat, left: Resume): Run
    requires i <= |steps|
  {
    RunFrom(steps, Saving(world), i, ctx.(attempt := b), left, left)
  }

  ghost predicate Loses(run: Run, completed: Resume) {
    Within(completed, run.saved) && Within(run.saved, run.completed) && !Within(run.completed, run.saved)
  }

  lemma ActsAgain(steps: seq<Step>, world: nat -> Turn, i: nat, ctx: Context, a: nat, b: nat, completed: Resume,
                  saved: Resume,
                  p: Progress, run: Run)
    requires i < |steps| && Blind(steps)
    requires TakeTurn(steps[i], i == |steps| - 1, world(i), ctx.(attempt := a), completed, saved) == Ok(p) &&
             p.actions != []
    requires RunFrom(steps, world, i, ctx.(attempt := a), completed, saved) == Prepend(p, run)
    requires steps[i].key !in Prepend(p, run).saved
    ensures Repeats(Prepend(p, run).actions, Second(steps, world, i, ctx, b, Prepend(p, run).saved).actions)
  {
    var key, left := steps[i].key, run.saved;
    SameTry(steps[i], ctx, a, b, world(i));
    var q, run2 := RunUnfolds(steps, Saving(world), i, ctx, b, left, left);
    assert (p.actions + run.actions)[0].key == key && (q.actions + run2.actions)[0].key == key;
    assert ActsIn(key, p.actions + run.actions) && ActsIn(key, q.actions + run2.actions);
  }

  /** A step that leaves nothing unsaved behind has the same effect in both attempts. */
  lemma PassesAlike(step: Step, last: bool, turn: Turn, ctx: Context, a: nat, b: nat, completed: Resume, saved: Resume,
                    p: Progress, rest: Run)
    requires AttemptBlind(step) && TakeTurn(step, last, turn, ctx.(attempt := a), completed, saved) == Ok(p)
    requires Grows(p.completed, rest) && Loses(rest, completed)
    requires if p.actions != [] then step.key in rest.saved && !last
             else step.key !in completed ==> step.key !in rest.saved
    ensures Loses(rest, p.completed)
    ensures
      var q := TakeTurn(step, last, turn.(saved := true), ctx.(attempt := b), rest.saved, rest.saved);
      q.Ok? && q.value.entry == p.entry && q.value.completed == q.value.saved == rest.saved
  {
    SameTry(step, ctx, a, b, turn);
    hide TryStep;
  }

  lemma LastStepLosesNothing(steps: seq<Step>, world: nat -> Turn, i: nat, ctx: Context, completed: Resume,
                             saved: Resume)
    requires i + 1 == |steps|
    ensures !Loses(RunFrom(steps, world, i, ctx, completed, saved), completed)
  {
    match TakeTurn(steps[i], true, world(i), ctx, completed, saved)
    case Err(_) =>
    case Ok(p) =>
      assert RunFrom(steps, world, i + 1, After(ctx, steps[i].key, p.entry), p.completed, p.saved).completed ==
        completed;
  }

  /** Something is lost only by going on past a step that is not the last. */
  lemma LossGoesOn(steps: seq<Step>, world: nat -> Turn, i: nat, ctx: Context, completed: Resume, saved: Resume)
    requires i <= |steps| && Loses(RunFrom(steps, world, i, ctx, completed, saved), completed)
    ensures i < |steps| - 1 && TakeTurn(steps[i], false, world(i), ctx, completed, saved).Ok?
  {
    if i == |steps| - 1 {
      LastStepLosesNothing(steps, world, i, ctx, completed, saved);
    }
  }

  lemma LossUnfolds(steps: seq<Step>, world: nat -> Turn, i: nat, ctx: Context, a: nat, completed: Resume,
                    saved: Resume)
    returns (p: Progress, run: Run)
    requires i <= |steps| && DistinctKeys(steps)
    requires Loses(RunFrom(steps, world, i, ctx.(attempt := a), completed, saved), completed)
    ensures i < |steps| - 1 && TakeTurn(steps[i], false, world(i), ctx.(attempt := a), completed, saved) == Ok(p)
    ensures run == RunFrom(steps, world, i + 1, After(ctx, steps[i].key, p.entry).(attempt := a), p.completed, p.saved)
    ensures RunFrom(steps, world, i, ctx.(attempt := a), completed, saved) == Prepend(p, run)
    ensures Loses(run, completed) && Grows(p.completed, run)
    ensures steps[i].key !in completed && p.actions == [] ==> steps[i].key !in run.saved
  {
    LossGoesOn(steps, world, i, ctx.(attempt := a), completed, saved);
    p, run := RunUnfolds(steps, world, i, ctx, a, completed, saved);
    if steps[i].key !in completed && p.actions == [] {
      SkippedStaysOut(steps, world, i, After(ctx, steps[i].key, p.entry).(attempt := a), completed, p.saved);
    }
  }

  /**
   * A run that completed more than it left on the job acted in a step that acts again when it is run again from there.
   */
  lemma {:induction false} LossRepeats(
      steps: seq<Step>, world: nat -> Turn, i: nat, ctx: Context, a: nat, b: nat, completed: Resume, saved: Resume)
    requires i <= |steps| && DistinctKeys(steps) && Blind(steps)
    requires Loses(RunFrom(steps, world, i, ctx.(attempt := a), completed, saved), completed)
    ensures
      var run := RunFrom(steps, world, i, ctx.(attempt := a), completed, saved);
      Repeats(run.actions, Second(steps, world, i, ctx, b, run.saved).actions)
    decreases |steps| - i
  {
    hide RunFrom, TakeTurn, Loses;
    var p, run := LossUnfolds(steps, world, i, ctx, a, completed, saved);
    var next := After(ctx, steps[i].key, p.entry);
    if steps[i].key !in run.saved && p.actions != [] {
      ActsAgain(steps, world, i, ctx, a, b, completed, saved, p, run);
      return;
    }
    PassesAlike(steps[i], i == |steps| - 1, world(i), ctx, a, b, completed, saved, p, run);
    var q, run2 := RunUnfolds(steps, Saving(world), i, ctx, b, run.saved, run.saved);
    LossRepeats(steps, world, i + 1, next, a, b, p.completed, p.saved);
    RepeatsAfter(p, q, run, run2);
  }

  /** Whatever follows the delivery, with the same workflow and saves that land, no finished step acts again. */
  ghost predicate NeverActsTwiceAfter(cfg: Config, job: Job, visit: Visit, steps: seq<Step>, info: Json) {
    var (next, actions) := Lived(cfg, InQueue(job), Deliver(visit));
    forall rest :: SameWorkflow(rest, steps, info) && SavesLand(cfg, next, rest) ==>
      OncePerKey(actions + Actions(cfg, next, rest))
  }

  lemma RepeatsIsTwice(first: seq<Action>, second: seq<Action>)
    requires Repeats(first, second)
    ensures !OncePerKey(first + second)
  {
    var key :| ActsIn(key, first) && ActsIn(key, second);
    var j :| 0 <= j < |first| && first[j].key == key;
    var k :| 0 <= k < |second| && second[k].key == key;
    assert (first + second)[j].key == (first + second)[|first| + k].key;
  }

  /** A delivery in the same circumstances but with saves that land. */
  lemma DeliveredAgain(cfg: Config, job: Job, visit: Visit, steps: seq<Step>, info: Json) returns (run: Run)
    requires job.data.Some? && visit.workflow == Ok(Some(steps)) && visit.info == info
    ensures
      var again := visit.(world := Saving(visit.world));
      && run == Second(steps, visit.world, 0, ContextOf(job.data.value, info, 0), job.attemptsMade + 1,
                       job.data.value.resume)
      && Lived(cfg, InQueue(job), Deliver(again)).1 == run.actions
      && SameWorkflow([Deliver(again)], steps, info) && SavesLand(cfg, InQueue(job), [Deliver(again)])
  {
    hide RunFrom, TryStep;
    var data, attempt := job.data.value, job.attemptsMade + 1;
    var again := visit.(world := Saving(visit.world));
    run := Second(steps, visit.world, 0, ContextOf(data, info, 0), attempt, data.resume);
    SavedIsWithin(steps, again.world, 0, ContextOf(data, info, attempt), data.resume, data.resume);
    assert [Deliver(again)][1..] == [];
  }

  /** The delivery once more, from what the first one left on the job, with saves that land. */
  lemma LostSaveCanRepeat(cfg: Config, job: Job, visit: Visit, steps: seq<Step>, info: Json)
    requires DistinctKeys(steps) && Blind(steps) && job.data.Some?
    requires SameWorkflow([Deliver(visit)], steps, info) && !SaveLands(cfg, job, visit)
    ensures !NeverActsTwiceAfter(cfg, job, visit, steps, info)
  {
    hide RunFrom, TryStep, LastToSave;
    SaveLandsIffSaved(cfg, job, visit);
    var data := job.data.value;
    var (next, now) := Lived(cfg, InQueue(job), Deliver(visit));
    assert [Deliver(visit)][0].visit == visit;
    var again := visit.(world := Saving(visit.world));
    var base := ContextOf(data, visit.info, 0);
    var run := RunFrom(steps, visit.world, 0, base.(attempt := job.attemptsMade + 1), data.resume, data.resume);
    SavedIsWithin(steps, visit.world, 0, base.(attempt := job.attemptsMade + 1), data.resume, data.resume);
    assert next.InQueue? && next.job.data == Some(data.(resume := run.saved)) && now == run.actions;
    LossRepeats(steps, visit.world, 0, base, job.attemptsMade + 1, next.job.attemptsMade + 1, data.resume, data.resume);
    var second := DeliveredAgain(cfg, next.job, visit, steps, info);
    RepeatsIsTwice(now, second.actions);
    assert second.actions + [] == second.actions;
    assert [Deliver(again)][1..] == [];
    assert Actions(cfg, next, [Deliver(again)]) == second.actions;
  }

  /**
   * The assumption on saves is exact: a delivery keeps every later life with landing saves to one action per step
   * if and only if what it finished is on the job before a plain retry.
   */
  lemma SaveLandsIsExact(cfg: Config, job: Job, visit: Visit, steps: seq<Step>, info: Json)
    requires DistinctKeys(steps) && Blind(steps) && job.data.Some?
    requires SameWorkflow([Deliver(visit)], steps, info)
    ensures SaveLands(cfg, job, visit) <==> NeverActsTwiceAfter(cfg, job, visit, steps, info)
  {
    hide Lived, SaveLands;
    if !SaveLands(cfg, job, visit) {
      LostSaveCanRepeat(cfg, job, visit, steps, info);
      return;
    }
    var (next, now) := Lived(cfg, InQueue(job), Deliver(visit));
    forall rest | SameWorkflow(rest, steps, info) && SavesLand(cfg, next, rest)
      ensures OncePerKey(now + Actions(cfg, next, rest))
    {
      var events := [Deliver(visit)] + rest;
      assert events[1..] == rest && [Deliver(visit)][0] == events[0];
      assert forall i :: 0 <= i < |rest| ==> events[i + 1] == rest[i];
      NoStepActsTwice(cfg, InQueue(job), events, steps, info);
    }
  }

  // A workflow of two steps whose first save fails and whose second action fails once.

  function TwoSteps(): seq<Step> {
    var render := (ctx: Context) => Ok(Null);
    [Step("a", None, render, None), Step("b", None, render, None)]
  }

  const NETWORK_DOWN := AppError(NETWORK, true, None)

  function LossyJob(attemptsMade: nat): Job {
    Job(Some(JobData("x", Null, map[], 0.0, None, 0)), attemptsMade, Some(2))
  }

  function Lossy(second: Result<Json, AppError>): Visit {
    Visit(0.0, 0.0, Ok(Some(TwoSteps())), Null, (i: nat) => Turn(None, if i == 0 then Ok(Null) else second, false), 0.0,
          0.0, true)
  }

  lemma TwoStepRun(ctx: Context, second: Result<Json, AppError>)
    ensures var run := RunFrom(TwoSteps(), Lossy(second).world, 0, ctx, map[], map[]);
            && run.completed == map["a" := Null] && run.saved == map[]
            && (if second.Err? then
                  run.outcome.StepFailed? && run.outcome.error == second.error &&
                    run.actions == [Action("a", Null, Null)]
                else
                  run.outcome.Completed? && run.actions == [Action("a", Null, Null), Action("b", Null, second.value)])
  {
    assert "a" != "b" by { assert "a"[0] != "b"[0]; }
    var steps, world := TwoSteps(), Lossy(second).world;
    var ctx1 := After(ctx, "a", Entry(Null, false));
    assert RunFrom(steps, world, 2, ctx1, map["a" := Null], map[]).actions == [];
    var run1 := RunFrom(steps, world, 1, ctx1, map["a" := Null], map[]);
    assert RunFrom(steps, world, 0, ctx, map[], map[]).actions == [Action("a", Null, Null)] + run1.actions;
  }

  lemma LossyDelivery(cfg: Config, attemptsMade: nat, second: Result<Json, AppError>)
    requires (attemptsMade == 0 && second == Err(NETWORK_DOWN)) || second == Ok(Null)
    ensures Lived(cfg, InQueue(LossyJob(attemptsMade)), Deliver(Lossy(second)))
         == if second.Ok? then (Ended, [Action("a", Null, Null), Action("b", Null, Null)])
            else (InQueue(LossyJob(1)), [Action("a", Null, Null)])
    ensures second.Err? ==> !SaveLands(cfg, LossyJob(attemptsMade), Lossy(second))
  {
    TwoStepRun(ContextOf(LossyJob(attemptsMade).data.value, Null, attemptsMade + 1), second);
    hide RunFrom, TwoSteps;
  }

  /** For instance: the first step's save failed, and it acts again on the next attempt. */
  lemma LostSaveRepeats(cfg: Config)
    ensures var events := [Deliver(Lossy(Err(NETWORK_DOWN))), Deliver(Lossy(Ok(Null)))];
            && !SavesLand(cfg, InQueue(LossyJob(0)), events)
            && Actions(cfg, InQueue(LossyJob(0)), events) ==
              [Action("a", Null, Null), Action("a", Null, Null), Action("b", Null, Null)]
  {
    LossyDelivery(cfg, 0, Err(NETWORK_DOWN));
    LossyDelivery(cfg, 1, Ok(Null));
    hide Lived, Lossy, SaveLands;
    var d1, d2 := Deliver(Lossy(Err(NETWORK_DOWN))), Deliver(Lossy(Ok(Null)));
    var events := [d1, d2];
    assert events[1..] == [d2] && [d2][1..] == [];
    assert Actions(cfg, InQueue(LossyJob(1)), [d2]) == [Action("a", Null, Null), Action("b", Null, Null)] +
      Actions(cfg, Ended, []);
  }
}
